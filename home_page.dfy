/**
 * The home page's own data handling: the category list built from the stats
 * response, the posts shown for the categories selected in the filter panel,
 * and the merge of freshly scraped posts into the list.
 */
module HomePage {
  import opened Wrappers
  import opened Collections
  import opened Posts
  import opened CategoryFilter

  /**
   * `Object.entries(categoriesWithPosts).map(([name, count]) => ...)`: the
   * entries are taken in their enumeration order; each category uses its name
   * as its id.
   */
  function ToCategories(entries: seq<(string, int)>): (r: seq<Category>)
    ensures |r| == |entries|
    ensures forall i :: 0 <= i < |r| ==> r[i] == Category(entries[i].0, entries[i].0, entries[i].1, "")
  {
    seq(|entries|, i requires 0 <= i < |entries| => Category(entries[i].0, entries[i].0, entries[i].1, ""))
  }

  function EntryCountOf(e: (string, int)): int {
    e.1
  }

  /**
   * Selecting every fetched category selects exactly the category names, and
   * the panel's result count is then the sum of the fetched counts.
   */
  lemma ToCategoriesSelectAll(entries: seq<(string, int)>)
    ensures forall i :: 0 <= i < |entries| ==> SelectAll(ToCategories(entries))[i] == entries[i].0
    ensures DisplayedCount(ToCategories(entries), SelectAll(ToCategories(entries))) == SumBy(entries, EntryCountOf)
  {
    var cs := ToCategories(entries);
    DisplayedCountFacts(cs, []);
    SumByPointwise(cs, CountOf, entries, EntryCountOf);
  }

  /** `post.categories && selectedCategories.includes(post.categories.name)`. */
  predicate InSelection(p: Post, selected: seq<string>) {
    p.categories.Some? && p.categories.value.name in selected
  }

  function SelectionFilter(selected: seq<string>): Post -> bool {
    (p: Post) => InSelection(p, selected)
  }

  /** `filteredPosts`: everything when nothing is selected. */
  function FilteredPosts(posts: seq<Post>, selected: seq<string>): seq<Post> {
    if |selected| == 0 then posts else Filter(posts, SelectionFilter(selected))
  }

  /**
   * With a selection, a post is shown exactly when it has a category whose
   * name is selected, as many times as it occurs; posts without a category are
   * never shown, and no post is added or duplicated.
   */
  lemma FilteredPostsFacts(posts: seq<Post>, selected: seq<string>)
    ensures selected == [] ==> FilteredPosts(posts, selected) == posts
    ensures multiset(FilteredPosts(posts, selected)) <= multiset(posts)
    ensures forall p :: multiset(FilteredPosts(posts, selected))[p] ==
              if selected == [] || InSelection(p, selected) then multiset(posts)[p] else 0
    ensures selected != [] ==> forall p :: p in FilteredPosts(posts, selected) <==> p in posts && InSelection(p, selected)
    ensures selected != [] ==> forall p :: p in FilteredPosts(posts, selected) ==> p.categories.Some?
  {
    FilterSubMultiset(posts, SelectionFilter(selected));
    forall p
      ensures multiset(FilteredPosts(posts, selected))[p] ==
              if selected == [] || InSelection(p, selected) then multiset(posts)[p] else 0
    {
      FilterCount(posts, SelectionFilter(selected), p);
    }
    if selected != [] {
      forall p
        ensures p in FilteredPosts(posts, selected) <==> p in posts && InSelection(p, selected)
      {
        var r := FilteredPosts(posts, selected);
        if p in posts {
          var i :| 0 <= i < |posts| && posts[i] == p;
        }
        if p in r {
          var k :| 0 <= k < |r| && r[k] == p;
        }
      }
    }
  }

  /**
   * The shown posts keep the order of the list: the posts shown for two lists
   * one after the other are those of the first list followed by those of the
   * second, and a single post is shown on its own exactly when it is selected.
   */
  lemma FilteredPostsOrder(a: seq<Post>, b: seq<Post>, selected: seq<string>, p: Post)
    ensures FilteredPosts(a + b, selected) == FilteredPosts(a, selected) + FilteredPosts(b, selected)
    ensures FilteredPosts([p], selected) == if selected == [] || InSelection(p, selected) then [p] else []
  {
    FilterConcat(a, b, SelectionFilter(selected));
    FilterSnoc([], p, SelectionFilter(selected));
    assert [] + [p] == [p];
  }

  /** Adding a category to a non-empty selection brings in only posts of that category. */
  lemma FilteredPostsToggleAdd(posts: seq<Post>, selected: seq<string>, id: string, p: Post)
    requires selected != [] && id !in selected
    requires p in FilteredPosts(posts, Toggle(selected, id))
    ensures p in FilteredPosts(posts, selected) || p.categories.value.name == id
  {
    FilteredPostsFacts(posts, selected);
    FilteredPostsFacts(posts, Toggle(selected, id));
  }

  /**
   * `setPosts(prev => [...scrapedPosts, ...prev])` when the response carries a
   * non-empty `scrapedPosts` list; the list is unchanged otherwise.
   */
  function MergeScraped(scraped: Option<seq<Post>>, prev: seq<Post>): (r: seq<Post>)
    ensures scraped.None? ==> r == prev
    ensures scraped.Some? ==> r == scraped.value + prev
    ensures |r| == |scraped.GetOr([])| + |prev|
  {
    if scraped.Some? && |scraped.value| > 0 then scraped.value + prev else prev
  }
}
