/**
 * The post grid's derived data: the category buttons above the grid and the
 * list the grid shows after the category filter, the search box and the sort
 * selector have been applied.
 */
module PostGrid {
  import opened Wrappers
  import opened Text
  import opened Collections
  import opened Sorting
  import opened Posts

  // ---------------------------------------------------------------------------
  // Category buttons
  // ---------------------------------------------------------------------------

  /** `post.categories?.name`. */
  function NameOf(p: Post): Option<string> {
    if p.categories.Some? then Some(p.categories.value.name) else None
  }

  /** `posts.map(post => post.categories?.name).filter(Boolean)`. */
  function PresentNames(posts: seq<Post>): seq<string> {
    if posts == [] then []
    else
      var last := posts[|posts| - 1];
      PresentNames(posts[..|posts| - 1]) + (if Truthy(NameOf(last)) then [NameOf(last).value] else [])
  }

  /** `post.categories?.name === name`. */
  predicate HasName(p: Post, name: string) {
    p.categories.Some? && p.categories.value.name == name
  }

  lemma {:induction false} PresentNamesMembers(posts: seq<Post>, x: string)
    ensures x in PresentNames(posts) <==> x != "" && exists i :: 0 <= i < |posts| && HasName(posts[i], x)
  {
    if posts != [] {
      var init := posts[..|posts| - 1];
      assert posts == init + [posts[|posts| - 1]];
      PresentNamesMembers(init, x);
      if x != "" && exists i :: 0 <= i < |posts| && HasName(posts[i], x) {
        var i :| 0 <= i < |posts| && HasName(posts[i], x);
        if i < |init| {
          assert HasName(init[i], x);
        }
      }
    }
  }

  /** The category buttons: `Array.from(new Set(...))` over the present names. */
  function CategoryNames(posts: seq<Post>): seq<string> {
    Distinct(PresentNames(posts))
  }

  /** One button per non-empty category name, each name once. */
  lemma CategoryNamesFacts(posts: seq<Post>)
    ensures NoDups(CategoryNames(posts))
    ensures forall x :: x in CategoryNames(posts)
              <==> x != "" && exists i :: 0 <= i < |posts| && HasName(posts[i], x)
  {
    forall x
      ensures x in CategoryNames(posts) <==> x != "" && exists i :: 0 <= i < |posts| && HasName(posts[i], x)
    {
      PresentNamesMembers(posts, x);
      var names := PresentNames(posts);
      if x in names {
        var k :| 0 <= k < |names| && names[k] == x;
      }
      if x in CategoryNames(posts) {
        var k :| 0 <= k < |CategoryNames(posts)| && CategoryNames(posts)[k] == x;
      }
    }
  }

  /** `post => post.categories?.name === name`. */
  function InCategory(name: string): Post -> bool {
    (p: Post) => HasName(p, name)
  }

  /** The count on a category button. */
  function ButtonCount(posts: seq<Post>, name: string): nat {
    |Filter(posts, InCategory(name))|
  }

  /** A button's count is the number of times its name occurs among the present names. */
  lemma {:induction false} ButtonCountNames(posts: seq<Post>, name: string)
    requires name != ""
    ensures ButtonCount(posts, name) == Count(PresentNames(posts), name)
  {
    if posts != [] {
      var init := posts[..|posts| - 1];
      var last := posts[|posts| - 1];
      ButtonCountNames(init, name);
      assert |Filter(posts, InCategory(name))| == |Filter(init, InCategory(name))| + (if HasName(last, name) then 1 else 0);
      if Truthy(NameOf(last)) {
        assert PresentNames(posts) == PresentNames(init) + [NameOf(last).value];
        CountSnoc(PresentNames(init), NameOf(last).value, name);
      } else {
        assert PresentNames(posts) == PresentNames(init) + [];
        assert PresentNames(init) + [] == PresentNames(init);
      }
    }
  }

  // ---------------------------------------------------------------------------
  // Filtering and sorting
  // ---------------------------------------------------------------------------

  datatype SortOption = Newest | Oldest | Title

  /** `tags?.some(tag => tag.toLowerCase().includes(query))`. */
  predicate SomeTagContains(tags: Option<seq<string>>, query: string) {
    tags.Some? && exists i :: 0 <= i < |tags.value| && Contains(Lower(tags.value[i]), query)
  }

  /** The search test against an already lowered query. */
  predicate MatchesQuery(p: Post, query: string) {
    || Contains(Lower(p.title), query)
    || Contains(Lower(p.content), query)
    || Contains(Lower(p.author), query)
    || SomeTagContains(p.tags, query)
  }

  function Matches(query: string): Post -> bool {
    (p: Post) => MatchesQuery(p, query)
  }

  /** The posts the grid shows, in input order: the two filters of the effect. */
  function Shown(posts: seq<Post>, selectedCategory: string, searchQuery: string): seq<Post> {
    var byCategory := if selectedCategory != "all" then Filter(posts, InCategory(selectedCategory)) else posts;
    if Trim(searchQuery) != "" then Filter(byCategory, Matches(Lower(searchQuery))) else byCategory
  }

  /**
   * A post is shown exactly when it is in the input, has the selected category
   * name (unless 'all' is selected) and, for a query that is not blank, has the
   * lowered (untrimmed) query in its lowered title, content, author or a tag.
   */
  lemma ShownMembers(posts: seq<Post>, selectedCategory: string, searchQuery: string, p: Post)
    ensures p in Shown(posts, selectedCategory, searchQuery)
        <==> (&& p in posts
              && (selectedCategory != "all" ==> HasName(p, selectedCategory))
              && (Trim(searchQuery) != "" ==> MatchesQuery(p, Lower(searchQuery))))
  {
    var byCategory := if selectedCategory != "all" then Filter(posts, InCategory(selectedCategory)) else posts;
    if p in posts {
      var i :| 0 <= i < |posts| && posts[i] == p;
      if p in byCategory {
        var j :| 0 <= j < |byCategory| && byCategory[j] == p;
      }
    }
    if p in Shown(posts, selectedCategory, searchQuery) {
      var s := Shown(posts, selectedCategory, searchQuery);
      var k :| 0 <= k < |s| && s[k] == p;
      if p in byCategory {
        var j :| 0 <= j < |byCategory| && byCategory[j] == p;
      }
    }
  }

  /** Neither filter adds or duplicates a post: a post passing both is shown as often as it occurs. */
  lemma ShownSubMultiset(posts: seq<Post>, selectedCategory: string, searchQuery: string)
    ensures multiset(Shown(posts, selectedCategory, searchQuery)) <= multiset(posts)
    ensures forall p :: multiset(Shown(posts, selectedCategory, searchQuery))[p] ==
              if (selectedCategory != "all" ==> HasName(p, selectedCategory))
                 && (Trim(searchQuery) != "" ==> MatchesQuery(p, Lower(searchQuery)))
              then multiset(posts)[p] else 0
  {
    var byCategory := if selectedCategory != "all" then Filter(posts, InCategory(selectedCategory)) else posts;
    FilterSubMultiset(posts, InCategory(selectedCategory));
    FilterSubMultiset(byCategory, Matches(Lower(searchQuery)));
    forall p
      ensures multiset(Shown(posts, selectedCategory, searchQuery))[p] ==
              if (selectedCategory != "all" ==> HasName(p, selectedCategory))
                 && (Trim(searchQuery) != "" ==> MatchesQuery(p, Lower(searchQuery)))
              then multiset(posts)[p] else 0
    {
      FilterCount(posts, InCategory(selectedCategory), p);
      FilterCount(byCategory, Matches(Lower(searchQuery)), p);
    }
  }

  /** The filters keep the order of the list: two lists one after the other show the posts of each in turn. */
  lemma ShownOrder(a: seq<Post>, b: seq<Post>, selectedCategory: string, searchQuery: string)
    ensures Shown(a + b, selectedCategory, searchQuery)
         == Shown(a, selectedCategory, searchQuery) + Shown(b, selectedCategory, searchQuery)
  {
    var query := Matches(Lower(searchQuery));
    FilterConcat(a, b, InCategory(selectedCategory));
    var ca := if selectedCategory != "all" then Filter(a, InCategory(selectedCategory)) else a;
    var cb := if selectedCategory != "all" then Filter(b, InCategory(selectedCategory)) else b;
    FilterConcat(ca, cb, query);
  }

  /** With an empty search, 'all' shows every post and a category button shows as many posts as its count. */
  lemma ShownButtonCounts(posts: seq<Post>, name: string)
    ensures Shown(posts, "all", "") == posts
    ensures name != "all" ==> |Shown(posts, name, "")| == ButtonCount(posts, name)
  {
    assert Trim("") == "";
  }

  function OldestKey(p: Post): int {
    -p.createdAt
  }

  /**
   * The sort key; `localeCompare(…, 'zh-CN')` is taken as the order of the
   * given `titleRank` on titles, so the title sort ascends by rank.
   */
  function SortKey(sortBy: SortOption, titleRank: string -> int): Post -> int {
    match sortBy
    case Newest => CreatedAt
    case Oldest => OldestKey
    case Title => (p: Post) => -titleRank(p.title)
  }

  /**
   * The effect body: copy the posts, narrow them by category and by query,
   * then sort the copy in place with the chosen comparator.
   */
  method ApplyFilters(posts: seq<Post>, selectedCategory: string, searchQuery: string,
                      sortBy: SortOption, titleRank: string -> int)
    returns (filtered: seq<Post>)
    ensures multiset(filtered) == multiset(Shown(posts, selectedCategory, searchQuery))
    ensures multiset(filtered) <= multiset(posts)
    ensures sortBy == Newest ==> forall i, j :: 0 <= i < j < |filtered| ==> filtered[i].createdAt >= filtered[j].createdAt
    ensures sortBy == Oldest ==> forall i, j :: 0 <= i < j < |filtered| ==> filtered[i].createdAt <= filtered[j].createdAt
    ensures sortBy == Title ==> forall i, j :: 0 <= i < j < |filtered| ==> titleRank(filtered[i].title) <= titleRank(filtered[j].title)
    ensures forall v :: KeyClass(filtered, SortKey(sortBy, titleRank), v)
                     == KeyClass(Shown(posts, selectedCategory, searchQuery), SortKey(sortBy, titleRank), v)
  {
    filtered := posts;
    if selectedCategory != "all" {
      filtered := Filter(filtered, InCategory(selectedCategory));
    }
    if Trim(searchQuery) != "" {
      var query := Lower(searchQuery);
      filtered := Filter(filtered, Matches(query));
    }
    assert filtered == Shown(posts, selectedCategory, searchQuery);
    var shown := filtered;
    assert multiset(shown) <= multiset(posts) by {
      ShownSubMultiset(posts, selectedCategory, searchQuery);
    }
    var key := SortKey(sortBy, titleRank);
    filtered := SortDesc(shown, key);
    SortedBy(filtered, sortBy, titleRank);
    forall v
      ensures KeyClass(filtered, key, v) == KeyClass(shown, key, v)
    {
      SortDescStable(shown, key, v);
    }
  }

  /** A list in non-increasing order of the sort key is in the order the selector names. */
  lemma SortedBy(s: seq<Post>, sortBy: SortOption, titleRank: string -> int)
    requires NonIncreasing(s, SortKey(sortBy, titleRank))
    ensures sortBy == Newest ==> forall i, j :: 0 <= i < j < |s| ==> s[i].createdAt >= s[j].createdAt
    ensures sortBy == Oldest ==> forall i, j :: 0 <= i < j < |s| ==> s[i].createdAt <= s[j].createdAt
    ensures sortBy == Title ==> forall i, j :: 0 <= i < j < |s| ==> titleRank(s[i].title) <= titleRank(s[j].title)
  {
  }
}
