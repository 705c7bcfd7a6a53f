/**
 * The statistics of `lib/summarization.ts`: a keyword summary built from the
 * posts fetched for a keyword, made of the category distribution, the tag
 * frequencies, the most active authors, content insights and the time range.
 * The fetched rows are the input; the current time `now` and the emoji test
 * are parameters.
 */
module Summarization {
  import opened Wrappers
  import opened Text
  import opened Collections
  import opened Sorting
  import opened Tally
  import opened Posts

  // ---------------------------------------------------------------------------
  // extractTopKeywords
  // ---------------------------------------------------------------------------

  /** `extractTopKeywords(posts, limit)`: the tags with the most occurrences, at most `limit` of them. */
  function TopKeywords(posts: seq<Post>, limit: nat): seq<string> {
    Keys(TopEntries(AllTags(posts), limit))
  }

  /** The counting loop over every tag of every post, the sort by count and the slice. */
  method ExtractTopKeywords(posts: seq<Post>, limit: nat) returns (r: seq<string>)
    ensures r == TopKeywords(posts, limit)
  {
    var entries := CountKeys(AllTags(posts));
    var sorted := SortDesc(entries, EntryCount);
    r := Keys(Take(sorted, limit));
  }

  /**
   * The `limit` most frequent tags, or all tags when there are fewer: each a
   * tag of some post and listed once, in non-increasing order of occurrences,
   * and no tag left out occurring more often than a tag listed.
   */
  lemma TopKeywordsFacts(posts: seq<Post>, limit: nat)
    ensures |TopKeywords(posts, limit)| ==
              if limit < |Distinct(AllTags(posts))| then limit else |Distinct(AllTags(posts))|
    ensures forall t, u :: t in AllTags(posts) && t !in TopKeywords(posts, limit) && u in TopKeywords(posts, limit) ==>
              Count(AllTags(posts), t) <= Count(AllTags(posts), u)
    ensures NoDups(TopKeywords(posts, limit))
    ensures forall t :: t in TopKeywords(posts, limit) ==> exists i :: 0 <= i < |posts| && t in TagsOf(posts[i])
    ensures forall i, j :: 0 <= i < j < |TopKeywords(posts, limit)| ==>
              Count(AllTags(posts), TopKeywords(posts, limit)[i]) >= Count(AllTags(posts), TopKeywords(posts, limit)[j])
    ensures |Distinct(AllTags(posts))| <= limit ==>
              forall t :: t in AllTags(posts) ==> t in TopKeywords(posts, limit)
  {
    var ks := AllTags(posts);
    var top := TopEntries(ks, limit);
    var r := TopKeywords(posts, limit);
    TopKeysFacts(ks, limit);
    forall t | t in r
      ensures exists i :: 0 <= i < |posts| && t in TagsOf(posts[i])
    {
      TopEntriesKeys(ks, limit, t);
      AllTagsMembers(posts, t);
    }
    forall t | t in ks && |Distinct(ks)| <= limit
      ensures t in r
    {
      TopEntriesKeys(ks, limit, t);
    }
  }

  // ---------------------------------------------------------------------------
  // analyzeCategoryDistribution
  // ---------------------------------------------------------------------------

  /** An entry of `categoryMap`: the id and name of the first post seen under the id, and the posts pushed. */
  datatype CategoryBucket = CategoryBucket(categoryId: Option<string>, categoryName: string, posts: seq<Post>)

  function CategoryIdOf(p: Post): Option<string> {
    p.categoryId
  }

  function OpenCategory(p: Post): CategoryBucket {
    CategoryBucket(p.categoryId, Label(p), [])
  }

  function PushPost(b: CategoryBucket, p: Post): CategoryBucket {
    b.(posts := b.posts + [p])
  }

  /** An entry holds the id and name of its first post and all its posts in order. */
  lemma {:induction false} CategoryBucketFold(ms: seq<Post>)
    requires |ms| > 0
    ensures Fold(ms, OpenCategory, PushPost) == CategoryBucket(ms[0].categoryId, Label(ms[0]), ms)
  {
    if |ms| > 1 {
      var init := ms[..|ms| - 1];
      CategoryBucketFold(init);
      assert init + [ms[|ms| - 1]] == ms;
    }
  }

  datatype CategorySummary = CategorySummary(
    categoryId: Option<string>,
    categoryName: string,
    postCount: nat,
    percentage: nat,
    topKeywords: seq<string>,
    samplePosts: seq<SamplePost>)

  function PostCount(c: CategorySummary): int {
    c.postCount
  }

  function SummarizeCategory(b: CategoryBucket, total: nat): CategorySummary
    requires total > 0
  {
    CategorySummary(b.categoryId, b.categoryName, |b.posts|, Percentage(|b.posts|, total),
                    TopKeywords(b.posts, 5), Samples(b.posts, 3))
  }

  function CategorySlots(posts: seq<Post>): seq<Slot<Option<string>, CategoryBucket>> {
    Accumulated(posts, CategoryIdOf, OpenCategory, PushPost)
  }

  /** The summaries in the order `categoryMap.forEach` visits them. */
  function CategorySummaries(posts: seq<Post>): (r: seq<CategorySummary>)
    ensures |r| == |CategorySlots(posts)|
  {
    var slots := CategorySlots(posts);
    seq(|slots|, i requires 0 <= i < |slots| => SummarizeCategory(slots[i].value, |posts|))
  }

  /** `analyzeCategoryDistribution(posts)`. */
  function CategoryDistribution(posts: seq<Post>): seq<CategorySummary> {
    SortDesc(CategorySummaries(posts), PostCount)
  }

  /** The grouping loop, the summary loop over the map and the sort by `postCount`. */
  method AnalyzeCategoryDistribution(posts: seq<Post>) returns (r: seq<CategorySummary>)
    ensures r == CategoryDistribution(posts)
  {
    var slots := AccumulateBy(posts, CategoryIdOf, OpenCategory, PushPost);
    var totalPosts := |posts|;
    var categories: seq<CategorySummary> := [];
    for i := 0 to |slots|
      invariant categories == CategorySummaries(posts)[..i]
    {
      var bucket := slots[i].value;
      var topKeywords := ExtractTopKeywords(bucket.posts, 5);
      var summary := CategorySummary(bucket.categoryId, bucket.categoryName, |bucket.posts|,
                                     Percentage(|bucket.posts|, totalPosts), topKeywords, Samples(bucket.posts, 3));
      PrefixSnoc(CategorySummaries(posts), i);
      categories := categories + [summary];
    }
    assert categories == CategorySummaries(posts);
    r := SortDesc(categories, PostCount);
  }

  /** The `i`-th summary before sorting describes the `i`-th distinct category id, in order of first appearance. */
  lemma CategorySummaryAt(posts: seq<Post>, i: nat)
    requires i < |CategorySummaries(posts)|
    ensures var id := Distinct(KeysOf(posts, CategoryIdOf))[i];
      var members := Members(posts, CategoryIdOf, id);
      |members| > 0 &&
      CategorySummaries(posts)[i] == CategorySummary(id, Label(members[0]), |members|,
        Percentage(|members|, |posts|), TopKeywords(members, 5), Samples(members, 3))
  {
    var id := Distinct(KeysOf(posts, CategoryIdOf))[i];
    var members := Members(posts, CategoryIdOf, id);
    SlotAt(posts, CategoryIdOf, OpenCategory, PushPost, i);
    CategoryBucketFold(members);
    MembersHead(posts, CategoryIdOf, id);
    SummaryOfSlot(posts, i);
  }

  lemma SummaryOfSlot(posts: seq<Post>, i: nat)
    requires i < |CategorySummaries(posts)|
    ensures |posts| > 0
    ensures CategorySummaries(posts)[i] == SummarizeCategory(CategorySlots(posts)[i].value, |posts|)
  {
  }

  /**
   * One summary per distinct category id, in any order; each carries the
   * name of the first post with that id, the number of its posts, the
   * rounded percentage, its five top tags and its first three posts.
   */
  lemma CategoryDistributionEntries(posts: seq<Post>, n: nat)
    requires n < |CategoryDistribution(posts)|
    ensures var c := CategoryDistribution(posts)[n];
      && |posts| > 0
      && c.postCount == Count(KeysOf(posts, CategoryIdOf), c.categoryId) > 0
      && c.percentage == Percentage(c.postCount, |posts|) <= 100
      && c.samplePosts == Samples(Members(posts, CategoryIdOf, c.categoryId), 3)
      && c.topKeywords == TopKeywords(Members(posts, CategoryIdOf, c.categoryId), 5)
      && exists k :: 0 <= k < |posts| && posts[k].categoryId == c.categoryId && c.categoryName == Label(posts[k])
                     && forall j :: 0 <= j < k ==> posts[j].categoryId != c.categoryId
  {
    var summaries := CategorySummaries(posts);
    var c := CategoryDistribution(posts)[n];
    SortDescMembers(summaries, PostCount, c);
    var i :| 0 <= i < |summaries| && summaries[i] == c;
    CategorySummaryEntry(posts, i);
  }

  lemma CategorySummaryEntry(posts: seq<Post>, i: nat)
    requires i < |CategorySummaries(posts)|
    ensures var c := CategorySummaries(posts)[i];
      && |posts| > 0
      && c.postCount == Count(KeysOf(posts, CategoryIdOf), c.categoryId) > 0
      && c.percentage == Percentage(c.postCount, |posts|) <= 100
      && c.samplePosts == Samples(Members(posts, CategoryIdOf, c.categoryId), 3)
      && c.topKeywords == TopKeywords(Members(posts, CategoryIdOf, c.categoryId), 5)
      && exists k :: 0 <= k < |posts| && posts[k].categoryId == c.categoryId && c.categoryName == Label(posts[k])
                     && forall j :: 0 <= j < k ==> posts[j].categoryId != c.categoryId
  {
    CategorySummaryAt(posts, i);
    var id := Distinct(KeysOf(posts, CategoryIdOf))[i];
    MembersHead(posts, CategoryIdOf, id);
  }

  /** The post counts add up to the number of posts, are sorted, and no category id appears twice. */
  lemma CategoryDistributionTotals(posts: seq<Post>)
    ensures SumBy(CategoryDistribution(posts), PostCount) == |posts|
    ensures NonIncreasing(CategoryDistribution(posts), PostCount)
    ensures |CategoryDistribution(posts)| == |Distinct(KeysOf(posts, CategoryIdOf))|
  {
    var summaries := CategorySummaries(posts);
    forall i | 0 <= i < |summaries|
      ensures PostCount(summaries[i]) == |Members(posts, CategoryIdOf, Distinct(KeysOf(posts, CategoryIdOf))[i])|
    {
      CategorySummaryAt(posts, i);
    }
    GroupSizesSum(posts, CategoryIdOf, summaries, PostCount);
    SortDescSum(summaries, PostCount, PostCount);
  }

  // ---------------------------------------------------------------------------
  // analyzeKeywordFrequency
  // ---------------------------------------------------------------------------

  /** One visit of the inner `tags.forEach`: a tag together with the post carrying it. */
  datatype TagUse = TagUse(tag: string, post: Post)

  function UseTag(u: TagUse): string {
    u.tag
  }

  function UsesOf(p: Post): (r: seq<TagUse>)
    ensures |r| == |TagsOf(p)|
    ensures forall j :: 0 <= j < |r| ==> r[j] == TagUse(TagsOf(p)[j], p)
  {
    seq(|TagsOf(p)|, j requires 0 <= j < |TagsOf(p)| => TagUse(TagsOf(p)[j], p))
  }

  /** Every tag of every post with its post, in the order the nested `forEach` loops visit them. */
  function Uses(posts: seq<Post>): seq<TagUse> {
    if posts == [] then [] else Uses(posts[..|posts| - 1]) + UsesOf(posts[|posts| - 1])
  }

  lemma {:induction false} UsesTags(posts: seq<Post>)
    ensures KeysOf(Uses(posts), UseTag) == AllTags(posts)
  {
    if posts != [] {
      var init := posts[..|posts| - 1];
      UsesTags(init);
      var last := UsesOf(posts[|posts| - 1]);
      assert KeysOf(Uses(init) + last, UseTag) == KeysOf(Uses(init), UseTag) + KeysOf(last, UseTag);
    }
  }

  /** A visit happens exactly for each tag of each post. */
  lemma {:induction false} UsesMembers(posts: seq<Post>, u: TagUse)
    ensures u in Uses(posts) <==> exists i :: 0 <= i < |posts| && u.post == posts[i] && u.tag in TagsOf(posts[i])
  {
    if posts != [] {
      var init := posts[..|posts| - 1];
      var last := posts[|posts| - 1];
      UsesMembers(init, u);
      UsesOfMembers(last, u);
      assert posts == init + [last];
      if exists i :: 0 <= i < |posts| && u.post == posts[i] && u.tag in TagsOf(posts[i]) {
        var i :| 0 <= i < |posts| && u.post == posts[i] && u.tag in TagsOf(posts[i]);
        if i < |init| {
          assert init[i] == posts[i];
        }
      }
      if u in Uses(init) {
        var i :| 0 <= i < |init| && u.post == init[i] && u.tag in TagsOf(init[i]);
        assert posts[i] == init[i];
      }
    }
  }

  /** The visits of one post are its tags, each with that post. */
  lemma UsesOfMembers(p: Post, u: TagUse)
    ensures u in UsesOf(p) <==> u.post == p && u.tag in TagsOf(p)
  {
    if u in UsesOf(p) {
      var j :| 0 <= j < |UsesOf(p)| && UsesOf(p)[j] == u;
      assert u.tag == TagsOf(p)[j];
    }
    if u.post == p && u.tag in TagsOf(p) {
      var j :| 0 <= j < |TagsOf(p)| && TagsOf(p)[j] == u.tag;
      assert UsesOf(p)[j] == u;
    }
  }

  /** An entry of `keywordMap`. */
  datatype KeywordAcc = KeywordAcc(frequency: nat, categories: seq<string>, lastUsed: int)

  function OpenKeyword(u: TagUse): KeywordAcc {
    KeywordAcc(0, [], u.post.createdAt)
  }

  /** `entry.frequency++`, `entry.categories.add(categoryName)` and the `lastUsed` update. */
  function RecordUse(a: KeywordAcc, u: TagUse): KeywordAcc {
    KeywordAcc(a.frequency + 1, Add(a.categories, Label(u.post)),
               if u.post.createdAt > a.lastUsed then u.post.createdAt else a.lastUsed)
  }

  function UseLabels(us: seq<TagUse>): (r: seq<string>)
    ensures |r| == |us|
    ensures forall i :: 0 <= i < |us| ==> r[i] == Label(us[i].post)
  {
    seq(|us|, i requires 0 <= i < |us| => Label(us[i].post))
  }

  function UseDates(us: seq<TagUse>): (r: seq<int>)
    ensures |r| == |us|
    ensures forall i :: 0 <= i < |us| ==> r[i] == us[i].post.createdAt
  {
    seq(|us|, i requires 0 <= i < |us| => us[i].post.createdAt)
  }

  lemma UseListsSnoc(us: seq<TagUse>, x: TagUse)
    ensures UseLabels(us + [x]) == UseLabels(us) + [Label(x.post)]
    ensures UseDates(us + [x]) == UseDates(us) + [x.post.createdAt]
  {
    assert UseLabels(us + [x]) == UseLabels(us) + [Label(x.post)] by {
      forall i | 0 <= i < |us|
        ensures UseLabels(us + [x])[i] == UseLabels(us)[i]
      {
        assert (us + [x])[i] == us[i];
      }
    }
    assert UseDates(us + [x]) == UseDates(us) + [x.post.createdAt] by {
      forall i | 0 <= i < |us|
        ensures UseDates(us + [x])[i] == UseDates(us)[i]
      {
        assert (us + [x])[i] == us[i];
      }
    }
  }

  /** After the visits `ms` of one tag, the entry counts them, holds their distinct labels and the latest date. */
  lemma {:induction false} KeywordAccFold(ms: seq<TagUse>)
    requires |ms| > 0
    ensures Fold(ms, OpenKeyword, RecordUse) == KeywordAcc(|ms|, Distinct(UseLabels(ms)), MaxOf(UseDates(ms)))
  {
    if |ms| == 1 {
      RecordUseFirst(ms);
    } else {
      var init := ms[..|ms| - 1];
      KeywordAccFold(init);
      RecordUseStep(ms);
    }
  }

  /** The first visit opens the entry and records itself. */
  lemma RecordUseFirst(ms: seq<TagUse>)
    requires |ms| == 1
    ensures RecordUse(OpenKeyword(ms[0]), ms[0]) == KeywordAcc(1, Distinct(UseLabels(ms)), MaxOf(UseDates(ms)))
  {
    var x := ms[0];
    assert UseLabels(ms) == [] + [Label(x.post)];
    DistinctSnoc([], Label(x.post));
    assert UseDates(ms) == [x.post.createdAt];
  }

  /** Recording one more visit extends the count, the labels and the latest date. */
  lemma RecordUseStep(ms: seq<TagUse>)
    requires |ms| > 1
    ensures var init := ms[..|ms| - 1];
      RecordUse(KeywordAcc(|init|, Distinct(UseLabels(init)), MaxOf(UseDates(init))), ms[|ms| - 1])
      == KeywordAcc(|ms|, Distinct(UseLabels(ms)), MaxOf(UseDates(ms)))
  {
    var init := ms[..|ms| - 1];
    var x := ms[|ms| - 1];
    assert ms == init + [x];
    UseListsSnoc(init, x);
    DistinctSnoc(UseLabels(init), Label(x.post));
    MaxOfSnoc(UseDates(init), x.post.createdAt);
  }

  datatype KeywordSummary = KeywordSummary(keyword: string, frequency: nat, categories: seq<string>, recentUsage: int)

  function Frequency(k: KeywordSummary): int {
    k.frequency
  }

  function KeywordSlots(posts: seq<Post>): seq<Slot<string, KeywordAcc>> {
    Accumulated(Uses(posts), UseTag, OpenKeyword, RecordUse)
  }

  function ToKeywordSummary(s: Slot<string, KeywordAcc>): KeywordSummary {
    KeywordSummary(s.key, s.value.frequency, s.value.categories, s.value.lastUsed)
  }

  /** `Array.from(keywordMap.entries()).map(...)`, in insertion order. */
  function KeywordSummaries(posts: seq<Post>): (r: seq<KeywordSummary>)
    ensures |r| == |KeywordSlots(posts)|
  {
    var slots := KeywordSlots(posts);
    seq(|slots|, i requires 0 <= i < |slots| => ToKeywordSummary(slots[i]))
  }

  /** `analyzeKeywordFrequency(posts)`: the 20 most frequent tags. */
  function KeywordFrequency(posts: seq<Post>): seq<KeywordSummary> {
    Take(SortDesc(KeywordSummaries(posts), Frequency), 20)
  }

  /** The nested loops over posts and their tags updating `keywordMap`, then the sort and the slice. */
  method AnalyzeKeywordFrequency(posts: seq<Post>) returns (r: seq<KeywordSummary>)
    ensures r == KeywordFrequency(posts)
  {
    var slots := AccumulateBy(Uses(posts), UseTag, OpenKeyword, RecordUse);
    var keywords := seq(|slots|, i requires 0 <= i < |slots| => ToKeywordSummary(slots[i]));
    r := Take(SortDesc(keywords, Frequency), 20);
  }

  /** The `i`-th entry before sorting: a tag, its number of occurrences, its distinct labels and its latest date. */
  lemma KeywordSummaryAt(posts: seq<Post>, i: nat)
    requires i < |KeywordSummaries(posts)|
    ensures var e := KeywordSummaries(posts)[i];
      var ms := Members(Uses(posts), UseTag, e.keyword);
      && e.keyword == Distinct(KeysOf(Uses(posts), UseTag))[i]
      && |ms| > 0
      && e.frequency == |ms| == Count(AllTags(posts), e.keyword)
      && e.categories == Distinct(UseLabels(ms))
      && e.recentUsage == MaxOf(UseDates(ms))
  {
    var us := Uses(posts);
    UsesTags(posts);
    var k := Distinct(KeysOf(us, UseTag))[i];
    MembersOfDistinct(us, UseTag, k);
    var ms := Members(us, UseTag, k);
    assert KeywordSlots(posts)[i] == Slot(k, Fold(ms, OpenKeyword, RecordUse));
    KeywordAccFold(ms);
  }

  /** A tag's `categories` are exactly the labels of the posts carrying it, each once. */
  lemma KeywordCategories(posts: seq<Post>, i: nat)
    requires i < |KeywordSummaries(posts)|
    ensures var e := KeywordSummaries(posts)[i];
      && NoDups(e.categories)
      && forall c :: c in e.categories <==> exists j :: 0 <= j < |posts| && e.keyword in TagsOf(posts[j]) && Label(posts[j]) == c
  {
    var e := KeywordSummaries(posts)[i];
    KeywordSummaryAt(posts, i);
    forall c
      ensures c in e.categories <==> exists j :: 0 <= j < |posts| && e.keyword in TagsOf(posts[j]) && Label(posts[j]) == c
    {
      KeywordCategory(posts, i, c);
    }
  }

  lemma KeywordCategory(posts: seq<Post>, i: nat, c: string)
    requires i < |KeywordSummaries(posts)|
    ensures var e := KeywordSummaries(posts)[i];
      c in e.categories <==> exists j :: 0 <= j < |posts| && e.keyword in TagsOf(posts[j]) && Label(posts[j]) == c
  {
    var e := KeywordSummaries(posts)[i];
    if c in e.categories {
      KeywordCategoryHeld(posts, i, c);
    }
    if exists j :: 0 <= j < |posts| && e.keyword in TagsOf(posts[j]) && Label(posts[j]) == c {
      var j :| 0 <= j < |posts| && e.keyword in TagsOf(posts[j]) && Label(posts[j]) == c;
      KeywordCategoryReached(posts, i, j);
    }
  }

  lemma KeywordCategoryHeld(posts: seq<Post>, i: nat, c: string)
    requires i < |KeywordSummaries(posts)|
    requires c in KeywordSummaries(posts)[i].categories
    ensures exists j :: 0 <= j < |posts| && KeywordSummaries(posts)[i].keyword in TagsOf(posts[j]) && Label(posts[j]) == c
  {
    var e := KeywordSummaries(posts)[i];
    var us := Uses(posts);
    var ms := Members(us, UseTag, e.keyword);
    KeywordSummaryAt(posts, i);
    MembersFacts(us, UseTag, e.keyword);
    var m :| 0 <= m < |ms| && UseLabels(ms)[m] == c;
    UsesMembers(posts, ms[m]);
  }

  lemma KeywordCategoryReached(posts: seq<Post>, i: nat, j: nat)
    requires i < |KeywordSummaries(posts)|
    requires j < |posts| && KeywordSummaries(posts)[i].keyword in TagsOf(posts[j])
    ensures Label(posts[j]) in KeywordSummaries(posts)[i].categories
  {
    var e := KeywordSummaries(posts)[i];
    var us := Uses(posts);
    var ms := Members(us, UseTag, e.keyword);
    KeywordSummaryAt(posts, i);
    UseInMembers(posts, j, e.keyword);
    var m :| 0 <= m < |ms| && ms[m] == TagUse(e.keyword, posts[j]);
    assert UseLabels(ms)[m] == Label(posts[j]);
  }

  /** A tag's `recentUsage` is the latest `created_at` among the posts carrying it. */
  lemma KeywordRecentUsage(posts: seq<Post>, i: nat)
    requires i < |KeywordSummaries(posts)|
    ensures var e := KeywordSummaries(posts)[i];
      && (forall j :: 0 <= j < |posts| && e.keyword in TagsOf(posts[j]) ==> posts[j].createdAt <= e.recentUsage)
      && (exists j :: 0 <= j < |posts| && e.keyword in TagsOf(posts[j]) && posts[j].createdAt == e.recentUsage)
  {
    var e := KeywordSummaries(posts)[i];
    KeywordSummaryAt(posts, i);
    LatestUse(posts, e.keyword);
  }

  /** The latest date among the visits of a used tag is the latest date of a post carrying it. */
  lemma LatestUse(posts: seq<Post>, t: string)
    requires |Members(Uses(posts), UseTag, t)| > 0
    ensures var d := MaxOf(UseDates(Members(Uses(posts), UseTag, t)));
      && (forall j :: 0 <= j < |posts| && t in TagsOf(posts[j]) ==> posts[j].createdAt <= d)
      && (exists j :: 0 <= j < |posts| && t in TagsOf(posts[j]) && posts[j].createdAt == d)
  {
    var us := Uses(posts);
    var ms := Members(us, UseTag, t);
    var d := MaxOf(UseDates(ms));
    MembersFacts(us, UseTag, t);
    forall j | 0 <= j < |posts| && t in TagsOf(posts[j])
      ensures posts[j].createdAt <= d
    {
      UseInMembers(posts, j, t);
      var m :| 0 <= m < |ms| && ms[m] == TagUse(t, posts[j]);
      assert UseDates(ms)[m] == posts[j].createdAt;
    }
    var m :| 0 <= m < |ms| && UseDates(ms)[m] == d;
    UsesMembers(posts, ms[m]);
  }

  /** The visit of a tag of `posts[j]` is among the members of that tag. */
  lemma UseInMembers(posts: seq<Post>, j: nat, t: string)
    requires j < |posts| && t in TagsOf(posts[j])
    ensures TagUse(t, posts[j]) in Members(Uses(posts), UseTag, t)
  {
    var us := Uses(posts);
    UsesMembers(posts, TagUse(t, posts[j]));
    var n :| 0 <= n < |us| && us[n] == TagUse(t, posts[j]);
    MembersContain(us, UseTag, n);
  }

  /**
   * The 20 most frequent tags, or all tags when there are fewer: each once, by
   * non-increasing frequency, and no tag left out more frequent than a tag
   * returned.
   */
  lemma KeywordFrequencyShape(posts: seq<Post>)
    ensures |KeywordFrequency(posts)| == if 20 < |Distinct(AllTags(posts))| then 20 else |Distinct(AllTags(posts))|
    ensures forall t :: t in AllTags(posts) && t !in KeysOf(KeywordFrequency(posts), KeywordOf) ==>
              forall e :: e in KeywordFrequency(posts) ==> Count(AllTags(posts), t) <= e.frequency
    ensures NonIncreasing(KeywordFrequency(posts), Frequency)
    ensures DistinctNames(KeywordFrequency(posts), KeywordOf)
  {
    var summaries := KeywordSummaries(posts);
    var top := KeywordFrequency(posts);
    assert top == Take(SortDesc(summaries, Frequency), 20);
    KeywordKeysDistinct(posts);
    SortedNamesDistinct(summaries, Frequency, KeywordOf, 20);
    TakeNonIncreasing(SortDesc(summaries, Frequency), Frequency, 20);
    KeywordFrequencySelect(posts);
  }

  lemma KeywordFrequencySelect(posts: seq<Post>)
    ensures |KeywordFrequency(posts)| == if 20 < |Distinct(AllTags(posts))| then 20 else |Distinct(AllTags(posts))|
    ensures forall t :: t in AllTags(posts) && t !in KeysOf(KeywordFrequency(posts), KeywordOf) ==>
              forall e :: e in KeywordFrequency(posts) ==> Count(AllTags(posts), t) <= e.frequency
  {
    UsesTags(posts);
    assert |KeywordSummaries(posts)| == |Distinct(AllTags(posts))|;
    forall t | t in AllTags(posts) && t !in KeysOf(KeywordFrequency(posts), KeywordOf)
      ensures forall e :: e in KeywordFrequency(posts) ==> Count(AllTags(posts), t) <= e.frequency
    {
      KeywordLeftOut(posts, t);
    }
  }

  /** A tag left out is no more frequent than any tag returned. */
  lemma KeywordLeftOut(posts: seq<Post>, t: string)
    requires t in AllTags(posts) && t !in KeysOf(KeywordFrequency(posts), KeywordOf)
    ensures forall e :: e in KeywordFrequency(posts) ==> Count(AllTags(posts), t) <= e.frequency
  {
    var summaries := KeywordSummaries(posts);
    var top := KeywordFrequency(posts);
    var d := Distinct(AllTags(posts));
    var j :| 0 <= j < |AllTags(posts)| && AllTags(posts)[j] == t;
    var i := IndexOf(d, t);
    KeywordSummaryCount(posts, i);
    assert summaries[i] !in top by {
      assert forall m :: 0 <= m < |top| ==> KeysOf(top, KeywordOf)[m] == top[m].keyword;
    }
    TakeSortDescTop(summaries, Frequency, 20, summaries[i]);
  }

  /** The `i`-th summary before sorting is the `i`-th distinct tag with its number of occurrences. */
  lemma KeywordSummaryCount(posts: seq<Post>, i: nat)
    requires i < |Distinct(AllTags(posts))|
    ensures i < |KeywordSummaries(posts)|
    ensures KeywordSummaries(posts)[i].keyword == Distinct(AllTags(posts))[i]
    ensures KeywordSummaries(posts)[i].frequency == Count(AllTags(posts), Distinct(AllTags(posts))[i])
  {
    UsesTags(posts);
    KeywordSummaryAt(posts, i);
  }

  function KeywordOf(k: KeywordSummary): string {
    k.keyword
  }

  lemma KeywordKeysDistinct(posts: seq<Post>)
    ensures DistinctNames(KeywordSummaries(posts), KeywordOf)
  {
    var summaries := KeywordSummaries(posts);
    forall i, j | 0 <= i < j < |summaries|
      ensures KeywordOf(summaries[i]) != KeywordOf(summaries[j])
    {
      KeywordSummaryAt(posts, i);
      KeywordSummaryAt(posts, j);
    }
  }

  /** Every returned entry is one of the summarised tags. */
  lemma KeywordFrequencyEntries(posts: seq<Post>, n: nat)
    requires n < |KeywordFrequency(posts)|
    ensures exists i :: 0 <= i < |KeywordSummaries(posts)| && KeywordFrequency(posts)[n] == KeywordSummaries(posts)[i]
  {
    var summaries := KeywordSummaries(posts);
    var sorted := SortDesc(summaries, Frequency);
    assert KeywordFrequency(posts)[n] == sorted[n];
    SortDescMembers(summaries, Frequency, sorted[n]);
  }

  // ---------------------------------------------------------------------------
  // analyzeAuthorStats
  // ---------------------------------------------------------------------------

  /** An entry of `authorMap`. */
  datatype AuthorAcc = AuthorAcc(postCount: nat, categories: seq<string>)

  function OpenAuthor(p: Post): AuthorAcc {
    AuthorAcc(0, [])
  }

  /** `entry.postCount++` and `entry.categories.add(categoryName)`. */
  function RecordPost(a: AuthorAcc, p: Post): AuthorAcc {
    AuthorAcc(a.postCount + 1, Add(a.categories, Label(p)))
  }

  /** After the posts `ms` of one author, the entry counts them and holds their distinct labels. */
  lemma {:induction false} AuthorAccFold(ms: seq<Post>)
    requires |ms| > 0
    ensures Fold(ms, OpenAuthor, RecordPost) == AuthorAcc(|ms|, Distinct(Labels(ms)))
  {
    if |ms| == 1 {
      RecordPostFirst(ms);
    } else {
      AuthorAccFold(ms[..|ms| - 1]);
      RecordPostStep(ms);
    }
  }

  lemma RecordPostFirst(ms: seq<Post>)
    requires |ms| == 1
    ensures RecordPost(OpenAuthor(ms[0]), ms[0]) == AuthorAcc(1, Distinct(Labels(ms)))
  {
    var x := ms[0];
    assert Labels(ms) == [] + [Label(x)];
    DistinctSnoc([], Label(x));
  }

  lemma RecordPostStep(ms: seq<Post>)
    requires |ms| > 1
    ensures var init := ms[..|ms| - 1];
      RecordPost(AuthorAcc(|init|, Distinct(Labels(init))), ms[|ms| - 1]) == AuthorAcc(|ms|, Distinct(Labels(ms)))
  {
    var init := ms[..|ms| - 1];
    var x := ms[|ms| - 1];
    assert ms == init + [x];
    LabelsSnoc(init, x);
    DistinctSnoc(Labels(init), Label(x));
  }

  datatype AuthorStats = AuthorStats(author: string, postCount: nat, categories: seq<string>, totalEngagement: nat)

  function AuthorPostCount(a: AuthorStats): int {
    a.postCount
  }

  function AuthorOf(a: AuthorStats): string {
    a.author
  }

  function AuthorSlots(posts: seq<Post>): seq<Slot<string, AuthorAcc>> {
    Accumulated(posts, Author, OpenAuthor, RecordPost)
  }

  function ToAuthorStats(s: Slot<string, AuthorAcc>): AuthorStats {
    AuthorStats(s.key, s.value.postCount, s.value.categories, s.value.postCount)
  }

  /** `Array.from(authorMap.entries()).map(...)`, in insertion order. */
  function AuthorSummaries(posts: seq<Post>): (r: seq<AuthorStats>)
    ensures |r| == |AuthorSlots(posts)|
  {
    var slots := AuthorSlots(posts);
    seq(|slots|, i requires 0 <= i < |slots| => ToAuthorStats(slots[i]))
  }

  /** `analyzeAuthorStats(posts)`: the ten authors with the most posts. */
  function AuthorStatsOf(posts: seq<Post>): seq<AuthorStats> {
    Take(SortDesc(AuthorSummaries(posts), AuthorPostCount), 10)
  }

  /** The loop over the posts updating `authorMap`, then the mapping, the sort and the slice. */
  method AnalyzeAuthorStats(posts: seq<Post>) returns (r: seq<AuthorStats>)
    ensures r == AuthorStatsOf(posts)
  {
    var slots := AccumulateBy(posts, Author, OpenAuthor, RecordPost);
    var stats := seq(|slots|, i requires 0 <= i < |slots| => ToAuthorStats(slots[i]));
    r := Take(SortDesc(stats, AuthorPostCount), 10);
  }

  /** The `i`-th entry before sorting: an author, the number of their posts and the distinct labels of those posts. */
  lemma AuthorSummaryAt(posts: seq<Post>, i: nat)
    requires i < |AuthorSummaries(posts)|
    ensures var a := AuthorSummaries(posts)[i];
      var ms := Members(posts, Author, a.author);
      && a.author == Distinct(KeysOf(posts, Author))[i]
      && |ms| > 0
      && a.postCount == a.totalEngagement == |ms| == Count(Authors(posts), a.author)
      && a.categories == Distinct(Labels(ms))
  {
    var k := Distinct(KeysOf(posts, Author))[i];
    MembersOfDistinct(posts, Author, k);
    var ms := Members(posts, Author, k);
    assert AuthorSlots(posts)[i] == Slot(k, Fold(ms, OpenAuthor, RecordPost));
    AuthorAccFold(ms);
    assert KeysOf(posts, Author) == Authors(posts);
  }

  /** An author's `categories` are the labels of their posts, each once. */
  lemma AuthorCategories(posts: seq<Post>, i: nat, c: string)
    requires i < |AuthorSummaries(posts)|
    ensures var a := AuthorSummaries(posts)[i];
      && NoDups(a.categories)
      && (c in a.categories <==> exists j :: 0 <= j < |posts| && posts[j].author == a.author && Label(posts[j]) == c)
  {
    var a := AuthorSummaries(posts)[i];
    AuthorSummaryAt(posts, i);
    var ls := Labels(Members(posts, Author, a.author));
    MemberLabels(posts, a.author, c);
    if c in a.categories {
      var m :| 0 <= m < |a.categories| && a.categories[m] == c;
      assert c in ls;
    }
    if c in ls {
      var m :| 0 <= m < |ls| && ls[m] == c;
      assert c in a.categories;
    }
  }

  /** A label occurs among an author's posts exactly when one of their posts carries it. */
  lemma MemberLabels(posts: seq<Post>, name: string, c: string)
    ensures c in Labels(Members(posts, Author, name))
            <==> exists j :: 0 <= j < |posts| && posts[j].author == name && Label(posts[j]) == c
  {
    var ms := Members(posts, Author, name);
    if c in Labels(ms) {
      MembersFacts(posts, Author, name);
      var m :| 0 <= m < |ms| && Labels(ms)[m] == c;
      var j :| 0 <= j < |posts| && posts[j] == ms[m];
    }
    if exists j :: 0 <= j < |posts| && posts[j].author == name && Label(posts[j]) == c {
      var j :| 0 <= j < |posts| && posts[j].author == name && Label(posts[j]) == c;
      MembersContain(posts, Author, j);
      var m :| 0 <= m < |ms| && ms[m] == posts[j];
      assert Labels(ms)[m] == c;
    }
  }

  lemma AuthorKeysDistinct(posts: seq<Post>)
    ensures DistinctNames(AuthorSummaries(posts), AuthorOf)
  {
    var summaries := AuthorSummaries(posts);
    forall i, j | 0 <= i < j < |summaries|
      ensures AuthorOf(summaries[i]) != AuthorOf(summaries[j])
    {
      AuthorSummaryAt(posts, i);
      AuthorSummaryAt(posts, j);
    }
  }

  /**
   * The ten authors with the most posts, or all authors when there are fewer:
   * each once, by non-increasing post count, no author left out with more
   * posts than an author returned, and the engagement equal to the post count.
   */
  lemma AuthorStatsShape(posts: seq<Post>)
    ensures |AuthorStatsOf(posts)| == if 10 < |Distinct(Authors(posts))| then 10 else |Distinct(Authors(posts))|
    ensures forall a :: a in Authors(posts) && a !in KeysOf(AuthorStatsOf(posts), AuthorOf) ==>
              forall e :: e in AuthorStatsOf(posts) ==> Count(Authors(posts), a) <= e.postCount
    ensures NonIncreasing(AuthorStatsOf(posts), AuthorPostCount)
    ensures DistinctNames(AuthorStatsOf(posts), AuthorOf)
    ensures forall n :: 0 <= n < |AuthorStatsOf(posts)| ==> AuthorStatsOf(posts)[n].totalEngagement == AuthorStatsOf(posts)[n].postCount
  {
    var summaries := AuthorSummaries(posts);
    var sorted := SortDesc(summaries, AuthorPostCount);
    var top := AuthorStatsOf(posts);
    assert top == Take(sorted, 10);
    AuthorKeysDistinct(posts);
    SortedNamesDistinct(summaries, AuthorPostCount, AuthorOf, 10);
    TakeNonIncreasing(sorted, AuthorPostCount, 10);
    AuthorStatsSelect(posts);
    forall n | 0 <= n < |top|
      ensures top[n].totalEngagement == top[n].postCount
    {
      assert top[n] == sorted[n];
      SortDescMembers(summaries, AuthorPostCount, sorted[n]);
      var i :| 0 <= i < |summaries| && summaries[i] == sorted[n];
      AuthorSummaryAt(posts, i);
    }
  }

  lemma AuthorStatsSelect(posts: seq<Post>)
    ensures |AuthorStatsOf(posts)| == if 10 < |Distinct(Authors(posts))| then 10 else |Distinct(Authors(posts))|
    ensures forall a :: a in Authors(posts) && a !in KeysOf(AuthorStatsOf(posts), AuthorOf) ==>
              forall e :: e in AuthorStatsOf(posts) ==> Count(Authors(posts), a) <= e.postCount
  {
    assert KeysOf(posts, Author) == Authors(posts);
    assert |AuthorSummaries(posts)| == |Distinct(Authors(posts))|;
    forall a | a in Authors(posts) && a !in KeysOf(AuthorStatsOf(posts), AuthorOf)
      ensures forall e :: e in AuthorStatsOf(posts) ==> Count(Authors(posts), a) <= e.postCount
    {
      AuthorLeftOut(posts, a);
    }
  }

  /** An author left out has no more posts than any author returned. */
  lemma AuthorLeftOut(posts: seq<Post>, a: string)
    requires a in Authors(posts) && a !in KeysOf(AuthorStatsOf(posts), AuthorOf)
    ensures forall e :: e in AuthorStatsOf(posts) ==> Count(Authors(posts), a) <= e.postCount
  {
    var summaries := AuthorSummaries(posts);
    var top := AuthorStatsOf(posts);
    var d := Distinct(Authors(posts));
    var j :| 0 <= j < |Authors(posts)| && Authors(posts)[j] == a;
    var i := IndexOf(d, a);
    AuthorSummaryCount(posts, i);
    assert summaries[i] !in top by {
      assert forall m :: 0 <= m < |top| ==> KeysOf(top, AuthorOf)[m] == top[m].author;
    }
    TakeSortDescTop(summaries, AuthorPostCount, 10, summaries[i]);
  }

  /** The `i`-th summary before sorting is the `i`-th distinct author with their number of posts. */
  lemma AuthorSummaryCount(posts: seq<Post>, i: nat)
    requires i < |Distinct(Authors(posts))|
    ensures i < |AuthorSummaries(posts)|
    ensures AuthorSummaries(posts)[i].author == Distinct(Authors(posts))[i]
    ensures AuthorSummaries(posts)[i].postCount == Count(Authors(posts), Distinct(Authors(posts))[i])
  {
    assert KeysOf(posts, Author) == Authors(posts);
    AuthorSummaryAt(posts, i);
  }

  /** Every returned author is an author of the posts, with the number of their posts. */
  lemma AuthorStatsEntries(posts: seq<Post>, n: nat)
    requires n < |AuthorStatsOf(posts)|
    ensures var a := AuthorStatsOf(posts)[n];
      a.postCount == Count(Authors(posts), a.author) > 0
  {
    var summaries := AuthorSummaries(posts);
    var sorted := SortDesc(summaries, AuthorPostCount);
    assert AuthorStatsOf(posts)[n] == sorted[n];
    SortDescMembers(summaries, AuthorPostCount, sorted[n]);
    var i :| 0 <= i < |summaries| && summaries[i] == sorted[n];
    AuthorSummaryAt(posts, i);
  }

  // ---------------------------------------------------------------------------
  // calculateTimeFrames
  // ---------------------------------------------------------------------------

  /** The buckets of `calculateTimeFrames`, in the order of the `timeFrames` record. */
  const FRAME_NAMES: seq<string> := ["最近24小时", "最近7天", "最近30天", "更早"]

  /** The bucket of a post: within 24 hours, else within 168, else within 720, else older. */
  function FrameOf(now: int, p: Post): (k: nat)
    ensures k < 4
  {
    if WithinHours(now, p.createdAt, 24) then 0
    else if WithinHours(now, p.createdAt, 168) then 1
    else if WithinHours(now, p.createdAt, 720) then 2
    else 3
  }

  /** The number of posts in bucket `k`. */
  function FrameCount(posts: seq<Post>, now: int, k: nat): nat {
    if posts == [] then 0
    else FrameCount(posts[..|posts| - 1], now, k) + (if FrameOf(now, posts[|posts| - 1]) == k then 1 else 0)
  }

  function FrameCounts(posts: seq<Post>, now: int): seq<nat> {
    [FrameCount(posts, now, 0), FrameCount(posts, now, 1), FrameCount(posts, now, 2), FrameCount(posts, now, 3)]
  }

  /** Every post is counted in exactly one bucket. */
  lemma {:induction false} FrameCountsSum(posts: seq<Post>, now: int)
    ensures FrameCount(posts, now, 0) + FrameCount(posts, now, 1) + FrameCount(posts, now, 2) + FrameCount(posts, now, 3) == |posts|
  {
    if posts != [] {
      FrameCountsSum(posts[..|posts| - 1], now);
    }
  }

  /** The positions below `m` that hold a positive count, in increasing order. */
  function ActiveBelow(counts: seq<nat>, m: nat): seq<int>
    requires m <= |counts|
  {
    if m == 0 then []
    else ActiveBelow(counts, m - 1) + (if counts[m - 1] > 0 then [m - 1] else [])
  }

  /** The positions of the non-empty buckets (`.filter(([, count]) => count > 0)`). */
  function ActiveFrames(counts: seq<nat>): seq<int> {
    ActiveBelow(counts, |counts|)
  }

  lemma {:induction false} ActiveBelowFacts(counts: seq<nat>, m: nat)
    requires m <= |counts|
    ensures |ActiveBelow(counts, m)| <= m
    ensures forall i :: 0 <= i < |ActiveBelow(counts, m)| ==> 0 <= ActiveBelow(counts, m)[i] < m
    ensures forall i, j :: 0 <= i < j < |ActiveBelow(counts, m)| ==> ActiveBelow(counts, m)[i] < ActiveBelow(counts, m)[j]
    ensures forall k :: 0 <= k < m ==> (k in ActiveBelow(counts, m) <==> counts[k] > 0)
  {
    if m > 0 {
      ActiveBelowFacts(counts, m - 1);
    }
  }

  /** The kept positions are in range and increasing, and they are exactly those with a positive count. */
  lemma ActiveFramesFacts(counts: seq<nat>)
    ensures |ActiveFrames(counts)| <= |counts|
    ensures forall i :: 0 <= i < |ActiveFrames(counts)| ==> 0 <= ActiveFrames(counts)[i] < |counts|
    ensures forall i, j :: 0 <= i < j < |ActiveFrames(counts)| ==> ActiveFrames(counts)[i] < ActiveFrames(counts)[j]
    ensures forall k :: 0 <= k < |counts| ==> (k in ActiveFrames(counts) <==> counts[k] > 0)
  {
    ActiveBelowFacts(counts, |counts|);
  }

  /** Dropping the empty buckets loses nothing from the total. */
  lemma {:induction false} ActiveTotal(counts: seq<nat>, m: nat)
    requires m <= |counts|
    ensures TotalAt(counts, ActiveBelow(counts, m)) == Total(counts[..m])
  {
    if m > 0 {
      ActiveTotal(counts, m - 1);
      TotalPrefix(counts, m);
      if counts[m - 1] > 0 {
        TotalAtSnoc(counts, ActiveBelow(counts, m - 1), m - 1);
      } else {
        assert ActiveBelow(counts, m) == ActiveBelow(counts, m - 1);
      }
    }
  }

  /** `${timeFrame}: ${count}篇`. */
  function FrameLine(k: nat, count: nat): string
    requires k < 4
  {
    FRAME_NAMES[k] + ": " + NatToString(count) + "篇"
  }

  function FrameLines(counts: seq<nat>): seq<string>
    requires |counts| == 4
  {
    var active := ActiveFrames(counts);
    ActiveFramesFacts(counts);
    seq(|active|, i requires 0 <= i < |active| => FrameLine(active[i], counts[active[i]]))
  }

  /** `calculateTimeFrames(posts)` at time `now`. */
  function TimeFrames(posts: seq<Post>, now: int): seq<string> {
    FrameLines(FrameCounts(posts, now))
  }

  /** The counting loop over the posts: one counter per bucket. */
  method CountFrames(posts: seq<Post>, now: int) returns (counts: seq<nat>)
    ensures counts == FrameCounts(posts, now)
  {
    var recent, week, month, older := 0, 0, 0, 0;
    for i := 0 to |posts|
      invariant recent == FrameCount(posts[..i], now, 0)
      invariant week == FrameCount(posts[..i], now, 1)
      invariant month == FrameCount(posts[..i], now, 2)
      invariant older == FrameCount(posts[..i], now, 3)
    {
      PrefixSnoc(posts, i);
      assert (posts[..i] + [posts[i]])[..i] == posts[..i];
      var created := posts[i].createdAt;
      if WithinHours(now, created, 24) {
        recent := recent + 1;
      } else if WithinHours(now, created, 168) {
        week := week + 1;
      } else if WithinHours(now, created, 720) {
        month := month + 1;
      } else {
        older := older + 1;
      }
    }
    assert posts[..|posts|] == posts;
    counts := [recent, week, month, older];
  }

  /** The counting loop, then the filter and the formatting. */
  method CalculateTimeFrames(posts: seq<Post>, now: int) returns (r: seq<string>)
    ensures r == TimeFrames(posts, now)
  {
    var counts := CountFrames(posts, now);
    r := FrameLines(counts);
  }

  /**
   * One line per non-empty bucket, in the fixed bucket order, each naming the
   * bucket and its count; the counts of all buckets add up to the number of posts.
   */
  lemma TimeFramesFacts(posts: seq<Post>, now: int)
    ensures var r := TimeFrames(posts, now);
      var active := ActiveFrames(FrameCounts(posts, now));
      && |r| == |active| <= 4
      && (forall i :: 0 <= i < |r| ==> 0 <= active[i] < 4 && FrameCount(posts, now, active[i]) > 0
                                       && r[i] == FrameLine(active[i], FrameCount(posts, now, active[i])))
      && (forall i, j :: 0 <= i < j < |active| ==> active[i] < active[j])
      && (forall k :: 0 <= k < 4 ==> (k in active <==> FrameCount(posts, now, k) > 0))
  {
    ActiveFramesFacts(FrameCounts(posts, now));
  }

  /** The counts of the reported buckets add up to the number of posts. */
  lemma FrameCountsTotal(posts: seq<Post>, now: int)
    ensures TotalAt(FrameCounts(posts, now), ActiveFrames(FrameCounts(posts, now))) == |posts|
  {
    var counts := FrameCounts(posts, now);
    ActiveTotal(counts, 4);
    FrameCountsSum(posts, now);
    TotalPrefix(counts, 4);
    TotalPrefix(counts, 3);
    TotalPrefix(counts, 2);
    TotalPrefix(counts, 1);
    assert counts[..0] == [];
  }

  // ---------------------------------------------------------------------------
  // calculateTimeRange
  // ---------------------------------------------------------------------------

  datatype TimeRange = TimeRange(earliest: int, latest: int)

  /** `calculateTimeRange(posts)`: the earliest and latest `created_at`; reached only with posts. */
  function CalculateTimeRange(posts: seq<Post>): (r: TimeRange)
    requires |posts| > 0
    ensures r.earliest <= r.latest
    ensures r.earliest in Dates(posts) && r.latest in Dates(posts)
    ensures forall i :: 0 <= i < |posts| ==> r.earliest <= posts[i].createdAt <= r.latest
  {
    var dates := Dates(posts);
    TimeRange(MinOf(dates), MaxOf(dates))
  }

  // ---------------------------------------------------------------------------
  // extractCommonPatterns
  // ---------------------------------------------------------------------------

  const PATTERN_NAMES: seq<string> := ["包含表情符号", "多图展示", "个人经验分享", "产品推荐", "教程指导"]

  /** `/我的|经验|分享|心得/`. */
  const EXPERIENCE_WORDS: seq<string> := ["我的", "经验", "分享", "心得"]
  /** `/推荐|好用|必买|种草/`. */
  const RECOMMENDATION_WORDS: seq<string> := ["推荐", "好用", "必买", "种草"]
  /** `/教程|步骤|方法|如何/`. */
  const TUTORIAL_WORDS: seq<string> := ["教程", "步骤", "方法", "如何"]

  /** `${post.title} ${post.content}`.toLowerCase(). */
  function InsightText(p: Post): string {
    Lower(p.title + " " + p.content)
  }

  /** A literal alternation without flags tests whether one of its words occurs. */
  predicate ContainsAny(text: string, words: seq<string>) {
    exists i :: 0 <= i < |words| && Contains(text, words[i])
  }

  /** The `switch` on the pattern name; `hasEmoji` is the emoji-range regex. */
  predicate Shows(name: string, p: Post, hasEmoji: string -> bool) {
    var text := InsightText(p);
    if name == PATTERN_NAMES[0] then hasEmoji(text)
    else if name == PATTERN_NAMES[1] then |p.images.GetOr([])| > 2
    else if name == PATTERN_NAMES[2] then ContainsAny(text, EXPERIENCE_WORDS)
    else if name == PATTERN_NAMES[3] then ContainsAny(text, RECOMMENDATION_WORDS)
    else if name == PATTERN_NAMES[4] then ContainsAny(text, TUTORIAL_WORDS)
    else false
  }

  /** `posts.some(...)`. */
  predicate AnyShows(name: string, posts: seq<Post>, hasEmoji: string -> bool) {
    exists i :: 0 <= i < |posts| && Shows(name, posts[i], hasEmoji)
  }

  function ShownIn(posts: seq<Post>, hasEmoji: string -> bool): string -> bool {
    name => AnyShows(name, posts, hasEmoji)
  }

  /** `extractCommonPatterns(posts)`. */
  function CommonPatterns(posts: seq<Post>, hasEmoji: string -> bool): seq<string> {
    Filter(PATTERN_NAMES, ShownIn(posts, hasEmoji))
  }

  /**
   * A pattern is reported exactly when some post shows it, at most once; no
   * posts report nothing.
   */
  lemma CommonPatternsFacts(posts: seq<Post>, hasEmoji: string -> bool)
    ensures |CommonPatterns(posts, hasEmoji)| <= 5
    ensures NoDups(CommonPatterns(posts, hasEmoji))
    ensures forall name :: name in CommonPatterns(posts, hasEmoji) <==> name in PATTERN_NAMES && AnyShows(name, posts, hasEmoji)
    ensures posts == [] ==> CommonPatterns(posts, hasEmoji) == []
  {
    var r := CommonPatterns(posts, hasEmoji);
    var shown := ShownIn(posts, hasEmoji);
    PatternNamesDistinct();
    FilterNoDups(PATTERN_NAMES, shown);
    forall name
      ensures name in r <==> name in PATTERN_NAMES && AnyShows(name, posts, hasEmoji)
    {
      if name in PATTERN_NAMES && shown(name) {
        var k :| 0 <= k < |PATTERN_NAMES| && PATTERN_NAMES[k] == name;
      }
      if name in r {
        var k :| 0 <= k < |r| && r[k] == name;
      }
    }
    if posts == [] {
      FilterExtremes(PATTERN_NAMES, shown);
    }
  }

  lemma PatternNamesDistinct()
    ensures NoDups(PATTERN_NAMES)
  {
  }

  // ---------------------------------------------------------------------------
  // generateContentInsights
  // ---------------------------------------------------------------------------

  datatype Trending = Trending(topics: seq<string>, authors: seq<string>, timeFrames: seq<string>)
  datatype Engagement = Engagement(highPerformance: seq<SamplePost>, patterns: seq<string>)
  datatype ContentInsights = ContentInsights(
    averageContentLength: nat,
    commonPatterns: seq<string>,
    trending: Trending,
    engagement: Engagement)

  /** The fixed engagement patterns. */
  const ENGAGEMENT_PATTERNS: seq<string> := ["内容丰富", "标题吸引", "标签完整"]

  /** `Math.round(totalLength / posts.length)`, where `totalLength` sums title and content lengths. */
  function AverageContentLength(posts: seq<Post>): nat
    requires |posts| > 0
  {
    RoundedMean(posts, TextLength)
  }

  /** The rounded average lies between the shortest and the longest text. */
  lemma AverageContentLengthBounds(posts: seq<Post>)
    requires |posts| > 0
    ensures MinOf(Measures(posts, TextLength)) <= AverageContentLength(posts) <= MaxOf(Measures(posts, TextLength))
  {
    RoundedMeanBounds(posts, TextLength);
  }

  /** `(title.length) + (content.length) + (tags.length) * 10`. */
  function PerformanceScore(p: Post): int {
    TextLength(p) + TagCount(p) * 10
  }

  /** The five posts with the highest score, highest first, ties in input order. */
  function HighPerformance(posts: seq<Post>): seq<SamplePost> {
    Samples(SortDesc(posts, PerformanceScore), 5)
  }

  /** The five most frequent authors (`authorMap` counters, sort by count, slice). */
  function TrendingAuthors(posts: seq<Post>): seq<string> {
    Keys(TopEntries(Authors(posts), 5))
  }

  /** `generateContentInsights(posts)` at time `now`; reached only with posts. */
  function ContentInsightsOf(posts: seq<Post>, now: int, hasEmoji: string -> bool): ContentInsights
    requires |posts| > 0
  {
    ContentInsights(
      AverageContentLength(posts),
      CommonPatterns(posts, hasEmoji),
      Trending(TopKeywords(posts, 10), TrendingAuthors(posts), TimeFrames(posts, now)),
      Engagement(HighPerformance(posts), ENGAGEMENT_PATTERNS))
  }

  /** The counting loops behind the topics, the authors and the time frames, and the pure projections. */
  method GenerateContentInsights(posts: seq<Post>, now: int, hasEmoji: string -> bool) returns (r: ContentInsights)
    requires |posts| > 0
    ensures r == ContentInsightsOf(posts, now, hasEmoji)
  {
    var topics := ExtractTopKeywords(posts, 10);
    var authorCounts := CountKeys(Authors(posts));
    var topAuthors := Keys(Take(SortDesc(authorCounts, EntryCount), 5));
    var timeFrames := CalculateTimeFrames(posts, now);
    r := ContentInsights(
      AverageContentLength(posts),
      CommonPatterns(posts, hasEmoji),
      Trending(topics, topAuthors, timeFrames),
      Engagement(HighPerformance(posts), ENGAGEMENT_PATTERNS));
  }

  /**
   * The five authors with the most posts, or all authors when there are
   * fewer: each an author of some post and listed once, by non-increasing post
   * count, and no author left out with more posts than an author listed.
   */
  lemma TrendingAuthorsFacts(posts: seq<Post>)
    ensures |TrendingAuthors(posts)| == if 5 < |Distinct(Authors(posts))| then 5 else |Distinct(Authors(posts))|
    ensures forall a, b :: a in Authors(posts) && a !in TrendingAuthors(posts) && b in TrendingAuthors(posts) ==>
              Count(Authors(posts), a) <= Count(Authors(posts), b)
    ensures NoDups(TrendingAuthors(posts))
    ensures forall a :: a in TrendingAuthors(posts) ==> exists i :: 0 <= i < |posts| && posts[i].author == a
    ensures forall i, j :: 0 <= i < j < |TrendingAuthors(posts)| ==>
              Count(Authors(posts), TrendingAuthors(posts)[i]) >= Count(Authors(posts), TrendingAuthors(posts)[j])
  {
    TopKeysFacts(Authors(posts), 5);
    TrendingAuthorsPosted(posts);
  }

  lemma TrendingAuthorsPosted(posts: seq<Post>)
    ensures forall a :: a in TrendingAuthors(posts) ==> exists i :: 0 <= i < |posts| && posts[i].author == a
  {
    var ks := Authors(posts);
    forall a | a in TrendingAuthors(posts)
      ensures exists i :: 0 <= i < |posts| && posts[i].author == a
    {
      TopEntriesKeys(ks, 5, a);
      var i :| 0 <= i < |ks| && ks[i] == a;
    }
  }

  /**
   * The five highest-scoring posts, or all posts when there are fewer,
   * projected in non-increasing order of score: no post left out scores
   * higher than a post shown, and the first is the first post with the
   * highest score.
   */
  lemma HighPerformanceFacts(posts: seq<Post>)
    ensures var top := Take(SortDesc(posts, PerformanceScore), 5);
      && |HighPerformance(posts)| == |top| == (if |posts| < 5 then |posts| else 5)
      && (forall p :: p in posts && p !in top ==> forall q :: q in top ==> PerformanceScore(p) <= PerformanceScore(q))
      && (forall i :: 0 <= i < |top| ==> top[i] in posts && HighPerformance(posts)[i] == ToSample(top[i]))
      && NonIncreasing(top, PerformanceScore)
      && (|posts| > 0 ==> HighPerformance(posts)[0] == ToSample(posts[FirstMaxIndex(posts, PerformanceScore)]))
  {
    var sorted := SortDesc(posts, PerformanceScore);
    var top := Take(sorted, 5);
    TakeNonIncreasing(sorted, PerformanceScore, 5);
    forall i | 0 <= i < |top|
      ensures top[i] in posts
    {
      assert top[i] == sorted[i];
      SortDescMembers(posts, PerformanceScore, sorted[i]);
    }
    forall p | p in posts && p !in top
      ensures forall q :: q in top ==> PerformanceScore(p) <= PerformanceScore(q)
    {
      TakeSortDescTop(posts, PerformanceScore, 5, p);
    }
    if |posts| > 0 {
      SortDescHead(posts, PerformanceScore);
    }
  }

  // ---------------------------------------------------------------------------
  // generateKeywordSummary and createEmptySummary
  // ---------------------------------------------------------------------------

  datatype PostSummary = PostSummary(
    totalPosts: nat,
    categories: seq<CategorySummary>,
    keywords: seq<KeywordSummary>,
    timeRange: TimeRange,
    authorStats: seq<AuthorStats>,
    contentInsights: ContentInsights)

  /** `createEmptySummary()`, with both ends of the time range at `now`. */
  function EmptySummary(now: int): PostSummary {
    PostSummary(0, [], [], TimeRange(now, now), [],
                ContentInsights(0, [], Trending([], [], []), Engagement([], [])))
  }

  /** The summary of the fetched `posts`: the empty summary when there are none. */
  function KeywordReport(posts: seq<Post>, now: int, hasEmoji: string -> bool): PostSummary {
    if |posts| == 0 then EmptySummary(now)
    else PostSummary(|posts|, CategoryDistribution(posts), KeywordFrequency(posts), CalculateTimeRange(posts),
                     AuthorStatsOf(posts), ContentInsightsOf(posts, now, hasEmoji))
  }

  /** `generateKeywordSummary` after the fetch. */
  method GenerateKeywordSummary(posts: seq<Post>, now: int, hasEmoji: string -> bool) returns (r: PostSummary)
    ensures r == KeywordReport(posts, now, hasEmoji)
  {
    if |posts| == 0 {
      return EmptySummary(now);
    }
    var categoryStats := AnalyzeCategoryDistribution(posts);
    var keywordStats := AnalyzeKeywordFrequency(posts);
    var authorStats := AnalyzeAuthorStats(posts);
    var contentInsights := GenerateContentInsights(posts, now, hasEmoji);
    var timeRange := CalculateTimeRange(posts);
    r := PostSummary(|posts|, categoryStats, keywordStats, timeRange, authorStats, contentInsights);
  }

  /**
   * The summary counts the posts; it has categories and authors exactly when
   * there are posts, and its category counts add up to the number of posts.
   */
  lemma KeywordReportFacts(posts: seq<Post>, now: int, hasEmoji: string -> bool)
    ensures var r := KeywordReport(posts, now, hasEmoji);
      && r.totalPosts == |posts|
      && (r.categories == [] <==> posts == [])
      && (r.authorStats == [] <==> posts == [])
      && SumBy(r.categories, PostCount) == |posts|
      && r.timeRange.earliest <= r.timeRange.latest
  {
    var r := KeywordReport(posts, now, hasEmoji);
    if posts != [] {
      CategoryDistributionTotals(posts);
      AccumulatedKeys(posts, CategoryIdOf, OpenCategory, PushPost);
      AccumulatedKeys(posts, Author, OpenAuthor, RecordPost);
      assert posts[0] in posts;
      assert CategoryIdOf(posts[0]) in SlotKeys(CategorySlots(posts));
      assert Author(posts[0]) in SlotKeys(AuthorSlots(posts));
    }
  }
}
