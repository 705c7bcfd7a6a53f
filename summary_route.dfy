/**
 * The statistics computed by `app/api/summary/route.ts` on the rows it
 * fetched: the per-category analysis, the nested trend segments, the helpers
 * of the custom summary and the custom summary itself. The rows, `now`, and
 * the local-time offset are inputs.
 */
module SummaryRoute {
  import opened Wrappers
  import opened Text
  import opened Collections
  import opened Sorting
  import opened Tally
  import opened Posts
  import opened Summarization

  // ---------------------------------------------------------------------------
  // The `categories` case: grouping by category name
  // ---------------------------------------------------------------------------

  /** A value of `categoryGroups`, with its `keywords` map held as its entries in insertion order. */
  datatype NameGroup = NameGroup(
    categoryId: Option<string>,
    categoryName: string,
    posts: seq<Post>,
    totalPosts: nat,
    authors: seq<string>,
    keywords: seq<Entry<string>>,
    earliest: Option<int>,
    latest: Option<int>)

  function OpenNameGroup(p: Post): NameGroup {
    NameGroup(p.categoryId, Label(p), [], 0, [], [], None, None)
  }

  /** `if (!earliest || postTime < earliest) earliest = created_at`. */
  function Earlier(e: Option<int>, t: int): Option<int> {
    if e.None? || t < e.value then Some(t) else e
  }

  /** `if (!latest || postTime > latest) latest = created_at`. */
  function Later(e: Option<int>, t: int): Option<int> {
    if e.None? || t > e.value then Some(t) else e
  }

  /** The body of the `forEach` for a post of the group. */
  function GroupPost(g: NameGroup, p: Post): NameGroup {
    NameGroup(g.categoryId, g.categoryName, g.posts + [p], g.totalPosts + 1, Add(g.authors, p.author),
              BumpAll(g.keywords, TagsOf(p)), Earlier(g.earliest, p.createdAt), Later(g.latest, p.createdAt))
  }

  /**
   * The group of the posts `ms` carrying one name: the id and name of the
   * first, all of them, their number, their distinct authors, the counts of
   * their tags, and their earliest and latest dates.
   */
  function GroupOf(ms: seq<Post>): NameGroup
    requires |ms| > 0
  {
    NameGroup(ms[0].categoryId, Label(ms[0]), ms, |ms|, Distinct(Authors(ms)), TallyOf(AllTags(ms)),
              Some(MinOf(Dates(ms))), Some(MaxOf(Dates(ms))))
  }

  /** After the posts `ms` carrying one name, the `Map` value is their group. */
  lemma {:induction false} NameGroupFold(ms: seq<Post>)
    requires |ms| > 0
    ensures Fold(ms, OpenNameGroup, GroupPost) == GroupOf(ms)
  {
    if |ms| == 1 {
      GroupPostFirst(ms);
    } else {
      NameGroupFold(ms[..|ms| - 1]);
      GroupPostStep(ms);
    }
  }

  lemma GroupPostFirst(ms: seq<Post>)
    requires |ms| == 1
    ensures GroupPost(OpenNameGroup(ms[0]), ms[0]) == GroupOf(ms)
  {
    var x := ms[0];
    var g := GroupPost(OpenNameGroup(x), x);
    assert ms == [] + [x];
    AuthorsSnoc([], x);
    DistinctSnoc([], x.author);
    assert g.authors == Distinct(Authors(ms));
    AllTagsSnoc([], x);
    BumpAllTally([], TagsOf(x));
    assert [] + TagsOf(x) == TagsOf(x);
    assert AllTags(ms) == TagsOf(x);
    assert g.keywords == TallyOf(AllTags(ms));
    DatesSnoc([], x);
    assert Dates(ms) == [x.createdAt];
    assert g.earliest == Some(MinOf(Dates(ms)));
    assert g.latest == Some(MaxOf(Dates(ms)));
    assert g.posts == ms;
  }

  lemma GroupPostStep(ms: seq<Post>)
    requires |ms| > 1
    ensures GroupPost(GroupOf(ms[..|ms| - 1]), ms[|ms| - 1]) == GroupOf(ms)
  {
    var init := ms[..|ms| - 1];
    var x := ms[|ms| - 1];
    assert ms == init + [x];
    var g := GroupPost(GroupOf(init), x);
    assert ms[0] == init[0];
    AuthorsSnoc(init, x);
    DistinctSnoc(Authors(init), x.author);
    assert g.authors == Distinct(Authors(ms));
    AllTagsSnoc(init, x);
    BumpAllTally(AllTags(init), TagsOf(x));
    assert g.keywords == TallyOf(AllTags(ms));
    DatesSnoc(init, x);
    MinOfSnoc(Dates(init), x.createdAt);
    MaxOfSnoc(Dates(init), x.createdAt);
    assert g.earliest == Some(MinOf(Dates(ms)));
    assert g.latest == Some(MaxOf(Dates(ms)));
  }

  /** The `{ id, title, author, createdAt }` projection of a sample post. */
  datatype BriefPost = BriefPost(id: string, title: string, author: string, createdAt: int)

  function Briefs(posts: seq<Post>): (r: seq<BriefPost>)
    ensures |r| == |posts|
    ensures forall i :: 0 <= i < |posts| ==> r[i] == BriefPost(posts[i].id, posts[i].title, posts[i].author, posts[i].createdAt)
  {
    seq(|posts|, i requires 0 <= i < |posts| => BriefPost(posts[i].id, posts[i].title, posts[i].author, posts[i].createdAt))
  }

  datatype CategoryAnalysis = CategoryAnalysis(
    categoryId: Option<string>,
    categoryName: string,
    totalPosts: nat,
    uniqueAuthors: nat,
    topAuthors: seq<string>,
    topKeywords: seq<Entry<string>>,
    earliest: Option<int>,
    latest: Option<int>,
    samplePosts: seq<BriefPost>,
    averageContentLength: nat)

  function TotalPosts(a: CategoryAnalysis): int {
    a.totalPosts
  }

  function AnalysisName(a: CategoryAnalysis): string {
    a.categoryName
  }

  /** `Math.round(sum / count)` of the text lengths; 0 for no posts, which a group never has. */
  function MeanTextLength(posts: seq<Post>): nat {
    if posts == [] then 0 else AverageContentLength(posts)
  }

  /** The mapping of a group to its response entry. */
  function Analyze(g: NameGroup): CategoryAnalysis {
    CategoryAnalysis(g.categoryId, g.categoryName, g.totalPosts, |g.authors|, Take(g.authors, 5),
                     Take(SortDesc(g.keywords, EntryCount), 10), g.earliest, g.latest,
                     Briefs(Take(g.posts, 3)), MeanTextLength(g.posts))
  }

  function NameGroups(posts: seq<Post>): seq<Slot<string, NameGroup>> {
    Accumulated(posts, Label, OpenNameGroup, GroupPost)
  }

  /** The entries in the order of `categoryGroups.values()`. */
  function CategoryAnalyses(posts: seq<Post>): (r: seq<CategoryAnalysis>)
    ensures |r| == |NameGroups(posts)|
  {
    var groups := NameGroups(posts);
    seq(|groups|, i requires 0 <= i < |groups| => Analyze(groups[i].value))
  }

  /** The `data` of the `categories` response: the entries by non-increasing `totalPosts`. */
  function CategoryAnalysisOf(posts: seq<Post>): seq<CategoryAnalysis> {
    SortDesc(CategoryAnalyses(posts), TotalPosts)
  }

  /** The grouping loop over the rows, the mapping and the sort. */
  method AnalyzeCategories(posts: seq<Post>) returns (r: seq<CategoryAnalysis>)
    ensures r == CategoryAnalysisOf(posts)
  {
    var groups := AccumulateBy(posts, Label, OpenNameGroup, GroupPost);
    var analyses := seq(|groups|, i requires 0 <= i < |groups| => Analyze(groups[i].value));
    r := SortDesc(analyses, TotalPosts);
  }

  /**
   * The `i`-th entry before sorting describes the `i`-th distinct name: the
   * posts with that name, their distinct authors (the first five of them
   * listed), their ten most frequent tags, their date range, their first three
   * posts and their mean text length.
   */
  lemma CategoryAnalysisAt(posts: seq<Post>, i: nat)
    requires i < |CategoryAnalyses(posts)|
    ensures var name := Distinct(KeysOf(posts, Label))[i];
      var ms := Members(posts, Label, name);
      && |ms| > 0
      && CategoryAnalyses(posts)[i]
         == CategoryAnalysis(ms[0].categoryId, name, |ms|, |Distinct(Authors(ms))|, Take(Distinct(Authors(ms)), 5),
                             TopEntries(AllTags(ms), 10), Some(MinOf(Dates(ms))), Some(MaxOf(Dates(ms))),
                             Briefs(Take(ms, 3)), AverageContentLength(ms))
  {
    var name := Distinct(KeysOf(posts, Label))[i];
    MembersOfDistinct(posts, Label, name);
    var ms := Members(posts, Label, name);
    assert NameGroups(posts)[i] == Slot(name, Fold(ms, OpenNameGroup, GroupPost));
    NameGroupFold(ms);
    MembersFacts(posts, Label, name);
    assert Label(ms[0]) == name;
  }

  /** Each entry counts the posts of its name, and its date range is ordered and made of their dates. */
  lemma CategoryAnalysisEntry(posts: seq<Post>, n: nat)
    requires n < |CategoryAnalysisOf(posts)|
    ensures var a := CategoryAnalysisOf(posts)[n];
      && a.totalPosts == Count(Labels(posts), a.categoryName) > 0
      && a.uniqueAuthors == |Distinct(Authors(Members(posts, Label, a.categoryName)))|
      && a.samplePosts == Briefs(Take(Members(posts, Label, a.categoryName), 3))
      && a.earliest == Some(MinOf(Dates(Members(posts, Label, a.categoryName))))
      && a.latest == Some(MaxOf(Dates(Members(posts, Label, a.categoryName))))
  {
    var analyses := CategoryAnalyses(posts);
    var a := CategoryAnalysisOf(posts)[n];
    SortDescMembers(analyses, TotalPosts, a);
    var i :| 0 <= i < |analyses| && analyses[i] == a;
    CategoryAnalysisAt(posts, i);
    LabelKeys(posts);
  }

  lemma LabelKeys(posts: seq<Post>)
    ensures KeysOf(posts, Label) == Labels(posts)
  {
  }

  /** A group's time range is ordered, and both ends are dates of posts carrying the name. */
  lemma CategoryAnalysisRange(posts: seq<Post>, n: nat)
    requires n < |CategoryAnalysisOf(posts)|
    ensures var a := CategoryAnalysisOf(posts)[n];
      && a.earliest.Some? && a.latest.Some? && a.earliest.value <= a.latest.value
      && (exists j :: 0 <= j < |posts| && Label(posts[j]) == a.categoryName && posts[j].createdAt == a.earliest.value)
      && (exists j :: 0 <= j < |posts| && Label(posts[j]) == a.categoryName && posts[j].createdAt == a.latest.value)
  {
    var a := CategoryAnalysisOf(posts)[n];
    CategoryAnalysisEntry(posts, n);
    var ms := Members(posts, Label, a.categoryName);
    MemberDate(posts, a.categoryName, MinOf(Dates(ms)));
    MemberDate(posts, a.categoryName, MaxOf(Dates(ms)));
  }

  /** A date of a post carrying a name is the date of some row with that name. */
  lemma MemberDate(posts: seq<Post>, name: string, v: int)
    requires v in Dates(Members(posts, Label, name))
    ensures exists j :: 0 <= j < |posts| && Label(posts[j]) == name && posts[j].createdAt == v
  {
    var ms := Members(posts, Label, name);
    MembersFacts(posts, Label, name);
    var e :| 0 <= e < |ms| && Dates(ms)[e] == v;
    var j :| 0 <= j < |posts| && posts[j] == ms[e];
  }

  lemma CategoryNamesDistinct(posts: seq<Post>)
    ensures DistinctNames(CategoryAnalyses(posts), AnalysisName)
  {
    var analyses := CategoryAnalyses(posts);
    forall i, j | 0 <= i < j < |analyses|
      ensures AnalysisName(analyses[i]) != AnalysisName(analyses[j])
    {
      CategoryAnalysisAt(posts, i);
      CategoryAnalysisAt(posts, j);
    }
  }

  /** The group sizes add up to the number of rows, are sorted, and no name appears twice. */
  lemma CategoryAnalysisTotals(posts: seq<Post>)
    ensures SumBy(CategoryAnalysisOf(posts), TotalPosts) == |posts|
    ensures NonIncreasing(CategoryAnalysisOf(posts), TotalPosts)
    ensures DistinctNames(CategoryAnalysisOf(posts), AnalysisName)
  {
    var analyses := CategoryAnalyses(posts);
    forall i | 0 <= i < |analyses|
      ensures TotalPosts(analyses[i]) == |Members(posts, Label, Distinct(KeysOf(posts, Label))[i])|
    {
      CategoryAnalysisAt(posts, i);
    }
    GroupSizesSum(posts, Label, analyses, TotalPosts);
    SortDescSum(analyses, TotalPosts, TotalPosts);
    CategoryNamesDistinct(posts);
    SortedNamesDistinct(analyses, TotalPosts, AnalysisName, |analyses|);
    assert Take(SortDesc(analyses, TotalPosts), |analyses|) == SortDesc(analyses, TotalPosts);
  }

  // ---------------------------------------------------------------------------
  // The `trends` case: nested time segments
  // ---------------------------------------------------------------------------

  const TREND_PERIODS: seq<string> := ["最近24小时", "最近7天", "最近30天"]
  /** The windows of the segments in hours: one day, seven days and thirty days. */
  const TREND_HOURS: seq<nat> := [24, 7 * 24, 30 * 24]

  /** The posts with `postDate >= now - hours`, in input order. */
  function Segment(posts: seq<Post>, now: int, hours: nat): (r: seq<Post>)
    ensures |r| <= |posts|
  {
    if posts == [] then []
    else
      var last := posts[|posts| - 1];
      Segment(posts[..|posts| - 1], now, hours) + (if WithinHours(now, last.createdAt, hours) then [last] else [])
  }

  lemma SegmentSnoc(posts: seq<Post>, now: int, hours: nat, i: nat)
    requires i < |posts|
    ensures Segment(posts[..i + 1], now, hours)
         == Segment(posts[..i], now, hours) + (if WithinHours(now, posts[i].createdAt, hours) then [posts[i]] else [])
  {
    assert posts[..i + 1][..i] == posts[..i];
  }

  /** The nested `forEach` over the posts and the segments, pushing each post into every segment it falls in. */
  method SegmentPosts(posts: seq<Post>, now: int) returns (segments: seq<seq<Post>>)
    ensures |segments| == 3
    ensures forall k :: 0 <= k < 3 ==> segments[k] == Segment(posts, now, TREND_HOURS[k])
  {
    segments := [[], [], []];
    for i := 0 to |posts|
      invariant |segments| == 3
      invariant forall k :: 0 <= k < 3 ==> segments[k] == Segment(posts[..i], now, TREND_HOURS[k])
    {
      var post := posts[i];
      for k := 0 to 3
        invariant |segments| == 3
        invariant forall m :: 0 <= m < k ==> segments[m] == Segment(posts[..i + 1], now, TREND_HOURS[m])
        invariant forall m :: k <= m < 3 ==> segments[m] == Segment(posts[..i], now, TREND_HOURS[m])
      {
        SegmentSnoc(posts, now, TREND_HOURS[k], i);
        if WithinHours(now, post.createdAt, TREND_HOURS[k]) {
          segments := segments[k := segments[k] + [post]];
        }
      }
    }
    assert posts[..|posts|] == posts;
  }

  /** A post is in a segment exactly when it is one of the rows and falls in the window. */
  lemma {:induction false} SegmentMembers(posts: seq<Post>, now: int, hours: nat, p: Post)
    ensures p in Segment(posts, now, hours) <==> p in posts && WithinHours(now, p.createdAt, hours)
  {
    if posts != [] {
      var init := posts[..|posts| - 1];
      SegmentMembers(init, now, hours, p);
      assert posts == init + [posts[|posts| - 1]];
    }
  }

  /** Segments are nested: the posts of a shorter window are those of a longer window that fall in the shorter one. */
  lemma {:induction false} SegmentNested(posts: seq<Post>, now: int, h1: nat, h2: nat)
    requires h1 <= h2
    ensures Segment(Segment(posts, now, h2), now, h1) == Segment(posts, now, h1)
  {
    if posts != [] {
      var init := posts[..|posts| - 1];
      var last := posts[|posts| - 1];
      SegmentNested(init, now, h1, h2);
      var outer := Segment(init, now, h2);
      WithinHoursMonotone(now, last.createdAt, h1, h2);
      if WithinHours(now, last.createdAt, h2) {
        assert Segment(posts, now, h2) == outer + [last];
        assert (outer + [last])[..|outer|] == outer;
        assert Segment(outer + [last], now, h1)
            == Segment(outer, now, h1) + (if WithinHours(now, last.createdAt, h1) then [last] else []);
      } else {
        assert Segment(posts, now, h2) == outer;
      }
    }
  }

  /** One entry of the `trends` response. */
  datatype TrendAnalysis = TrendAnalysis(
    period: string,
    totalPosts: nat,
    topAuthors: seq<Entry<string>>,
    topCategories: seq<Entry<string>>,
    topKeywords: seq<Entry<string>>)

  function TrendOf(period: string, seg: seq<Post>): TrendAnalysis {
    TrendAnalysis(period, |seg|, TopEntries(Authors(seg), 5), TopEntries(Labels(seg), 5), TopEntries(AllTags(seg), 10))
  }

  /** The `data` of the `trends` response at time `now`. */
  function Trends(posts: seq<Post>, now: int): (r: seq<TrendAnalysis>)
    ensures |r| == 3
  {
    seq(3, k requires 0 <= k < 3 => TrendOf(TREND_PERIODS[k], Segment(posts, now, TREND_HOURS[k])))
  }

  /** The segment loop, then for each segment the three counting maps, their sorts and slices. */
  method AnalyzeTrends(posts: seq<Post>, now: int) returns (r: seq<TrendAnalysis>)
    ensures r == Trends(posts, now)
  {
    var segments := SegmentPosts(posts, now);
    r := [];
    for k := 0 to 3
      invariant r == Trends(posts, now)[..k]
    {
      var seg := segments[k];
      var authorCount := CountKeys(Authors(seg));
      var categoryCount := CountKeys(Labels(seg));
      var keywordCount := CountKeys(AllTags(seg));
      var trend := TrendAnalysis(TREND_PERIODS[k], |seg|, Take(SortDesc(authorCount, EntryCount), 5),
                                 Take(SortDesc(categoryCount, EntryCount), 5), Take(SortDesc(keywordCount, EntryCount), 10));
      PrefixSnoc(Trends(posts, now), k);
      r := r + [trend];
    }
    assert r == Trends(posts, now)[..3];
  }

  /**
   * Each trend counts the posts of its window; a post of the last day is also
   * in the last week and the last month, so the counts never decrease.
   */
  lemma TrendsNested(posts: seq<Post>, now: int)
    ensures forall k :: 0 <= k < 3 ==> Trends(posts, now)[k].totalPosts == |Segment(posts, now, TREND_HOURS[k])|
    ensures Trends(posts, now)[0].totalPosts <= Trends(posts, now)[1].totalPosts <= Trends(posts, now)[2].totalPosts
    ensures forall p :: p in Segment(posts, now, 24) ==> p in Segment(posts, now, 168) && p in Segment(posts, now, 720)
  {
    SegmentNested(posts, now, 24, 168);
    SegmentNested(posts, now, 168, 720);
    forall p | p in Segment(posts, now, 24)
      ensures p in Segment(posts, now, 168) && p in Segment(posts, now, 720)
    {
      SegmentMembers(posts, now, 24, p);
      SegmentMembers(posts, now, 168, p);
      SegmentMembers(posts, now, 720, p);
    }
  }

  // ---------------------------------------------------------------------------
  // getCategoryDistribution
  // ---------------------------------------------------------------------------

  /** `{ category, count, percentage }`. */
  datatype CategoryShare = CategoryShare(category: string, count: nat, percentage: nat)

  function ShareCount(s: CategoryShare): int {
    s.count
  }

  function ShareName(s: CategoryShare): string {
    s.category
  }

  /** An entry of the counting map with `Math.round((count / total) * 100)`. */
  function ToShares(es: seq<Entry<string>>, total: nat): (r: seq<CategoryShare>)
    requires total > 0
    ensures |r| == |es|
    ensures forall i :: 0 <= i < |es| ==> r[i] == CategoryShare(es[i].key, es[i].count, Percentage(es[i].count, total))
  {
    seq(|es|, i requires 0 <= i < |es| => CategoryShare(es[i].key, es[i].count, Percentage(es[i].count, total)))
  }

  /** `getCategoryDistribution(posts)`: the label counts, most frequent first, with their shares. */
  function CategoryDistribution(posts: seq<Post>): seq<CategoryShare> {
    if posts == [] then [] else ToShares(SortDesc(TallyOf(Labels(posts)), EntryCount), |posts|)
  }

  /** The counting loop over the labels, the sort and the mapping. */
  method GetCategoryDistribution(posts: seq<Post>) returns (r: seq<CategoryShare>)
    ensures r == CategoryDistribution(posts)
  {
    if |posts| == 0 {
      return [];
    }
    var distribution := CountKeys(Labels(posts));
    r := ToShares(SortDesc(distribution, EntryCount), |posts|);
  }

  /**
   * Every label gets one entry (posts without a category name under `未分类`),
   * with its exact count and its rounded share; the entries are most frequent
   * first and their counts add up to the number of posts.
   */
  lemma CategoryDistributionFacts(posts: seq<Post>)
    ensures var r := CategoryDistribution(posts);
      && (r == [] <==> posts == [])
      && SumBy(r, ShareCount) == |posts|
      && NonIncreasing(r, ShareCount)
      && DistinctNames(r, ShareName)
      && (forall i :: 0 <= i < |r| ==> r[i].count == Count(Labels(posts), r[i].category) > 0
                                       && r[i].percentage == Percentage(r[i].count, |posts|) <= 100)
      && (forall i :: 0 <= i < |posts| ==> exists j :: 0 <= j < |r| && r[j].category == Label(posts[i]))
  {
    if posts != [] {
      var ks := Labels(posts);
      var r := CategoryDistribution(posts);
      assert r == ToShares(SortDesc(TallyOf(ks), EntryCount), |ks|);
      assert |ks| == |posts|;
      SharesTotals(ks);
      SharesCounts(ks);
      SharesCover(ks);
      forall i | 0 <= i < |posts|
        ensures exists j :: 0 <= j < |r| && r[j].category == Label(posts[i])
      {
        assert ks[i] == Label(posts[i]);
        assert exists j :: 0 <= j < |r| && r[j].category == ks[i];
      }
    }
  }

  /** The shares of a tally sum to the number of keys and never increase. */
  lemma SharesTotals(ks: seq<string>)
    requires ks != []
    ensures var r := ToShares(SortDesc(TallyOf(ks), EntryCount), |ks|);
      && r != []
      && SumBy(r, ShareCount) == |ks|
      && NonIncreasing(r, ShareCount)
  {
    var sorted := SortDesc(TallyOf(ks), EntryCount);
    TallyOfFacts(ks);
    SortDescSum(TallyOf(ks), EntryCount, EntryCount);
    SharesSum(sorted, |ks|);
  }

  /** Mapping entries to shares keeps their counts, so their sum and their order. */
  lemma SharesSum(es: seq<Entry<string>>, total: nat)
    requires total > 0
    ensures SumBy(ToShares(es, total), ShareCount) == SumBy(es, EntryCount)
    ensures NonIncreasing(es, EntryCount) ==> NonIncreasing(ToShares(es, total), ShareCount)
  {
    var r := ToShares(es, total);
    SumByPointwise(r, ShareCount, es, EntryCount);
  }

  /** Each share names a distinct key with its exact count and its rounded percentage. */
  lemma SharesCounts(ks: seq<string>)
    requires ks != []
    ensures var r := ToShares(SortDesc(TallyOf(ks), EntryCount), |ks|);
      && DistinctNames(r, ShareName)
      && (forall i :: 0 <= i < |r| ==> r[i].count == Count(ks, r[i].category) > 0
                                       && r[i].percentage == Percentage(r[i].count, |ks|) <= 100)
  {
    var sorted := SortDesc(TallyOf(ks), EntryCount);
    var r := ToShares(sorted, |ks|);
    TopEntriesAll(ks);
    TopEntriesFacts(ks, |ks|);
    forall i | 0 <= i < |r|
      ensures r[i].count == Count(ks, r[i].category) > 0
      ensures r[i].percentage == Percentage(r[i].count, |ks|) <= 100
    {
      assert sorted[i] in sorted;
    }
    assert DistinctNames(r, ShareName) by {
      forall i, j | 0 <= i < j < |r|
        ensures r[i].category != r[j].category
      {
        assert Keys(sorted)[i] == r[i].category && Keys(sorted)[j] == r[j].category;
      }
    }
  }

  /** Every key counted has a share. */
  lemma SharesCover(ks: seq<string>)
    requires ks != []
    ensures var r := ToShares(SortDesc(TallyOf(ks), EntryCount), |ks|);
      forall i :: 0 <= i < |ks| ==> exists j :: 0 <= j < |r| && r[j].category == ks[i]
  {
    var sorted := SortDesc(TallyOf(ks), EntryCount);
    var r := ToShares(sorted, |ks|);
    TopEntriesAll(ks);
    forall i | 0 <= i < |ks|
      ensures exists j :: 0 <= j < |r| && r[j].category == ks[i]
    {
      TopEntriesKeys(ks, |ks|, ks[i]);
      var j :| 0 <= j < |Keys(sorted)| && Keys(sorted)[j] == ks[i];
      assert r[j].category == ks[i];
    }
  }

  // ---------------------------------------------------------------------------
  // getKeywordDistribution
  // ---------------------------------------------------------------------------

  /** `getKeywordDistribution(posts)`: the twenty most frequent tags with their counts. */
  function KeywordDistribution(posts: seq<Post>): seq<Entry<string>> {
    TopEntries(AllTags(posts), 20)
  }

  /** The nested loops over the posts and their tags, the sort and the slice. */
  method GetKeywordDistribution(posts: seq<Post>) returns (r: seq<Entry<string>>)
    ensures r == KeywordDistribution(posts)
  {
    var distribution := CountKeys(AllTags(posts));
    r := Take(SortDesc(distribution, EntryCount), 20);
  }

  /**
   * The twenty most frequent tags, or all tags when there are fewer, most
   * frequent first, each once; no tag left out occurs more often than a tag
   * listed; each entry counts every occurrence of its tag, a tag repeated in
   * one post included, and each tag is a tag of some post.
   */
  lemma KeywordDistributionFacts(posts: seq<Post>)
    ensures var r := KeywordDistribution(posts);
      && |r| == (if 20 < |Distinct(AllTags(posts))| then 20 else |Distinct(AllTags(posts))|)
      && (forall t :: t in AllTags(posts) && t !in Keys(r) ==> forall e :: e in r ==> Count(AllTags(posts), t) <= e.count)
      && NonIncreasing(r, EntryCount)
      && NoDups(Keys(r))
      && (forall i :: 0 <= i < |r| ==> r[i].count == Count(AllTags(posts), r[i].key) > 0)
      && (forall i :: 0 <= i < |r| ==> exists j :: 0 <= j < |posts| && r[i].key in TagsOf(posts[j]))
  {
    var r := KeywordDistribution(posts);
    TopEntriesDistinct(AllTags(posts), 20);
    TopEntriesOrdered(AllTags(posts), 20);
    TopEntriesSelect(AllTags(posts), 20);
    forall i | 0 <= i < |r|
      ensures r[i].count == Count(AllTags(posts), r[i].key) > 0
      ensures exists j :: 0 <= j < |posts| && r[i].key in TagsOf(posts[j])
    {
      TopEntryInTally(AllTags(posts), 20, r[i]);
      AllTagsMembers(posts, r[i].key);
    }
  }

  // ---------------------------------------------------------------------------
  // getTimeDistribution
  // ---------------------------------------------------------------------------

  /** The periods of `timeRanges`, in the order of the record. */
  const PERIOD_NAMES: seq<string> := ["今天", "本周", "本月", "更早"]

  /** `{ period, count }`. */
  datatype PeriodCount = PeriodCount(period: string, count: nat)

  function PeriodTotal(p: PeriodCount): int {
    p.count
  }

  function PeriodCounts(counts: seq<nat>): (r: seq<PeriodCount>)
    requires |counts| == 4
  {
    var active := ActiveFrames(counts);
    ActiveFramesFacts(counts);
    seq(|active|, i requires 0 <= i < |active| => PeriodCount(PERIOD_NAMES[active[i]], counts[active[i]]))
  }

  /**
   * `getTimeDistribution(posts)` at time `now`: the same inclusive 24, 168 and
   * 720 hour thresholds as the time frames of the keyword summary.
   */
  function TimeDistribution(posts: seq<Post>, now: int): seq<PeriodCount> {
    PeriodCounts(FrameCounts(posts, now))
  }

  /** The four counters, then the filter of the non-empty periods. */
  method GetTimeDistribution(posts: seq<Post>, now: int) returns (r: seq<PeriodCount>)
    ensures r == TimeDistribution(posts, now)
  {
    var counts := CountFrames(posts, now);
    r := PeriodCounts(counts);
  }

  lemma {:induction false} PeriodSum(counts: seq<nat>, ks: seq<int>, r: seq<PeriodCount>)
    requires |r| == |ks|
    requires forall i :: 0 <= i < |ks| ==> 0 <= ks[i] < |counts| && r[i].count == counts[ks[i]]
    ensures SumBy(r, PeriodTotal) == TotalAt(counts, ks)
  {
    if ks != [] {
      var n := |ks|;
      PeriodSum(counts, ks[..n - 1], r[..n - 1]);
      SumByConcat(r[..n - 1], [r[n - 1]], PeriodTotal);
      assert r == r[..n - 1] + [r[n - 1]];
    }
  }

  /** The entries of the non-empty counters, in counter order, with their counts. */
  lemma PeriodCountsFacts(counts: seq<nat>)
    requires |counts| == 4
    ensures var r := PeriodCounts(counts);
      var active := ActiveFrames(counts);
      && |r| == |active| <= 4
      && SumBy(r, PeriodTotal) == TotalAt(counts, active)
      && (forall i :: 0 <= i < |r| ==> 0 <= active[i] < 4 && counts[active[i]] > 0
                                       && r[i] == PeriodCount(PERIOD_NAMES[active[i]], counts[active[i]]))
  {
    ActiveFramesFacts(counts);
    PeriodSum(counts, ActiveFrames(counts), PeriodCounts(counts));
  }

  /**
   * One entry per non-empty period, in the fixed order 今天, 本周, 本月, 更早,
   * each with the number of posts of its bucket; the counts add up to the
   * number of posts.
   */
  lemma TimeDistributionFacts(posts: seq<Post>, now: int)
    ensures var r := TimeDistribution(posts, now);
      var active := ActiveFrames(FrameCounts(posts, now));
      && |r| == |active| <= 4
      && SumBy(r, PeriodTotal) == |posts|
      && (forall i :: 0 <= i < |r| ==> 0 <= active[i] < 4 && FrameCount(posts, now, active[i]) > 0
                                       && r[i] == PeriodCount(PERIOD_NAMES[active[i]], FrameCount(posts, now, active[i])))
      && (forall i, j :: 0 <= i < j < |active| ==> active[i] < active[j])
      && (forall k :: 0 <= k < 4 ==> (k in active <==> FrameCount(posts, now, k) > 0))
  {
    var counts := FrameCounts(posts, now);
    ActiveFramesFacts(counts);
    FrameCountsTotal(posts, now);
    PeriodCountsFacts(counts);
    FrameCountsAt(posts, now);
  }

  /** The four counters are the four bucket counts. */
  lemma FrameCountsAt(posts: seq<Post>, now: int)
    ensures |FrameCounts(posts, now)| == 4
    ensures forall k :: 0 <= k < 4 ==> FrameCounts(posts, now)[k] == FrameCount(posts, now, k)
  {
  }

  // ---------------------------------------------------------------------------
  // analyzeContentPatterns
  // ---------------------------------------------------------------------------

  /** `p.tags && p.tags.length > 0`. */
  predicate HasTags(p: Post) {
    |TagsOf(p)| > 0
  }

  /** `Math.round((posts.filter(p => p.tags && p.tags.length > 0).length / posts.length) * 100)`. */
  function TaggedShare(posts: seq<Post>): nat
    requires |posts| > 0
  {
    Percentage(|Filter(posts, HasTags)|, |posts|)
  }

  /** `Math.round(totalTags / posts.length)`. */
  function AverageTagCount(posts: seq<Post>): nat
    requires |posts| > 0
  {
    RoundedMean(posts, TagCount)
  }

  /** `analyzeContentPatterns(posts)`; reached only with posts. */
  function ContentPatterns(posts: seq<Post>): seq<string>
    requires |posts| > 0
  {
    ["平均内容长度: " + NatToString(AverageContentLength(posts)),
     "包含标签的帖子: " + NatToString(TaggedShare(posts)) + "%",
     "平均标签数量: " + NatToString(AverageTagCount(posts))]
  }

  /**
   * The tagged share is a percentage: 100 when every post has tags, 0 when
   * none has; the average tag count lies between the fewest and the most tags
   * of a post.
   */
  lemma ContentPatternsFacts(posts: seq<Post>)
    requires |posts| > 0
    ensures TaggedShare(posts) <= 100
    ensures (forall i :: 0 <= i < |posts| ==> HasTags(posts[i])) ==> TaggedShare(posts) == 100
    ensures (forall i :: 0 <= i < |posts| ==> !HasTags(posts[i])) ==> TaggedShare(posts) == 0
    ensures MinOf(Measures(posts, TagCount)) <= AverageTagCount(posts) <= MaxOf(Measures(posts, TagCount))
  {
    FilterExtremes(posts, HasTags);
    RoundedMeanBounds(posts, TagCount);
  }

  // ---------------------------------------------------------------------------
  // analyzeAuthorInsights
  // ---------------------------------------------------------------------------

  datatype AuthorInsights = AuthorInsights(totalAuthors: nat, topAuthors: seq<Entry<string>>, averagePostsPerAuthor: nat)

  /** `analyzeAuthorInsights(posts)`; reached only with posts, so there is at least one author. */
  function AuthorInsightsOf(posts: seq<Post>): AuthorInsights
    requires |posts| > 0
  {
    var tally := TallyOf(Authors(posts));
    AuthorsPresent(posts);
    AuthorInsights(|tally|, Take(SortDesc(tally, EntryCount), 5), RoundDiv(|posts|, |tally|))
  }

  /** The number of entries of the author counter is the number of distinct authors, at least one. */
  lemma AuthorsPresent(posts: seq<Post>)
    requires |posts| > 0
    ensures |TallyOf(Authors(posts))| == |Distinct(Authors(posts))| >= 1
  {
    TallyOfFacts(Authors(posts));
    assert |TallyOf(Authors(posts))| == |Keys(TallyOf(Authors(posts)))|;
    assert Authors(posts)[0] in Distinct(Authors(posts));
  }

  /** The author counter loop, the sort, the slice and the rounded mean. */
  method AnalyzeAuthorInsights(posts: seq<Post>) returns (r: AuthorInsights)
    requires |posts| > 0
    ensures r == AuthorInsightsOf(posts)
  {
    var authorStats := CountKeys(Authors(posts));
    AuthorsPresent(posts);
    var topAuthors := Take(SortDesc(authorStats, EntryCount), 5);
    r := AuthorInsights(|authorStats|, topAuthors, RoundDiv(|posts|, |authorStats|));
  }

  /**
   * `totalAuthors` counts the distinct authors; the top authors are the five
   * most prolific, or all authors when there are fewer, with their exact post
   * counts, most prolific first, and no author left out has more posts than
   * one listed; every author has on average between one post and all of them.
   */
  lemma AuthorInsightsFacts(posts: seq<Post>)
    requires |posts| > 0
    ensures var r := AuthorInsightsOf(posts);
      && r.totalAuthors == |Distinct(Authors(posts))|
      && 1 <= r.totalAuthors <= |posts|
      && |r.topAuthors| == (if 5 < r.totalAuthors then 5 else r.totalAuthors)
      && (forall a :: a in Authors(posts) && a !in Keys(r.topAuthors) ==>
            forall e :: e in r.topAuthors ==> Count(Authors(posts), a) <= e.count)
      && NonIncreasing(r.topAuthors, EntryCount)
      && NoDups(Keys(r.topAuthors))
      && (forall e :: e in r.topAuthors ==> e.count == Count(Authors(posts), e.key) > 0)
      && 1 <= r.averagePostsPerAuthor <= |posts|
  {
    var n := |posts|;
    var d := |TallyOf(Authors(posts))|;
    AuthorsPresent(posts);
    TopEntriesFacts(Authors(posts), 5);
    MulMono(n, 1, d);
    RoundDivBounds(n, d, 1);
    RoundDivBounds(n, d, n);
  }

  // ---------------------------------------------------------------------------
  // analyzeTemporalPatterns
  // ---------------------------------------------------------------------------

  const DAY_NAMES: seq<string> := ["周日", "周一", "周二", "周三", "周四", "周五", "周六"]

  /**
   * `new Date(t).getHours()` in a time zone `offset` milliseconds ahead of UTC:
   * ECMA-262's HourFromTime of the local time.
   */
  function HourOf(t: int, offset: int): (h: nat)
    ensures h < 24
  {
    ((t + offset) / HOUR_MS) % 24
  }

  /** `new Date(t).getDay()`: WeekDay of the local time, 0 for Sunday (1970-01-01 was a Thursday). */
  function WeekDayOf(t: int, offset: int): (d: nat)
    ensures d < 7
  {
    ((t + offset) / (24 * HOUR_MS) + 4) % 7
  }

  function HoursOf(posts: seq<Post>, offset: int): (r: seq<int>)
    ensures |r| == |posts|
    ensures forall i :: 0 <= i < |posts| ==> r[i] == HourOf(posts[i].createdAt, offset)
  {
    seq(|posts|, i requires 0 <= i < |posts| => HourOf(posts[i].createdAt, offset))
  }

  function WeekDaysOf(posts: seq<Post>, offset: int): (r: seq<int>)
    ensures |r| == |posts|
    ensures forall i :: 0 <= i < |posts| ==> r[i] == WeekDayOf(posts[i].createdAt, offset)
  {
    seq(|posts|, i requires 0 <= i < |posts| => WeekDayOf(posts[i].createdAt, offset))
  }

  /** Bin `b` holds the number of occurrences of `b` in `ks`. */
  function Bins(ks: seq<int>, n: nat): (r: seq<nat>)
    ensures |r| == n
  {
    seq(n, b requires 0 <= b < n => Count(ks, b))
  }

  /** Counting one more key increments its bin. */
  lemma BinsSnoc(ks: seq<int>, n: nat, k: nat)
    requires k < n
    ensures Bins(ks + [k], n) == Bins(ks, n)[k := Bins(ks, n)[k] + 1]
  {
    forall b | 0 <= b < n
      ensures Bins(ks + [k], n)[b] == Bins(ks, n)[k := Bins(ks, n)[k] + 1][b]
    {
      CountSnoc(ks, k, b);
    }
  }

  /** With every key in range, the bins add up to the number of keys. */
  lemma {:induction false} BinsTotal(ks: seq<int>, n: nat)
    requires forall i :: 0 <= i < |ks| ==> 0 <= ks[i] < n
    ensures Total(Bins(ks, n)) == |ks|
  {
    if ks == [] {
      TotalZero(Bins(ks, n));
    } else {
      var init := ks[..|ks| - 1];
      var k := ks[|ks| - 1];
      BinsTotal(init, n);
      assert init + [k] == ks;
      BinsSnoc(init, n, k);
      TotalUpdate(Bins(init, n), k, 1);
    }
  }

  datatype TemporalPatterns = TemporalPatterns(
    peakPostingHour: string,
    peakPostingDay: string,
    hourlyPattern: seq<nat>,
    dailyPattern: seq<nat>)

  /** `analyzeTemporalPatterns(posts)` in a time zone `offset` milliseconds ahead of UTC. */
  function TemporalPatternsOf(posts: seq<Post>, offset: int): TemporalPatterns {
    var hourly := Bins(HoursOf(posts, offset), 24);
    var daily := Bins(WeekDaysOf(posts, offset), 7);
    TemporalPatterns(NatToString(PeakIndex(hourly)) + ":00", DAY_NAMES[PeakIndex(daily)], hourly, daily)
  }

  lemma HoursOfSnoc(posts: seq<Post>, offset: int, i: nat)
    requires i < |posts|
    ensures HoursOf(posts[..i + 1], offset) == HoursOf(posts[..i], offset) + [HourOf(posts[i].createdAt, offset)]
    ensures WeekDaysOf(posts[..i + 1], offset) == WeekDaysOf(posts[..i], offset) + [WeekDayOf(posts[i].createdAt, offset)]
  {
  }

  /** The two arrays filled with zeros, incremented once per post, then the two peaks. */
  method AnalyzeTemporalPatterns(posts: seq<Post>, offset: int) returns (r: TemporalPatterns)
    ensures r == TemporalPatternsOf(posts, offset)
  {
    var hourly := new nat[24](_ => 0);
    var daily := new nat[7](_ => 0);
    assert hourly[..] == Bins(HoursOf(posts[..0], offset), 24);
    assert daily[..] == Bins(WeekDaysOf(posts[..0], offset), 7);
    for i := 0 to |posts|
      invariant hourly[..] == Bins(HoursOf(posts[..i], offset), 24)
      invariant daily[..] == Bins(WeekDaysOf(posts[..i], offset), 7)
    {
      var h := HourOf(posts[i].createdAt, offset);
      var d := WeekDayOf(posts[i].createdAt, offset);
      HoursOfSnoc(posts, offset, i);
      BinsSnoc(HoursOf(posts[..i], offset), 24, h);
      BinsSnoc(WeekDaysOf(posts[..i], offset), 7, d);
      hourly[h] := hourly[h] + 1;
      daily[d] := daily[d] + 1;
    }
    assert posts[..|posts|] == posts;
    var hours, days := hourly[..], daily[..];
    assert hours == Bins(HoursOf(posts, offset), 24);
    assert days == Bins(WeekDaysOf(posts, offset), 7);
    var peakHour := PeakIndex(hours);
    var peakDay := PeakIndex(days);
    r := TemporalPatterns(NatToString(peakHour) + ":00", DAY_NAMES[peakDay], hours, days);
  }

  /**
   * Twenty-four hourly counts adding up to the number of posts, bin `b`
   * counting the posts of hour `b`; the peak names the first hour with the
   * most posts.
   */
  lemma HourlyPatternFacts(posts: seq<Post>, offset: int)
    ensures var r := TemporalPatternsOf(posts, offset);
      && |r.hourlyPattern| == 24
      && Total(r.hourlyPattern) == |posts|
      && (forall b :: 0 <= b < 24 ==> r.hourlyPattern[b] == Count(HoursOf(posts, offset), b))
      && (exists h :: 0 <= h < 24 && r.peakPostingHour == NatToString(h) + ":00"
            && (forall b :: 0 <= b < 24 ==> r.hourlyPattern[b] <= r.hourlyPattern[h])
            && (forall b :: 0 <= b < h ==> r.hourlyPattern[b] < r.hourlyPattern[h]))
  {
    var hourly := Bins(HoursOf(posts, offset), 24);
    BinsFacts(HoursOf(posts, offset), 24);
    var h := PeakIndex(hourly);
    assert TemporalPatternsOf(posts, offset).hourlyPattern == hourly;
    assert TemporalPatternsOf(posts, offset).peakPostingHour == NatToString(h) + ":00";
  }

  /**
   * Seven daily counts adding up to the number of posts, bin `b` counting the
   * posts of weekday `b` (0 for Sunday); the peak names the first weekday with
   * the most posts.
   */
  lemma DailyPatternFacts(posts: seq<Post>, offset: int)
    ensures var r := TemporalPatternsOf(posts, offset);
      && |r.dailyPattern| == 7
      && Total(r.dailyPattern) == |posts|
      && (forall b :: 0 <= b < 7 ==> r.dailyPattern[b] == Count(WeekDaysOf(posts, offset), b))
      && (exists d :: 0 <= d < 7 && r.peakPostingDay == DAY_NAMES[d]
            && (forall b :: 0 <= b < 7 ==> r.dailyPattern[b] <= r.dailyPattern[d])
            && (forall b :: 0 <= b < d ==> r.dailyPattern[b] < r.dailyPattern[d]))
  {
    var daily := Bins(WeekDaysOf(posts, offset), 7);
    BinsFacts(WeekDaysOf(posts, offset), 7);
    var d := PeakIndex(daily);
    assert TemporalPatternsOf(posts, offset).dailyPattern == daily;
    assert TemporalPatternsOf(posts, offset).peakPostingDay == DAY_NAMES[d];
  }

  /** Bins over keys in range: one per value, each counting that value, adding up to the number of keys. */
  lemma BinsFacts(ks: seq<int>, n: nat)
    requires forall i :: 0 <= i < |ks| ==> 0 <= ks[i] < n
    ensures Total(Bins(ks, n)) == |ks|
    ensures forall b :: 0 <= b < n ==> Bins(ks, n)[b] == Count(ks, b)
  {
    BinsTotal(ks, n);
  }

  // ---------------------------------------------------------------------------
  // generateTextSummary
  // ---------------------------------------------------------------------------

  /** The `dateRange` filter of the request body. */
  datatype DateRange = DateRange(start: Option<string>, end: Option<string>)

  /** The filters the summary sentence reads (`categories` and `authors` only narrow the query). */
  datatype Filters = Filters(keywords: Option<seq<string>>, dateRange: Option<DateRange>)

  /** `categories[0]?.category || '未知'`. */
  function TopCategoryName(shares: seq<CategoryShare>): string {
    if |shares| > 0 && shares[0].category != "" then shares[0].category else "未知"
  }

  /** `categories[0]?.percentage || 0`. */
  function TopCategoryShare(shares: seq<CategoryShare>): nat {
    if |shares| > 0 then shares[0].percentage else 0
  }

  function OpeningSentence(posts: seq<Post>): string {
    "本次分析包含" + NatToString(|posts|) + "篇帖子，来自" + NatToString(|Distinct(Authors(posts))|) + "位作者。"
  }

  /** Present only when the keyword filter is a non-empty list. */
  function KeywordSentence(keywords: Option<seq<string>>): string {
    if keywords.Some? && |keywords.value| > 0 then "主要关键词包括：" + Join(keywords.value, "、") + "。" else ""
  }

  function CategorySentence(shares: seq<CategoryShare>): string {
    "内容主要集中在" + TopCategoryName(shares) + "分类，占比" + NatToString(TopCategoryShare(shares)) + "%。"
  }

  /** Present only when there is a date range; its missing or empty ends read 开始 and 现在. */
  function RangeSentence(dateRange: Option<DateRange>): string {
    if dateRange.Some? then
      "数据时间范围从" + OrDefault(dateRange.value.start, "开始") + "到" + OrDefault(dateRange.value.end, "现在") + "。"
    else ""
  }

  /** `generateTextSummary(posts, filters)`. */
  function TextSummary(posts: seq<Post>, filters: Filters): string {
    OpeningSentence(posts) + KeywordSentence(filters.keywords)
      + CategorySentence(CategoryDistribution(posts)) + RangeSentence(filters.dateRange)
  }

  /** The sentence built with `+=`, the optional parts under their conditions. */
  method GenerateTextSummary(posts: seq<Post>, filters: Filters) returns (summary: string)
    ensures summary == TextSummary(posts, filters)
  {
    var categories := GetCategoryDistribution(posts);
    summary := OpeningSentence(posts);
    if filters.keywords.Some? && |filters.keywords.value| > 0 {
      summary := summary + KeywordSentence(filters.keywords);
    } else {
      AppendNothing(summary, KeywordSentence(filters.keywords));
    }
    summary := summary + CategorySentence(categories);
    if filters.dateRange.Some? {
      summary := summary + RangeSentence(filters.dateRange);
    } else {
      AppendNothing(summary, RangeSentence(filters.dateRange));
    }
  }

  /** Appending nothing leaves a string as it was. */
  lemma AppendNothing(s: string, t: string)
    requires t == ""
    ensures s + t == s
  {
  }

  /**
   * The category the summary names is the most frequent label; among equally
   * frequent labels it is the one that appears first in `posts`.
   */
  lemma TopCategoryFacts(posts: seq<Post>)
    requires |posts| > 0
    ensures var top := TopCategoryName(CategoryDistribution(posts));
      var labels := Labels(posts);
      var order := Distinct(labels);
      exists i :: 0 <= i < |order| && order[i] == top
        && (forall j :: 0 <= j < |order| ==> Count(labels, order[j]) <= Count(labels, top))
        && (forall j :: 0 <= j < i ==> Count(labels, order[j]) < Count(labels, top))
  {
    var labels := Labels(posts);
    TopCategoryIsFirstMax(posts);
    TallyFirstMax(labels);
    var i := FirstMaxIndex(TallyOf(labels), EntryCount);
    assert Distinct(labels)[i] == TopCategoryName(CategoryDistribution(posts));
  }

  /** The named category is the key of the first most frequent tally entry. */
  lemma TopCategoryIsFirstMax(posts: seq<Post>)
    requires |posts| > 0
    ensures |TallyOf(Labels(posts))| > 0
    ensures TopCategoryName(CategoryDistribution(posts))
            == TallyOf(Labels(posts))[FirstMaxIndex(TallyOf(Labels(posts)), EntryCount)].key
  {
    var labels := Labels(posts);
    var tally := TallyOf(labels);
    TallyOrder(labels);
    assert labels[0] in Distinct(labels);
    SortDescHead(tally, EntryCount);
    var i := FirstMaxIndex(tally, EntryCount);
    var top := tally[i].key;
    assert top in Distinct(labels);
    var x :| 0 <= x < |labels| && labels[x] == top;
    assert top == Label(posts[x]);
  }

  // ---------------------------------------------------------------------------
  // POST /api/summary: the custom summary
  // ---------------------------------------------------------------------------

  datatype CustomStats = CustomStats(
    authorCount: nat,
    categoryDistribution: seq<CategoryShare>,
    keywordDistribution: seq<Entry<string>>,
    timeDistribution: seq<PeriodCount>)

  /** An entry of `topContent`; `category` is `post.categories?.name`. */
  datatype TopContent = TopContent(
    id: string,
    title: string,
    author: string,
    category: Option<string>,
    contentLength: nat,
    createdAt: int)

  function ContentLength(c: TopContent): int {
    c.contentLength
  }

  function ToTopContent(p: Post): TopContent {
    TopContent(p.id, p.title, p.author, if p.categories.Some? then Some(p.categories.value.name) else None,
               |p.title| + |p.content|, p.createdAt)
  }

  /** `.slice(0, 5).map(...)` of the posts, already sorted by length. */
  function TopContents(rows: seq<Post>): (r: seq<TopContent>)
    ensures |r| == |Take(rows, 5)|
  {
    var front := Take(rows, 5);
    seq(|front|, i requires 0 <= i < |front| => ToTopContent(front[i]))
  }

  datatype CustomInsights = CustomInsights(
    topContent: seq<TopContent>,
    contentPatterns: seq<string>,
    authorInsights: AuthorInsights,
    temporalPatterns: TemporalPatterns)

  /** `data` of the response: `summary: null` when nothing matched, else the custom summary. */
  datatype CustomReport =
    | NoMatches
    | CustomSummary(totalPosts: nat, stats: Option<CustomStats>, insights: Option<CustomInsights>, textSummary: string)

  /** `posts.sort(...)` by descending `title.length + content.length`; equal lengths keep their order. */
  function ByLength(posts: seq<Post>): (r: seq<Post>)
    ensures |r| == |posts|
  {
    SortDesc(posts, TextLength)
  }

  function StatsOf(posts: seq<Post>, now: int): CustomStats {
    CustomStats(|Distinct(Authors(posts))|, CategoryDistribution(posts), KeywordDistribution(posts), TimeDistribution(posts, now))
  }

  function InsightsOf(rows: seq<Post>, offset: int): CustomInsights
    requires |rows| > 0
  {
    CustomInsights(TopContents(rows), ContentPatterns(rows), AuthorInsightsOf(rows), TemporalPatternsOf(rows, offset))
  }

  /** A flag of the request body destructured with the default `true`: `None` when the body leaves it out. */
  function RequestFlag(flag: Option<bool>): (b: bool)
    ensures flag.None? ==> b
    ensures flag.Some? ==> b == flag.value
  {
    flag.GetOr(true)
  }

  /**
   * The POST handler on the fetched rows, given the two flags after their
   * defaults were applied. The statistics see the rows in the
   * fetched order; building the insights sorts the rows in place, so the
   * insights and the text summary after them see the sorted order.
   */
  function CustomReportOf(posts: seq<Post>, filters: Filters, includeStats: bool, includeInsights: bool,
                          now: int, offset: int): CustomReport
  {
    if posts == [] then NoMatches
    else
      var stats := if includeStats then Some(StatsOf(posts, now)) else None;
      var rows := if includeInsights then ByLength(posts) else posts;
      var insights := if includeInsights then Some(InsightsOf(rows, offset)) else None;
      CustomSummary(|posts|, stats, insights, TextSummary(rows, filters))
  }

  method GenerateCustomReport(posts: seq<Post>, filters: Filters, includeStats: Option<bool>, includeInsights: Option<bool>,
                              now: int, offset: int) returns (r: CustomReport)
    ensures r == CustomReportOf(posts, filters, RequestFlag(includeStats), RequestFlag(includeInsights), now, offset)
  {
    if |posts| == 0 {
      return NoMatches;
    }
    var withStats, withInsights := RequestFlag(includeStats), RequestFlag(includeInsights);
    var stats: Option<CustomStats> := None;
    if withStats {
      var categories := GetCategoryDistribution(posts);
      var keywords := GetKeywordDistribution(posts);
      var periods := GetTimeDistribution(posts, now);
      stats := Some(CustomStats(|Distinct(Authors(posts))|, categories, keywords, periods));
    }
    var rows := posts;
    var insights: Option<CustomInsights> := None;
    if withInsights {
      rows := ByLength(rows);
      var authorInsights := AnalyzeAuthorInsights(rows);
      var temporal := AnalyzeTemporalPatterns(rows, offset);
      insights := Some(CustomInsights(TopContents(rows), ContentPatterns(rows), authorInsights, temporal));
    }
    var text := GenerateTextSummary(rows, filters);
    r := CustomSummary(|posts|, stats, insights, text);
  }

  /**
   * Nothing matched exactly when there are no rows; otherwise the summary
   * counts the rows, and it holds statistics and insights exactly when they
   * were asked for.
   */
  lemma CustomReportFacts(posts: seq<Post>, filters: Filters, includeStats: bool, includeInsights: bool,
                          now: int, offset: int)
    ensures var r := CustomReportOf(posts, filters, includeStats, includeInsights, now, offset);
      && (r.NoMatches? <==> posts == [])
      && (r.CustomSummary? ==>
            && r.totalPosts == |posts| > 0
            && (r.stats.Some? <==> includeStats)
            && (r.insights.Some? <==> includeInsights))
      && (r.CustomSummary? && includeStats ==>
            && r.stats.value.authorCount == |Distinct(Authors(posts))|
            && SumBy(r.stats.value.categoryDistribution, ShareCount) == |posts|
            && SumBy(r.stats.value.timeDistribution, PeriodTotal) == |posts|)
      && (r.CustomSummary? && includeInsights ==>
            && Total(r.insights.value.temporalPatterns.hourlyPattern) == |posts|
            && |r.insights.value.topContent| == (if |posts| < 5 then |posts| else 5))
  {
    if posts != [] {
      CategoryDistributionFacts(posts);
      TimeDistributionFacts(posts, now);
      HourlyPatternFacts(ByLength(posts), offset);
    }
  }

  /**
   * The top content shows the longest posts, longest first: every post
   * strictly longer than the shortest one shown is shown.
   */
  lemma TopContentFacts(posts: seq<Post>)
    requires |posts| > 0
    ensures var top := TopContents(ByLength(posts));
      && 0 < |top| <= 5
      && NonIncreasing(top, ContentLength)
      && (forall i :: 0 <= i < |top| ==> exists p :: p in posts && top[i] == ToTopContent(p))
      && (forall p :: p in posts && TextLength(p) > top[|top| - 1].contentLength ==> ToTopContent(p) in top)
  {
    var sorted := ByLength(posts);
    var top := TopContents(sorted);
    forall i | 0 <= i < |top|
      ensures top[i] == ToTopContent(sorted[i]) && top[i].contentLength == TextLength(sorted[i])
    {
    }
    forall i | 0 <= i < |top|
      ensures exists p :: p in posts && top[i] == ToTopContent(p)
    {
      SortDescMembers(posts, TextLength, sorted[i]);
    }
    forall p | p in posts && TextLength(p) > top[|top| - 1].contentLength
      ensures ToTopContent(p) in top
    {
      SortDescMembers(posts, TextLength, p);
      var k :| 0 <= k < |sorted| && sorted[k] == p;
      assert k < |top|;
      assert top[k] == ToTopContent(p);
    }
  }
}
