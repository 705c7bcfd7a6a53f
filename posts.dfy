/**
 * The post record every part of the application reads: a row of the `posts`
 * table joined with its `categories` row, with `created_at` held as an integer
 * millisecond timestamp. The accessors below are the `x || default` idioms the
 * code applies to its optional fields.
 */
module Posts {
  import opened Wrappers
  import opened Collections

  /** The joined `categories (id, name)` row. */
  datatype CategoryRef = CategoryRef(id: string, name: string)

  datatype Post = Post(
    id: string,
    title: string,
    content: string,
    author: string,
    url: string,
    tags: Option<seq<string>>,
    images: Option<seq<string>>,
    createdAt: int,
    categoryId: Option<string>,
    categories: Option<CategoryRef>)

  /** The label used for posts without a category name. */
  const UNCATEGORIZED: string := "未分类"

  /** `ref?.name || '未分类'`: the joined name, unless it is missing or empty. */
  function LabelOfRef(ref: Option<CategoryRef>): (r: string)
    ensures r != ""
    ensures ref.Some? && ref.value.name != "" ==> r == ref.value.name
    ensures ref.None? || ref.value.name == "" ==> r == UNCATEGORIZED
  {
    if ref.Some? && ref.value.name != "" then ref.value.name else UNCATEGORIZED
  }

  /** `post.categories?.name || '未分类'`. */
  function Label(p: Post): string {
    LabelOfRef(p.categories)
  }

  /** `post.tags || []`. */
  function TagsOf(p: Post): seq<string> {
    p.tags.GetOr([])
  }

  /** The tags of all posts, in post order and then tag order: what a loop over `posts` and their tags visits. */
  function AllTags(posts: seq<Post>): seq<string> {
    if posts == [] then [] else AllTags(posts[..|posts| - 1]) + TagsOf(posts[|posts| - 1])
  }

  lemma AllTagsSnoc(posts: seq<Post>, p: Post)
    ensures AllTags(posts + [p]) == AllTags(posts) + TagsOf(p)
  {
    assert (posts + [p])[..|posts|] == posts;
  }

  /** Every tag of every post is among `AllTags`, and every entry of `AllTags` is a tag of some post. */
  lemma {:induction false} AllTagsMembers(posts: seq<Post>, t: string)
    ensures t in AllTags(posts) <==> exists i :: 0 <= i < |posts| && t in TagsOf(posts[i])
  {
    if posts != [] {
      var init := posts[..|posts| - 1];
      var last := posts[|posts| - 1];
      AllTagsMembers(init, t);
      assert posts == init + [last];
      if t in AllTags(posts) && t !in TagsOf(last) {
        assert t in AllTags(init);
        var i :| 0 <= i < |init| && t in TagsOf(init[i]);
        assert posts[i] == init[i];
      }
      if t !in AllTags(posts) {
        forall i | 0 <= i < |posts|
          ensures t !in TagsOf(posts[i])
        {
          if i < |init| {
            assert posts[i] == init[i];
          }
        }
      }
    }
  }

  /** `(post.title?.length || 0) + (post.content?.length || 0)`. */
  function TextLength(p: Post): int {
    |p.title| + |p.content|
  }

  /** `(post.tags?.length || 0)`. */
  function TagCount(p: Post): int {
    |TagsOf(p)|
  }

  function CreatedAt(p: Post): int {
    p.createdAt
  }

  function Author(p: Post): string {
    p.author
  }

  function Authors(posts: seq<Post>): (r: seq<string>)
    ensures |r| == |posts|
    ensures forall i :: 0 <= i < |posts| ==> r[i] == posts[i].author
  {
    seq(|posts|, i requires 0 <= i < |posts| => posts[i].author)
  }

  lemma AuthorsSnoc(posts: seq<Post>, p: Post)
    ensures Authors(posts + [p]) == Authors(posts) + [p.author]
  {
    forall i | 0 <= i < |posts|
      ensures Authors(posts + [p])[i] == Authors(posts)[i]
    {
      assert (posts + [p])[i] == posts[i];
    }
  }

  function Labels(posts: seq<Post>): (r: seq<string>)
    ensures |r| == |posts|
    ensures forall i :: 0 <= i < |posts| ==> r[i] == Label(posts[i])
  {
    seq(|posts|, i requires 0 <= i < |posts| => Label(posts[i]))
  }

  lemma LabelsSnoc(posts: seq<Post>, p: Post)
    ensures Labels(posts + [p]) == Labels(posts) + [Label(p)]
  {
    forall i | 0 <= i < |posts|
      ensures Labels(posts + [p])[i] == Labels(posts)[i]
    {
      assert (posts + [p])[i] == posts[i];
    }
  }

  function Dates(posts: seq<Post>): (r: seq<int>)
    ensures |r| == |posts|
    ensures forall i :: 0 <= i < |posts| ==> r[i] == posts[i].createdAt
  {
    seq(|posts|, i requires 0 <= i < |posts| => posts[i].createdAt)
  }

  lemma DatesSnoc(posts: seq<Post>, p: Post)
    ensures Dates(posts + [p]) == Dates(posts) + [p.createdAt]
  {
    forall i | 0 <= i < |posts|
      ensures Dates(posts + [p])[i] == Dates(posts)[i]
    {
      assert (posts + [p])[i] == posts[i];
    }
  }

  /** Milliseconds in an hour. */
  const HOUR_MS: int := 60 * 60 * 1000

  /**
   * `(now - created) / (1000 * 60 * 60) <= hours`, computed exactly: the post
   * is at most `hours` hours older than `now` (posts dated after `now` too).
   */
  predicate WithinHours(now: int, created: int, hours: nat) {
    now - created <= hours * HOUR_MS
  }

  /** A longer window holds every post of a shorter one. */
  lemma WithinHoursMonotone(now: int, created: int, h1: nat, h2: nat)
    requires h1 <= h2
    ensures WithinHours(now, created, h1) ==> WithinHours(now, created, h2)
  {
    MulMono(HOUR_MS, h1, h2);
    assert h1 * HOUR_MS == HOUR_MS * h1 && h2 * HOUR_MS == HOUR_MS * h2;
  }

  /** The `{ id, title, author, url, createdAt }` projection used for sample and highlighted posts. */
  datatype SamplePost = SamplePost(id: string, title: string, author: string, url: string, createdAt: int)

  function ToSample(p: Post): SamplePost {
    SamplePost(p.id, p.title, p.author, p.url, p.createdAt)
  }

  /** The projections of `posts.slice(0, n)`, in order. */
  function Samples(posts: seq<Post>, n: nat): (r: seq<SamplePost>)
    ensures |r| == |Take(posts, n)|
    ensures forall i :: 0 <= i < |r| ==> r[i] == ToSample(posts[i])
  {
    var front := Take(posts, n);
    seq(|front|, i requires 0 <= i < |front| => ToSample(front[i]))
  }

  // ---------------------------------------------------------------------------
  // Math.round on quotients of non-negative integers
  // ---------------------------------------------------------------------------

  /** `Math.round(p / q)` for `p >= 0` and `q > 0`: the integer nearest to `p/q`, halves rounded up. */
  function RoundDiv(p: nat, q: nat): (r: nat)
    requires q > 0
    ensures 2 * q * r <= 2 * p + q < 2 * q * (r + 1)
  {
    (2 * p + q) / (2 * q)
  }

  lemma MulMono(c: nat, a: int, b: int)
    requires a <= b
    ensures c * a <= c * b
  {
    if c > 0 {
      MulMono(c - 1, a, b);
    }
  }

  /** The rounded quotient is at most `k` when `p <= k*q`, and at least `k` when `p >= k*q`. */
  lemma RoundDivBounds(p: nat, q: nat, k: nat)
    requires q > 0
    ensures p <= k * q ==> RoundDiv(p, q) <= k
    ensures p >= k * q ==> RoundDiv(p, q) >= k
  {
    var r := RoundDiv(p, q);
    if r > k {
      MulMono(2 * q, k + 1, r);
    }
    if r < k {
      MulMono(2 * q, r + 1, k);
    }
  }

  /** `Math.round((count / total) * 100)`, a percentage in [0, 100] when `count <= total`. */
  function Percentage(count: nat, total: nat): (r: nat)
    requires total > 0
    ensures count <= total ==> r <= 100
    ensures count == total ==> r == 100
    ensures count == 0 ==> r == 0
  {
    RoundDivBounds(100 * count, total, 100);
    RoundDivBounds(100 * count, total, 0);
    RoundDiv(100 * count, total)
  }

  /** `f` applied to every element of `s`, in order. */
  function Measures<T>(s: seq<T>, f: T -> int): (r: seq<int>)
    ensures |r| == |s|
    ensures forall i :: 0 <= i < |s| ==> r[i] == f(s[i])
  {
    seq(|s|, i requires 0 <= i < |s| => f(s[i]))
  }

  /** `Math.round(s.reduce((sum, x) => sum + f(x), 0) / s.length)` for a non-negative measure `f`. */
  function RoundedMean<T>(s: seq<T>, f: T -> int): nat
    requires |s| > 0
    requires forall i :: 0 <= i < |s| ==> f(s[i]) >= 0
  {
    SumByNonNegative(s, f);
    RoundDiv(SumBy(s, f), |s|)
  }

  /** The rounded mean lies between the smallest and the largest measure. */
  lemma RoundedMeanBounds<T>(s: seq<T>, f: T -> int)
    requires |s| > 0
    requires forall i :: 0 <= i < |s| ==> f(s[i]) >= 0
    ensures MinOf(Measures(s, f)) <= RoundedMean(s, f) <= MaxOf(Measures(s, f))
  {
    var values := Measures(s, f);
    var lo := MinOf(values);
    var hi := MaxOf(values);
    SumByBounds(s, f, lo, hi);
    SumByNonNegative(s, f);
    assert lo >= 0 by {
      var i :| 0 <= i < |values| && values[i] == lo;
    }
    RoundDivBounds(SumBy(s, f), |s|, lo);
    RoundDivBounds(SumBy(s, f), |s|, hi);
  }
}
