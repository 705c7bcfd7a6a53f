/**
 * `app/api/categorize/route.ts`: the request checks and the persistence loops
 * around the classifier, and the classification statistics. The database
 * rows are inputs and `updatePostCategory(postId, categoryName, confidence)`
 * is the oracle `update`, which answers whether the write succeeded.
 */
module CategorizeRoute {
  import opened Wrappers
  import opened Text
  import opened Collections
  import opened Sorting
  import opened Tally
  import opened Posts
  import opened Categorization

  /** The classifier's persistence call: `true` when the row was updated. */
  type Updater = (string, string, real) -> bool

  // ---------------------------------------------------------------------------
  // type === 'single'
  // ---------------------------------------------------------------------------

  datatype SingleRequest = SingleRequest(
    postId: Option<string>,
    title: Option<string>,
    content: Option<string>,
    tags: Option<seq<string>>,
    updateDatabase: bool)

  datatype SingleResponse =
    | MissingText                                                     // 400
    | UpdateFailed(classification: CategorizationResult)              // 207
    | Classified(classification: CategorizationResult, updated: bool) // 200

  /** Whether the request asks for the row to be written: `postId && updateDatabase`. */
  predicate WantsUpdate(req: SingleRequest) {
    Truthy(req.postId) && req.updateDatabase
  }

  function SingleClassification(req: SingleRequest): CategorizationResult {
    Categorize(OrDefault(req.title, ""), OrDefault(req.content, ""), req.tags.GetOr([]))
  }

  /** The `single` branch. */
  function SingleOf(req: SingleRequest, update: Updater): SingleResponse {
    if !Truthy(req.title) && !Truthy(req.content) then MissingText
    else
      var result := SingleClassification(req);
      if WantsUpdate(req) && !update(req.postId.value, result.categoryName, result.confidence) then UpdateFailed(result)
      else Classified(result, WantsUpdate(req))
  }

  /** The check, the classifier call and the optional write, in that order. */
  method HandleSingle(req: SingleRequest, update: Updater) returns (r: SingleResponse)
    ensures r == SingleOf(req, update)
  {
    if !Truthy(req.title) && !Truthy(req.content) {
      return MissingText;
    }
    var result := CategorizeContent(OrDefault(req.title, ""), OrDefault(req.content, ""), req.tags.GetOr([]));
    if Truthy(req.postId) && req.updateDatabase {
      var success := update(req.postId.value, result.categoryName, result.confidence);
      if !success {
        return UpdateFailed(result);
      }
    }
    r := Classified(result, Truthy(req.postId) && req.updateDatabase);
  }

  /**
   * 400 exactly when both title and content are missing or empty; otherwise
   * the classification of the text, kept in the 207 response when the write
   * fails, and `updated` only when a requested write succeeded.
   */
  lemma SingleFacts(req: SingleRequest, update: Updater)
    ensures SingleOf(req, update).MissingText? <==> !Truthy(req.title) && !Truthy(req.content)
    ensures !SingleOf(req, update).MissingText? ==> SingleOf(req, update).classification == SingleClassification(req)
    ensures SingleOf(req, update).UpdateFailed? ==> WantsUpdate(req)
    ensures SingleOf(req, update).Classified? && SingleOf(req, update).updated ==>
              WantsUpdate(req) && update(req.postId.value, SingleClassification(req).categoryName, SingleClassification(req).confidence)
    ensures SingleOf(req, update).Classified? && !SingleOf(req, update).updated ==> !WantsUpdate(req)
  {
  }

  // ---------------------------------------------------------------------------
  // The per-post results of `batch` and `reprocess`
  // ---------------------------------------------------------------------------

  /** `{ postId, classification, updated }`. */
  datatype PostResult = PostResult(postId: string, classification: CategorizationResult, updated: bool)

  /** `batchCategorize(posts)`: one classification per row, in row order. */
  function Classifications(posts: seq<BatchItem>): (r: seq<BatchEntry>)
    ensures |r| == |posts|
    ensures forall i :: 0 <= i < |posts| ==>
              r[i] == BatchEntry(posts[i].id, Categorize(posts[i].title, posts[i].content, posts[i].tags.GetOr([])))
  {
    seq(|posts|, i requires 0 <= i < |posts| =>
      BatchEntry(posts[i].id, Categorize(posts[i].title, posts[i].content, posts[i].tags.GetOr([]))))
  }

  /** The result of one write attempt. */
  function Attempt(e: BatchEntry, update: Updater): PostResult {
    PostResult(e.id, e.category, update(e.id, e.category.categoryName, e.category.confidence))
  }

  function Attempted(entries: seq<BatchEntry>, update: Updater): (r: seq<PostResult>)
    ensures |r| == |entries|
    ensures forall i :: 0 <= i < |entries| ==> r[i] == Attempt(entries[i], update)
  {
    seq(|entries|, i requires 0 <= i < |entries| => Attempt(entries[i], update))
  }

  /** The results when nothing is written: `updated: false` throughout. */
  function Unsaved(entries: seq<BatchEntry>): (r: seq<PostResult>)
    ensures |r| == |entries|
    ensures forall i :: 0 <= i < |entries| ==> r[i] == PostResult(entries[i].id, entries[i].category, false)
  {
    seq(|entries|, i requires 0 <= i < |entries| => PostResult(entries[i].id, entries[i].category, false))
  }

  /** The number of results whose write succeeded. */
  function Successes(rs: seq<PostResult>): nat {
    if rs == [] then 0 else Successes(rs[..|rs| - 1]) + (if rs[|rs| - 1].updated then 1 else 0)
  }

  /** The number of results whose write failed. */
  function Failures(rs: seq<PostResult>): nat {
    if rs == [] then 0 else Failures(rs[..|rs| - 1]) + (if rs[|rs| - 1].updated then 0 else 1)
  }

  /** Every attempt either succeeds or fails. */
  lemma {:induction false} SuccessesFailures(rs: seq<PostResult>)
    ensures Successes(rs) + Failures(rs) == |rs|
  {
    if rs != [] {
      SuccessesFailures(rs[..|rs| - 1]);
    }
  }

  lemma SuccessesSnoc(rs: seq<PostResult>, i: nat)
    requires i < |rs|
    ensures Successes(rs[..i + 1]) == Successes(rs[..i]) + (if rs[i].updated then 1 else 0)
    ensures Failures(rs[..i + 1]) == Failures(rs[..i]) + (if rs[i].updated then 0 else 1)
  {
    assert rs[..i + 1][..i] == rs[..i];
  }

  /**
   * The `for ... of batchResults` loop: a write is attempted for every result,
   * failures included, and each outcome is counted and recorded.
   */
  method RecordUpdates(entries: seq<BatchEntry>, update: Updater)
    returns (results: seq<PostResult>, successCount: nat, failureCount: nat)
    ensures results == Attempted(entries, update)
    ensures successCount == Successes(results)
    ensures failureCount == Failures(results)
  {
    results := [];
    successCount, failureCount := 0, 0;
    for i := 0 to |entries|
      invariant results == Attempted(entries, update)[..i]
      invariant successCount == Successes(results)
      invariant failureCount == Failures(results)
    {
      var result := entries[i];
      var success := update(result.id, result.category.categoryName, result.category.confidence);
      SuccessesSnoc(Attempted(entries, update), i);
      PrefixSnoc(Attempted(entries, update), i);
      if success {
        successCount := successCount + 1;
      } else {
        failureCount := failureCount + 1;
      }
      results := results + [PostResult(result.id, result.category, success)];
    }
    assert Attempted(entries, update)[..|entries|] == Attempted(entries, update);
  }

  // ---------------------------------------------------------------------------
  // type === 'batch'
  // ---------------------------------------------------------------------------

  datatype BatchResponse =
    | NothingToClassify
    | BatchDone(
        processed: nat,
        successCount: nat,
        failureCount: nat,
        results: seq<PostResult>,
        databaseUpdated: bool,
        keyword: string)

  /** The full `results` list, before the response keeps its first ten. */
  function BatchResults(posts: seq<BatchItem>, updateDatabase: bool, update: Updater): seq<PostResult> {
    if updateDatabase then Attempted(Classifications(posts), update) else Unsaved(Classifications(posts))
  }

  /** The `batch` branch on the rows the query returned. */
  function BatchOf(posts: seq<BatchItem>, updateDatabase: bool, keyword: Option<string>, update: Updater): BatchResponse {
    if posts == [] then NothingToClassify
    else
      var results := BatchResults(posts, updateDatabase, update);
      var successCount := if updateDatabase then Successes(results) else |posts|;
      var failureCount := if updateDatabase then Failures(results) else 0;
      BatchDone(|posts|, successCount, failureCount, Take(results, 10), updateDatabase, OrDefault(keyword, "all"))
  }

  method HandleBatch(posts: seq<BatchItem>, updateDatabase: bool, keyword: Option<string>, update: Updater)
    returns (r: BatchResponse)
    ensures r == BatchOf(posts, updateDatabase, keyword, update)
  {
    if |posts| == 0 {
      return NothingToClassify;
    }
    var batchResults := BatchCategorize(posts);
    assert batchResults == Classifications(posts);
    var results: seq<PostResult>;
    var successCount: nat, failureCount: nat := 0, 0;
    if updateDatabase {
      results, successCount, failureCount := RecordUpdates(batchResults, update);
    } else {
      results := Unsaved(batchResults);
      successCount := |batchResults|;
    }
    r := BatchDone(|posts|, successCount, failureCount, Take(results, 10), updateDatabase, OrDefault(keyword, "all"));
  }

  /**
   * Every row is processed; with writes, every write is attempted and the
   * successes and failures add up to the number of rows; without, every row
   * counts as a success and nothing is marked updated. The response shows
   * the first ten results in row order.
   */
  lemma BatchFacts(posts: seq<BatchItem>, updateDatabase: bool, keyword: Option<string>, update: Updater)
    requires posts != []
    ensures var r := BatchOf(posts, updateDatabase, keyword, update);
      var all := BatchResults(posts, updateDatabase, update);
      && r.BatchDone?
      && r.processed == |posts| == |all|
      && r.successCount + r.failureCount == |posts|
      && r.results == Take(all, 10)
      && (forall i :: 0 <= i < |posts| ==>
            && all[i].postId == posts[i].id
            && all[i].classification == Categorize(posts[i].title, posts[i].content, posts[i].tags.GetOr([])))
      && (updateDatabase ==> forall i :: 0 <= i < |posts| ==>
            all[i].updated == update(posts[i].id, all[i].classification.categoryName, all[i].classification.confidence))
      && (!updateDatabase ==>
            && r.successCount == |posts|
            && r.failureCount == 0
            && forall i :: 0 <= i < |posts| ==> !all[i].updated)
  {
    var entries := Classifications(posts);
    var all := BatchResults(posts, updateDatabase, update);
    SuccessesFailures(all);
    forall i | 0 <= i < |posts|
      ensures all[i].postId == posts[i].id && all[i].classification == entries[i].category
      ensures updateDatabase ==> all[i] == Attempt(entries[i], update)
      ensures !updateDatabase ==> !all[i].updated
    {
    }
  }

  // ---------------------------------------------------------------------------
  // type === 'reprocess'
  // ---------------------------------------------------------------------------

  datatype ReprocessResponse =
    | NothingToReprocess
    | Reprocessed(processed: nat, updated: nat, message: string)

  function ReprocessMessage(updated: nat, processed: nat): string {
    "重新分类完成：" + NatToString(updated) + "/" + NatToString(processed) + " 成功更新"
  }

  /** The `reprocess` branch on the unclassified or low-confidence rows. */
  function ReprocessOf(posts: seq<BatchItem>, update: Updater): ReprocessResponse {
    if posts == [] then NothingToReprocess
    else
      var updated := Successes(Attempted(Classifications(posts), update));
      Reprocessed(|posts|, updated, ReprocessMessage(updated, |posts|))
  }

  method HandleReprocess(posts: seq<BatchItem>, update: Updater) returns (r: ReprocessResponse)
    ensures r == ReprocessOf(posts, update)
  {
    if |posts| == 0 {
      return NothingToReprocess;
    }
    var batchResults := BatchCategorize(posts);
    assert batchResults == Classifications(posts);
    var attempts := Attempted(batchResults, update);
    var successCount := 0;
    for i := 0 to |batchResults|
      invariant successCount == Successes(attempts[..i])
    {
      var result := batchResults[i];
      var success := update(result.id, result.category.categoryName, result.category.confidence);
      SuccessesSnoc(attempts, i);
      if success {
        successCount := successCount + 1;
      }
    }
    assert attempts[..|batchResults|] == attempts;
    r := Reprocessed(|posts|, successCount, ReprocessMessage(successCount, |posts|));
  }

  /** At most every processed row is updated; all of them exactly when every write succeeds. */
  lemma ReprocessFacts(posts: seq<BatchItem>, update: Updater)
    requires posts != []
    ensures var r := ReprocessOf(posts, update);
      && r.Reprocessed?
      && r.processed == |posts|
      && r.updated <= r.processed
      && (r.updated == r.processed <==> forall i :: 0 <= i < |posts| ==> Attempted(Classifications(posts), update)[i].updated)
  {
    var rs := Attempted(Classifications(posts), update);
    SuccessesFailures(rs);
    FailuresNone(rs);
  }

  /** No failure recorded exactly when every write succeeded. */
  lemma {:induction false} FailuresNone(rs: seq<PostResult>)
    ensures Failures(rs) == 0 <==> forall i :: 0 <= i < |rs| ==> rs[i].updated
  {
    if rs != [] {
      var init := rs[..|rs| - 1];
      FailuresNone(init);
      assert forall i :: 0 <= i < |init| ==> init[i] == rs[i];
    }
  }

  // ---------------------------------------------------------------------------
  // Dispatch on `type`
  // ---------------------------------------------------------------------------

  datatype CategorizeResponse =
    | SingleResult(single: SingleResponse)
    | BatchResult(batch: BatchResponse)
    | ReprocessResult(reprocess: ReprocessResponse)
    | InvalidType   // 400

  /**
   * `POST /api/categorize`. `batchRows` and `reprocessRows` are what the two
   * queries return; only the branch that `type` selects reads its input.
   */
  function HandlePost(kind: string, req: SingleRequest, keyword: Option<string>,
                      batchRows: seq<BatchItem>, reprocessRows: seq<BatchItem>, update: Updater): CategorizeResponse
  {
    if kind == "single" then SingleResult(SingleOf(req, update))
    else if kind == "batch" then BatchResult(BatchOf(batchRows, req.updateDatabase, keyword, update))
    else if kind == "reprocess" then ReprocessResult(ReprocessOf(reprocessRows, update))
    else InvalidType
  }

  /** A `type` other than single, batch and reprocess is refused. */
  lemma HandlePostFacts(kind: string, req: SingleRequest, keyword: Option<string>,
                        batchRows: seq<BatchItem>, reprocessRows: seq<BatchItem>, update: Updater)
    ensures HandlePost(kind, req, keyword, batchRows, reprocessRows, update).InvalidType?
        <==> kind !in ["single", "batch", "reprocess"]
  {
  }

  // ---------------------------------------------------------------------------
  // GET ?type=stats
  // ---------------------------------------------------------------------------

  /**
   * `classificationRate`: the classified share of all posts, rounded, but 0
   * whenever either count is 0 — a fully classified corpus reports 0.
   */
  function ClassificationRate(classified: nat, unclassified: nat): nat {
    if classified > 0 && unclassified > 0 then Percentage(classified, classified + unclassified) else 0
  }

  lemma ClassificationRateFacts(classified: nat, unclassified: nat)
    ensures classified == 0 || unclassified == 0 ==> ClassificationRate(classified, unclassified) == 0
    ensures classified > 0 && unclassified > 0 ==>
              ClassificationRate(classified, unclassified) == RoundDiv(100 * classified, classified + unclassified)
    ensures ClassificationRate(classified, unclassified) <= 100
  {
  }

  datatype ClassificationStats = ClassificationStats(
    totalPosts: nat,
    unclassifiedPosts: nat,
    categories: seq<Entry<string>>,
    classificationRate: nat)

  /** The names of the rows with a category, `post.categories?.name || '未分类'`. */
  function RowNames(rows: seq<Option<CategoryRef>>): (r: seq<string>)
    ensures |r| == |rows|
    ensures forall i :: 0 <= i < |rows| ==> r[i] == LabelOfRef(rows[i])
  {
    seq(|rows|, i requires 0 <= i < |rows| => LabelOfRef(rows[i]))
  }

  /**
   * The statistics on the rows with a `category_id` and the count of the rows
   * without one (`null` read as 0).
   */
  function StatsOf(rows: seq<Option<CategoryRef>>, unclassifiedCount: Option<nat>): ClassificationStats {
    var unclassified := unclassifiedCount.GetOr(0);
    ClassificationStats(|rows|, unclassified, SortDesc(TallyOf(RowNames(rows)), EntryCount),
                        ClassificationRate(|rows|, unclassified))
  }

  /** The counting loop over the rows, the sort of the map's values and the rate. */
  method ComputeStats(rows: seq<Option<CategoryRef>>, unclassifiedCount: Option<nat>) returns (r: ClassificationStats)
    ensures r == StatsOf(rows, unclassifiedCount)
  {
    var stats := CountKeys(RowNames(rows));
    var unclassified := unclassifiedCount.GetOr(0);
    r := ClassificationStats(|rows|, unclassified, SortDesc(stats, EntryCount), ClassificationRate(|rows|, unclassified));
  }

  /** One entry per name with its exact count, the counts adding up to the rows, most frequent first. */
  lemma StatsFacts(rows: seq<Option<CategoryRef>>, unclassifiedCount: Option<nat>)
    ensures var r := StatsOf(rows, unclassifiedCount);
      && SumBy(r.categories, EntryCount) == r.totalPosts == |rows|
      && NonIncreasing(r.categories, EntryCount)
      && NoDups(Keys(r.categories))
      && (forall e :: e in r.categories ==> e.count == Count(RowNames(rows), e.key) > 0)
      && (forall i :: 0 <= i < |rows| ==> LabelOfRef(rows[i]) in Keys(r.categories))
      && r.classificationRate <= 100
  {
    var names := RowNames(rows);
    SortedTallyFacts(names);
    forall i | 0 <= i < |rows|
      ensures LabelOfRef(rows[i]) in Keys(StatsOf(rows, unclassifiedCount).categories)
    {
      assert names[i] == LabelOfRef(rows[i]);
    }
  }

  datatype StatsResponse =
    | StatsResult(stats: ClassificationStats)
    | CategoryList(categories: seq<CategoryRef>)
    | InvalidQuery   // 400

  /** `GET /api/categorize`; `type` defaults to `stats`. */
  function HandleGet(kind: Option<string>, rows: seq<Option<CategoryRef>>, unclassifiedCount: Option<nat>,
                     catalogue: seq<CategoryRef>): StatsResponse
  {
    var k := OrDefault(kind, "stats");
    if k == "stats" then StatsResult(StatsOf(rows, unclassifiedCount))
    else if k == "categories" then CategoryList(catalogue)
    else InvalidQuery
  }

  /** A missing or empty `type` means stats; anything but stats and categories is refused. */
  lemma HandleGetFacts(kind: Option<string>, rows: seq<Option<CategoryRef>>, unclassifiedCount: Option<nat>,
                       catalogue: seq<CategoryRef>)
    ensures !Truthy(kind) ==> HandleGet(kind, rows, unclassifiedCount, catalogue).StatsResult?
    ensures HandleGet(kind, rows, unclassifiedCount, catalogue).InvalidQuery?
        <==> Truthy(kind) && kind.value != "stats" && kind.value != "categories"
  {
  }
}
