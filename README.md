# xiaohongshu-scraper: a Dafny model of its classifier and statistics

This project models the logic of the xiaohongshu-scraper web application in
Dafny 4 and proves properties about it. The application scrapes posts, sorts
them into one of seven fixed categories and reports statistics about them. The
model covers:

- **The rule-based classifier** (`lib/categorization.ts`). Every one of the
  seven rules scores a lower-cased subject text: one point per keyword hit,
  three per matching pattern, plus a priority bonus. The stable sort of the
  results then picks the best rule. On this catalogue the `其他` fallback can
  never be reached, because the bonus is added before the `score > 0` test. The
  model proves this.
- **The summary helpers** (`lib/summarization.ts`). These are the grouping,
  counting, top-k, time-bucketing and min/max helpers behind
  `generateKeywordSummary`.
- **The `/api/summary` route.** This covers the `categories` and `trends`
  analyses, the custom report of the POST handler, and its helpers, from
  `getCategoryDistribution` to `generateTextSummary`.
- **The `/api/categorize` route.** This covers the request checks, the
  persistence loops with their success and failure counters, the statistics
  counter and the classification rate.
- **The pure helpers of the UI components.** These are the category-selection
  toggle, the post grid's filter and sort, the home page's filter, the preview
  truncation, the active-route test and the search-form guard.

Modelling choices:

- A post is a record whose `created_at` is an integer millisecond timestamp.
  Database queries become input sequences.
- `updatePostCategory` is a function parameter that returns whether the write
  succeeded.
- The current time, the local time-zone offset, an emoji test and a collation
  rank for titles are parameters.
- Loops that fill a JavaScript `Map` are methods with loop invariants, and each
  is proved equal to a specification function:
  - a `Map` counter becomes `Tally.CountKeys`, which is equal to `Tally.TallyOf`;
  - the grouping loops become `Tally.AccumulateBy`, which is equal to
    `Tally.Accumulated`.
- The stable `Array.prototype.sort` with a `b.x - a.x` comparator is
  `Sorting.SortDesc`. It is proved sorted, a permutation of its input, and
  stable within each key class.

The code is modelled as written. Some behaviour follows from that:

- When the one-category classifier is called with an empty title, content and
  tag list, it answers `美妆护肤` with confidence the rational 3.5/35.5.
- The classification rate is 0 for a fully classified corpus.
- The home page reads `categoriesWithPosts` from the stats response, although
  the stats handler never returns that field. Here the category entries are an
  input.

## Model

| member | source | states |
|---|---|---|
| Categorization.KeywordHitsMembers | lib/categorization.ts:161-167 | a keyword is reported exactly when it is one of the rule's keywords and its lower-cased form occurs in the subject; it is reported in its original case |
| Categorization.PatternHitsMembers | lib/categorization.ts:169-175 | a pattern source is reported exactly when a pattern of the rule with that source matches the subject |
| Categorization.Evaluate | lib/categorization.ts:156-194 | a rule's entry carries its score, and a positive score has confidence score / maxPossibleScore |
| Categorization.EvaluateRecorded | lib/categorization.ts:156-194 | a rule of priority below 8 always scores and is recorded with its id, name, hits and confidence score / maxPossibleScore |
| Categorization.ScoredResults | lib/categorization.ts:156-195 | the pushed entries are at most one per rule, and each has a positive score |
| Categorization.ScoreBounds | lib/categorization.ts:157-183 | every score lies between the rule's priority bonus and its maximal possible score |
| Categorization.ConfidenceBounds | lib/categorization.ts:183-184 | a confidence lies in (0, 1], and `Math.min(…, 1)` never changes it |
| Categorization.ScoreKeyExact | lib/categorization.ts:209 | twice a score is the integer the sort orders by, so ordering by it is ordering by score |
| Categorization.AllRulesRecorded | lib/categorization.ts:178-194 | with priorities below 8, every rule is pushed, in catalogue order |
| Categorization.CatalogueShape | lib/categorization.ts:23-129 | the catalogue has seven rules with priorities 1 to 7 in order, none of them named `其他` |
| Categorization.FirstBestRule | lib/categorization.ts:208-218 | the result belongs to a rule with the highest score, scoring strictly more than every earlier rule, and carries that rule's id, name, hits and confidence |
| Categorization.NeverFallback | lib/categorization.ts:197-206 | with this catalogue the `其他` fallback is never returned; the result is one of the seven rules |
| Categorization.EmptyInputRules | lib/categorization.ts:178-218 | on empty input every rule scores only its bonus, so the highest-priority rule wins with nothing matched |
| Categorization.EmptyInput | lib/categorization.ts:147-219 | `categorizeContent('', '', [])` is `美妆护肤` with confidence the rational 3.5/35.5 and no hits |
| Categorization.KeywordHitsMonotone | lib/categorization.ts:162-167 | a text containing every substring of another has at least as many keyword hits |
| Categorization.PatternHitsMonotone | lib/categorization.ts:170-175 | a text containing every substring of another has at least as many pattern hits |
| Categorization.AddTagMonotone | lib/categorization.ts:152-179 | adding a tag never lowers any rule's score |
| Categorization.ScoreRule | lib/categorization.ts:157-179 | one pass of the rule loop yields the rule's score, its keyword hits and its pattern hits |
| Categorization.RankRules | lib/categorization.ts:153-218 | the scoring loops, the in-place sort and `results[0]` compute the classification of the subject |
| Categorization.CategorizeContent | lib/categorization.ts:147-219 | `categorizeContent` returns the classification of `title content tags`, lower-cased |
| Categorization.BatchCategorize | lib/categorization.ts:226-246 | one entry per post, in input order, with the post's id and its classification; missing tags count as `[]` |
| Sorting.SortDesc | lib/categorization.ts:209 | the stable descending sort has the input's length and elements and never-increasing keys |
| Sorting.SortDescStable | lib/categorization.ts:209 | sorting keeps the relative order of elements with equal keys |
| Sorting.SortDescHead | lib/categorization.ts:209-210 | the first element after sorting is the first element with the largest key |
| Sorting.TakeSortDescTop | lib/summarization.ts:363-366 | an element left out of the first n of the sorted list means all n places are taken, each by an element with a key at least as large |
| Tally.CountKeys | lib/summarization.ts:353-361 | the `map.set(k, (map.get(k) \|\| 0) + 1)` loop produces the tally of the keys in insertion order |
| Tally.TallyOfFacts | lib/summarization.ts:353-361 | a tally lists each distinct key once, in first-appearance order, with its exact positive count; the counts add up to the number of keys |
| Tally.TopEntriesFacts | lib/summarization.ts:363-366 | the sorted, sliced tally holds the n most frequent keys, or all keys when there are fewer: distinct keys with exact counts that never increase, and no key left out occurs more often than a key kept; with n large enough they sum to all keys |
| Tally.SortedTallyFacts | lib/summarization.ts:353-366 | the whole tally sorted by count holds every key once with its exact positive count, adds up to all keys and never increases |
| Tally.TopKeysFacts | lib/summarization.ts:363-366 | the top n keys number min(n, distinct keys), are distinct, come in non-increasing order of occurrences, and no key left out occurs more often than a key kept |
| Collections.FilterConcat | app/page.tsx:150-152 | filtering a concatenation filters each part in turn |
| Collections.FilterCount | app/page.tsx:150-152 | a passing element is kept as many times as it occurs, a failing one never |
| Tally.AccumulateBy | lib/summarization.ts:152-165 | the grouping loop yields one entry per distinct key in insertion order, each the fold of that key's items |
| Tally.AccumulatedKeys | lib/summarization.ts:152-165 | the group keys are pairwise distinct, and each is exactly a key some item carries |
| Tally.GroupSizesSum | lib/summarization.ts:152-172 | group sizes add up to the number of items |
| Summarization.ExtractTopKeywords | lib/summarization.ts:353-367 | the counting loop, sort and slice compute `TopKeywords` |
| Summarization.TopKeywordsFacts | lib/summarization.ts:353-367 | the `limit` most frequent tags, or all tags when there are fewer: each once and each a tag of some post, by non-increasing count, no tag left out more frequent than a tag returned |
| Summarization.CategoryBucketFold | lib/summarization.ts:152-165 | a category entry holds the id and name of its first post and all its posts in order |
| Summarization.AnalyzeCategoryDistribution | lib/summarization.ts:144-201 | the grouping loop, the summary loop and the sort compute `CategoryDistribution` |
| Summarization.CategorySummaryAt | lib/summarization.ts:167-197 | the i-th summary before sorting describes the i-th distinct category id |
| Summarization.CategoryDistributionEntries | lib/summarization.ts:171-196 | each summary has its first post's name, its post count, the rounded percentage (at most 100), its five top tags and its first three posts |
| Summarization.CategoryDistributionTotals | lib/summarization.ts:168-200 | the post counts sum to the number of posts and never increase, with one summary per distinct category id |
| Summarization.KeywordAccFold | lib/summarization.ts:219-235 | a keyword entry counts its visits, holds their distinct labels and has the latest date |
| Summarization.AnalyzeKeywordFrequency | lib/summarization.ts:206-251 | the nested loops, the mapping, the sort and the slice compute `KeywordFrequency` |
| Summarization.KeywordSummaryAt | lib/summarization.ts:213-246 | the i-th entry before sorting is a distinct tag with its total occurrences, its distinct labels and its latest date |
| Summarization.KeywordCategories | lib/summarization.ts:215-230 | a tag's categories are exactly the labels of the posts carrying it, each once |
| Summarization.KeywordRecentUsage | lib/summarization.ts:216-235 | a tag's recentUsage is the latest `created_at` among the posts carrying it |
| Summarization.LatestUse | lib/summarization.ts:216-235 | the latest date among the visits of a tag is the latest `created_at` of a post carrying it, and some such post has it |
| Summarization.KeywordFrequencyShape | lib/summarization.ts:240-248 | the 20 most frequent tags, or all tags when there are fewer: each once, by non-increasing frequency, no tag left out more frequent than a tag returned |
| Summarization.KeywordFrequencyEntries | lib/summarization.ts:240-248 | every returned entry is one of the summarised tags |
| Summarization.AuthorAccFold | lib/summarization.ts:262-276 | an author entry counts the author's posts and holds their distinct labels |
| Summarization.AnalyzeAuthorStats | lib/summarization.ts:256-289 | the loop, the mapping, the sort and the slice compute `AuthorStatsOf` |
| Summarization.AuthorSummaryAt | lib/summarization.ts:262-284 | the i-th entry before sorting is a distinct author with their post count and distinct labels |
| Summarization.AuthorCategories | lib/summarization.ts:264-282 | an author's categories are exactly the labels of their posts |
| Summarization.AuthorStatsShape | lib/summarization.ts:278-286 | the 10 authors with the most posts, or all authors when there are fewer: each once, by non-increasing post count, no author left out with more posts than one returned, and totalEngagement equal to postCount |
| Summarization.AuthorStatsEntries | lib/summarization.ts:278-286 | every returned author is an author of the posts, with their exact post count |
| Summarization.FrameOf | lib/summarization.ts:431-441 | each post falls in one of four buckets |
| Summarization.FrameCountsSum | lib/summarization.ts:429-442 | the four bucket counts add up to the number of posts |
| Summarization.ActiveFramesFacts | lib/summarization.ts:444-445 | the kept buckets are increasing positions, exactly those with a positive count |
| Summarization.ActiveTotal | lib/summarization.ts:444-445 | dropping the empty buckets loses nothing from the total |
| Summarization.CountFrames | lib/summarization.ts:420-442 | the counting loop computes the four bucket counts |
| Summarization.CalculateTimeFrames | lib/summarization.ts:420-447 | the counting loop, the filter and the formatting compute `TimeFrames` |
| Summarization.TimeFramesFacts | lib/summarization.ts:420-447 | one line per non-empty bucket, in fixed bucket order, naming the bucket and its count |
| Summarization.FrameCountsTotal | lib/summarization.ts:429-446 | the counts of the reported buckets add up to the number of posts |
| Summarization.CalculateTimeRange | lib/summarization.ts:406-415 | earliest ≤ latest, both are dates of the input, and every date lies between them |
| Summarization.CommonPatternsFacts | lib/summarization.ts:372-401 | a pattern name is reported exactly when some post shows it, each at most once; no posts report nothing |
| Summarization.AverageContentLengthBounds | lib/summarization.ts:296-299 | the rounded mean text length lies between the shortest and the longest text |
| Summarization.GenerateContentInsights | lib/summarization.ts:294-348 | the loops and projections compute `ContentInsightsOf` |
| Summarization.TrendingAuthorsFacts | lib/summarization.ts:306-317 | the five authors with the most posts, or all when there are fewer: each once and each an author of some post, by non-increasing post count, no author left out with more posts than one listed |
| Summarization.HighPerformanceFacts | lib/summarization.ts:320-333 | the five highest-scoring posts, or all posts when there are fewer, projected by non-increasing score; no post left out scores higher than a post shown, and the first is the first post with the top score |
| Summarization.GenerateKeywordSummary | lib/summarization.ts:107-133 | the summary of the fetched posts, the empty summary when there are none |
| Summarization.KeywordReportFacts | lib/summarization.ts:107-133 | the summary counts the posts, has categories and authors exactly when there are posts, and its category counts add up to the number of posts |
| SummaryRoute.NameGroupFold | app/api/summary/route.ts:117-149 | the group built for a name holds its posts, their number, their distinct authors, their tag counts and their earliest and latest dates |
| SummaryRoute.AnalyzeCategories | app/api/summary/route.ts:116-174 | the grouping loop, the mapping and the sort compute `CategoryAnalysisOf` |
| SummaryRoute.CategoryAnalysisAt | app/api/summary/route.ts:151-174 | the i-th entry before sorting describes the i-th distinct name: its posts, first five authors, top ten tags, date range, first three posts and mean length |
| SummaryRoute.CategoryAnalysisEntry | app/api/summary/route.ts:151-174 | each entry's totalPosts is the number of posts carrying its name |
| SummaryRoute.CategoryAnalysisRange | app/api/summary/route.ts:141-149 | a group's time range is ordered, and both ends are dates of posts with that name |
| SummaryRoute.CategoryAnalysisTotals | app/api/summary/route.ts:116-174 | the group sizes add up to the number of rows and never increase, and no name appears twice |
| SummaryRoute.SegmentPosts | app/api/summary/route.ts:200-214 | the nested loop fills each of the three segments with the posts in its window |
| SummaryRoute.SegmentMembers | app/api/summary/route.ts:207-213 | a post is in a segment exactly when it is a row and falls in the window |
| SummaryRoute.SegmentNested | app/api/summary/route.ts:200-214 | a shorter window's segment is the longer window's segment restricted to the shorter window |
| SummaryRoute.AnalyzeTrends | app/api/summary/route.ts:200-252 | the segment loop and the three counting maps per segment compute `Trends` |
| SummaryRoute.TrendsNested | app/api/summary/route.ts:200-252 | each trend counts its window's posts; a post of the last 24 hours is also in the last 7 and 30 days, so the counts never decrease |
| SummaryRoute.GetCategoryDistribution | app/api/summary/route.ts:479-492 | the counting loop, sort and mapping compute `CategoryDistribution` |
| SummaryRoute.CategoryDistributionFacts | app/api/summary/route.ts:479-492 | one entry per label, `未分类` for a missing name; exact counts that sum to the number of posts, never increasing, with round(count·100/total) ≤ 100 |
| SummaryRoute.GetKeywordDistribution | app/api/summary/route.ts:494-505 | the nested counting loops, sort and slice compute `KeywordDistribution` |
| SummaryRoute.KeywordDistributionFacts | app/api/summary/route.ts:494-505 | the 20 most frequent tags, or all tags when there are fewer, distinct, with never-increasing counts, no tag left out more frequent than one listed, each count covering every occurrence of a tag of some post |
| SummaryRoute.GetTimeDistribution | app/api/summary/route.ts:507-534 | the four counters and the filter compute `TimeDistribution` |
| SummaryRoute.PeriodCountsFacts | app/api/summary/route.ts:531-533 | the kept periods are exactly the non-empty counters, in counter order, with their counts |
| SummaryRoute.TimeDistributionFacts | app/api/summary/route.ts:507-534 | one entry per non-empty period among 今天, 本周, 本月, 更早, with inclusive 24/168/720-hour thresholds; the counts sum to the number of posts |
| SummaryRoute.ContentPatternsFacts | app/api/summary/route.ts:536-543 | the tagged share is at most 100, is 100 when all posts are tagged and 0 when none is; the mean tag count lies between the fewest and the most |
| SummaryRoute.AnalyzeAuthorInsights | app/api/summary/route.ts:545-560 | the counter loop, sort, slice and rounded mean compute `AuthorInsightsOf` |
| SummaryRoute.AuthorInsightsFacts | app/api/summary/route.ts:545-560 | totalAuthors is the number of distinct authors (1 to the number of posts); the top authors are the five most prolific, or all when there are fewer, with exact, never-increasing counts, and no author left out has more posts than one listed; the average lies between 1 and the number of posts |
| SummaryRoute.HourOf | app/api/summary/route.ts:567-568 | the local hour of a timestamp lies in 0..23 |
| SummaryRoute.WeekDayOf | app/api/summary/route.ts:567-569 | the local weekday of a timestamp lies in 0..6 |
| SummaryRoute.BinsTotal | app/api/summary/route.ts:563-570 | with every key in range, the bins add up to the number of keys |
| SummaryRoute.AnalyzeTemporalPatterns | app/api/summary/route.ts:562-583 | filling the two arrays and finding the peaks compute `TemporalPatternsOf` |
| SummaryRoute.HourlyPatternFacts | app/api/summary/route.ts:562-583 | 24 hourly counts summing to the number of posts, bin b counting the posts of local hour b; the peak hour is the first index of the maximum |
| SummaryRoute.DailyPatternFacts | app/api/summary/route.ts:562-583 | 7 daily counts summing to the number of posts, bin b counting the posts of weekday b; the peak day is the first index of the maximum |
| SummaryRoute.GenerateTextSummary | app/api/summary/route.ts:585-604 | the `+=` sentence building computes `TextSummary` |
| SummaryRoute.TopCategoryFacts | app/api/summary/route.ts:587-597 | the named category is the most frequent label, and the first to appear among equally frequent ones |
| SummaryRoute.ByLength | app/api/summary/route.ts:441-442 | the in-place sort by title plus content length keeps the posts and orders them by non-increasing length |
| SummaryRoute.TopContents | app/api/summary/route.ts:441-451 | the first five sorted posts, projected |
| SummaryRoute.GenerateCustomReport | app/api/summary/route.ts:359-460 | the POST handler on the fetched rows computes `CustomReportOf` with `includeStats` and `includeInsights` defaulting to true when the body leaves them out |
| SummaryRoute.RequestFlag | app/api/summary/route.ts:359-360 | a flag the body leaves out is true; a flag the body gives keeps its value |
| SummaryRoute.CustomReportFacts | app/api/summary/route.ts:414-460 | no match exactly when there are no rows; otherwise the totals count the rows, stats and insights are present exactly when requested, and the stats' counts sum to the rows |
| SummaryRoute.TopContentFacts | app/api/summary/route.ts:441-451 | 1 to 5 entries from the posts, longest first; every post longer than the last one shown is shown |
| CategorizeRoute.HandleSingle | app/api/categorize/route.ts:49-80 | the check, the classifier call and the optional write compute `SingleOf` |
| CategorizeRoute.SingleFacts | app/api/categorize/route.ts:49-80 | 400 exactly when title and content are both missing or empty; otherwise the classification; a failed write gives 207 with the classification; `updated` only when a requested write succeeded |
| CategorizeRoute.SuccessesFailures | app/api/categorize/route.ts:136-140 | every attempt is counted as exactly one success or one failure |
| CategorizeRoute.RecordUpdates | app/api/categorize/route.ts:128-147 | a write is attempted for every result, failures included, and the counters count the successes and the failures |
| CategorizeRoute.HandleBatch | app/api/categorize/route.ts:82-170 | the batch branch computes `BatchOf` |
| CategorizeRoute.BatchFacts | app/api/categorize/route.ts:122-168 | processed = number of rows; with writes, successes and failures add up to it; without, every row is a success and none is marked updated; the first ten results are shown; the keyword defaults to `all` |
| CategorizeRoute.HandleReprocess | app/api/categorize/route.ts:172-218 | the reprocess branch computes `ReprocessOf` |
| CategorizeRoute.ReprocessFacts | app/api/categorize/route.ts:199-216 | updated ≤ processed, with equality exactly when every write succeeds |
| CategorizeRoute.FailuresNone | app/api/categorize/route.ts:202-210 | no failure exactly when every write succeeded |
| CategorizeRoute.HandlePostFacts | app/api/categorize/route.ts:49-225 | any `type` other than single, batch and reprocess is refused |
| CategorizeRoute.ClassificationRateFacts | app/api/categorize/route.ts:300-302 | the rate is 0 when either count is 0; otherwise it is round(100·c/(c+u)); it is at most 100 |
| CategorizeRoute.ComputeStats | app/api/categorize/route.ts:280-303 | the counting loop, the sort of the values and the rate compute `StatsOf` |
| CategorizeRoute.StatsFacts | app/api/categorize/route.ts:280-303 | one entry per name with its exact count, the counts adding up to the rows, never increasing |
| CategorizeRoute.HandleGetFacts | app/api/categorize/route.ts:247-339 | a missing or empty `type` means stats; anything but stats and categories is refused |
| CategoryFilter.Without | components/CategoryFilter.tsx:106 | removing an id keeps exactly the other ids |
| CategoryFilter.WithoutCount | components/CategoryFilter.tsx:106 | removing an id leaves every other id's number of occurrences unchanged |
| CategoryFilter.ToggleFacts | components/CategoryFilter.tsx:104-108 | after a toggle the id is selected exactly when it was not; an absent id is appended at the end; other ids are untouched; a duplicate-free selection stays duplicate-free |
| CategoryFilter.ToggleTwice | components/CategoryFilter.tsx:104-108 | toggling an unselected id twice gives back the original selection |
| CategoryFilter.SelectAll | components/CategoryFilter.tsx:111-114 | select-all gives every category id, in category order |
| CategoryFilter.TotalSelectedFacts | components/CategoryFilter.tsx:127-129 | the selected total is 0 for no selection, the full sum when every id is selected, and between 0 and the full sum for non-negative counts |
| CategoryFilter.DisplayedCountFacts | components/CategoryFilter.tsx:201-204 | clear-all and select-all both show the sum over all categories; a non-empty selection shows the selected total |
| CategoryFilter.ToggleSection | components/CategoryFilter.tsx:120-125 | exactly the named section flips; the other three are unchanged |
| CategoryFilter.ToggleSectionTwice | components/CategoryFilter.tsx:120-125 | toggling a section twice restores it |
| PostGrid.CategoryNamesFacts | components/PostGrid.tsx:44-48 | the buttons are the distinct non-empty category names, each once |
| PostGrid.ButtonCountNames | components/PostGrid.tsx:156-157 | a button's count is the number of posts carrying its name |
| PostGrid.ShownMembers | components/PostGrid.tsx:52-71 | a post is shown exactly when it has the selected name (unless 'all') and, for a non-blank query, the lowered untrimmed query occurs in its lowered title, content, author or a tag |
| PostGrid.ShownSubMultiset | components/PostGrid.tsx:52-71 | the filters add and duplicate no post: a post passing both filters is shown as many times as it occurs, any other post never |
| PostGrid.ShownOrder | components/PostGrid.tsx:52-71 | the filters keep the list order: the posts shown for two lists in turn are those shown for the first followed by those shown for the second |
| PostGrid.ShownButtonCounts | components/PostGrid.tsx:148-157 | with an empty query, 'all' shows every post and a category shows as many posts as its button count |
| PostGrid.ApplyFilters | components/PostGrid.tsx:51-87 | the result is a permutation of the filtered posts; newest gives non-increasing and oldest non-decreasing timestamps; title follows the collation rank; posts with equal sort keys keep their filtered order |
| HomePage.ToCategories | app/page.tsx:66-71 | each fetched category has its name as id, its count from the map value and an empty colour, in entry order |
| HomePage.ToCategoriesSelectAll | app/page.tsx:66-71 | selecting every fetched category selects the names, and the panel then shows the sum of the counts |
| HomePage.FilteredPostsFacts | app/page.tsx:148-152 | an empty selection shows every post; otherwise exactly the posts with a selected category name, each as many times as it occurs, never one without a category, none added or duplicated |
| HomePage.FilteredPostsOrder | app/page.tsx:148-152 | the filter keeps the list order: the posts shown for two lists in turn are those of the first followed by those of the second, and a single post is shown exactly when the selection is empty or includes its category name |
| HomePage.FilteredPostsToggleAdd | app/page.tsx:149-153 | adding a category to a non-empty selection brings in only posts of that category |
| HomePage.MergeScraped | app/page.tsx:127-129 | scraped posts go in front of the earlier list; without them the list is unchanged |
| PostCard.Truncate | components/PostCard.tsx:58-61 | a short text is unchanged; a longer one becomes its first maxLength characters followed by `...`, of length maxLength + 3 |
| PostCard.TruncateFacts | components/PostCard.tsx:58-61 | a preview has at most maxLength + 3 characters, begins with the text it cuts, and truncating it again changes nothing |
| PostCard.ShownTags | components/PostCard.tsx:108 | at most six tags are listed, the first ones |
| PostCard.TagOverflow | components/PostCard.tsx:117-121 | the badge is present exactly when there are more than six tags, and listed tags plus the badge number account for all of them |
| PostCard.ImageOverflow | components/PostCard.tsx:76-80 | the badge is present only with more than one image and shows the number of images beyond the cover |
| Navigation.IsActiveRouteFacts | components/Navigation.tsx:59-64 | `/` is active exactly on `/`; any other href is active exactly on paths starting with it; no pathname makes nothing active; every href is active on its own path |
| Navigation.PrefixNotSegmentAware | components/Navigation.tsx:63 | `/search` is active on `/searchx` |
| Navigation.AtMostOneActive | components/Navigation.tsx:26-64 | on any path at most one menu item is active |
| SearchForm.Submit | components/SearchForm.tsx:16-21 | `onSearch` is called exactly when the keyword is not blank, with the trimmed keyword and the current limit |
| SearchForm.SubmitFacts | components/SearchForm.tsx:14-68 | an enabled button always reaches `onSearch`; submitting the passed keyword again passes the same; the initial form is disabled, and its default limit 10 is one of the options 5, 10, 20, 50 |
| Text.Trim | components/SearchForm.tsx:18-19 | `trim` returns the slice of its input between a leading and a trailing run of whitespace; it is empty exactly for a blank input and otherwise begins and ends with non-whitespace |
| Text.TrimIdempotent | components/SearchForm.tsx:18-19 | trimming an already trimmed keyword changes nothing |
| Text.Lower | lib/categorization.ts:152 | `toLowerCase` keeps the length and lowers each character on its own; what this means for the callers is in LowerIdempotent, LowerAppend and ContainsLower |
| Text.LowerIdempotent | lib/categorization.ts:152-163 | lowering a lowered text changes nothing |
| Text.OrDefault | lib/summarization.ts:154 | a `value \|\| fallback` gives the value when it is present and non-empty, and the fallback otherwise |
| Posts.LabelOfRef | app/api/summary/route.ts:482 | the label of a post is its category name when present and non-empty, and `未分类` otherwise; it is never empty |
| Posts.RoundDiv | lib/summarization.ts:299 | `Math.round(p / q)` is the integer nearest to p/q, halves rounded up |
| Posts.RoundDivBounds | lib/summarization.ts:299 | the rounded quotient is at most k when p ≤ k·q and at least k when p ≥ k·q |
| Posts.Percentage | lib/summarization.ts:173 | a rounded share of a total is at most 100, is 100 for the whole and 0 for nothing |
| Posts.WithinHoursMonotone | app/api/summary/route.ts:518-528 | a post within a shorter age window is within every longer one |

## Left out

- Supabase access is not modelled. Every query becomes an input sequence of rows, including its filters, ordering and limit. This covers the count queries of `generateOverallStats`, `getCategoryUUID` and the database test scripts.
- `updatePostCategory` is not modelled. It becomes a deterministic function-typed parameter returning whether the write succeeded.
- HTTP and Next.js plumbing (responses, status codes other than the modelled 207 and 400, CORS, OPTIONS, `maxDuration`) is not modelled: it is framework code.
- The `Date.now() - startTime > 250000` timeout checks are effectively dead code and are not modelled.
- Error paths that forward a Supabase error (status 500) are not modelled: their inputs are database failures.
- Concurrency is not modelled. The `keywords` case of `GET /api/summary` fans out with `Promise.all`, and it is left out with the `overall` and `keyword` cases of that GET, which are query plumbing around `generateKeywordSummary` and `generateOverallStats`.
- Date parsing is not modelled. Timestamps are integers; `Date.now()` is a `now` parameter, and `EmptySummary` uses that one `now` for both ends of its range.
- `getHours` and `getDay` use a fixed time-zone offset. Daylight-saving changes are not modelled.
- `toISOString` and `toLocaleString` text formats are not modelled.
- `toLowerCase` is modelled as ASCII case mapping only. Chinese text has no case; other scripts' case mappings are not modelled.
- Strings are sequences of code points; JavaScript's UTF-16 lengths differ for characters outside the Basic Multilingual Plane.
- `Math.round` on floats is modelled as exact rounding of a rational, half up. Float rounding at .5 boundaries is not modelled.
- Categorization.Evaluate, Categorization.ScoreRule and Categorization.EmptyInput: the confidence is the exact rational score / maxPossibleScore. The double rounding of that quotient is not modelled. Scores are multiples of 0.5 and are exact as doubles, so the ranking comparison is unaffected.
- `localeCompare(…, 'zh-CN')` in the post grid's title sort is not modelled; it is a `titleRank` parameter whose order the sort follows.
- The emoji-range regex of `extractCommonPatterns` is not modelled; it is a `hasEmoji` parameter.
- The literal-alternation regexes are modelled as substring tests.
- The in-place sorts (`results.sort`, `posts.sort`, `filtered.sort`) are modelled as reassignments of a sequence with the stably sorted one. The POST handler's `posts.sort` is a reordering that the later text summary sees; this is modelled, but aliasing beyond that is not.
- `forEach` loops over nested arrays are modelled as one loop over the flattened sequence of visits, in the same order.
- Categorization.CategorizeContent: the `其他` fallback branch is modelled, but it is provably unreachable with this catalogue.
- The POST /api/summary response echoes its `filters` object, which is not modelled: it only copies the request.
- CategorizeRoute.SingleFacts: `updated: postId && updateDatabase` is modelled as a boolean; the JavaScript value is the id string or a falsy value.
- A `null` or missing `title` or `content` is not modelled: both fields are strings, so the guards `post.title?.length || 0` and `post.content?.length || 0` reduce to the lengths, and the template literals that would render a missing value as `null` or `undefined` always render the text.
- Batch inputs with `null` tags are not modelled: `batchCategorize` would throw at `tags.join`. A missing `tags` field is modelled as `[]`.
- React rendering, hooks, effects scheduling, the mobile menu toggle, `components/Dashboard.tsx`, `components/ErrorBoundary.tsx`, the scrape mock and the debug route are not modelled.
- The post grid's `default: return 0` comparator branch is not modelled: the sort option is a closed datatype of three cases.
- The formatting of dates in `PostCard` and the colour tables of `PostCard` and `PostGrid` are not modelled.
