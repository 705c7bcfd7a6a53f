/**
 * The rule-based classifier of `lib/categorization.ts`: a fixed catalogue of
 * seven categories, each with keywords, literal-alternation patterns and a
 * priority; a text is scored against every rule and the best-scoring rule is
 * returned with a confidence and the keywords and patterns that matched.
 */
module Categorization {
  import opened Wrappers
  import opened Text
  import opened Collections
  import opened Sorting

  // ---------------------------------------------------------------------------
  // Catalogue
  // ---------------------------------------------------------------------------

  /** A catalogue word: a keyword or a pattern alternative, never empty and never starting with a space. */
  type Word = w: string | |w| > 0 && w[0] != ' ' witness "x"

  /**
   * A regular expression of the form `/a|b|c/i`: a plain alternation of
   * literals. It matches a text exactly when one alternative occurs in it,
   * ignoring case.
   */
  datatype Pattern = Pattern(alternatives: seq<Word>)

  /** `pattern.source`: the alternatives joined by `|`. */
  function Source(p: Pattern): string {
    Join(p.alternatives, "|")
  }

  /** `pattern.test(text)` for a case-insensitive literal alternation without the `g` flag. */
  predicate Test(p: Pattern, text: string) {
    exists k | 0 <= k < |p.alternatives| :: Contains(Lower(text), Lower(p.alternatives[k]))
  }

  datatype CategoryRule = CategoryRule(
    id: string,
    name: string,
    keywords: seq<Word>,
    contentPatterns: seq<Pattern>,
    priority: int)

  const BEAUTY_KEYWORDS: seq<Word> := [
    "护肤", "美妆", "化妆", "面膜", "精华", "防晒", "卸妆", "洁面",
    "保湿", "美白", "抗老", "祛痘", "眼霜", "乳液", "面霜", "口红",
    "彩妆", "粉底", "遮瑕", "眉毛", "眼影", "腮红", "指甲油"]
  const BEAUTY_PATTERNS: seq<Pattern> := [
    Pattern(["护肤", "美妆", "化妆", "彩妆"]),
    Pattern(["面膜", "精华", "防晒", "卸妆"]),
    Pattern(["口红", "粉底", "眼影", "腮红"])]

  const FASHION_KEYWORDS: seq<Word> := [
    "穿搭", "时尚", "服装", "搭配", "衣服", "裤子", "裙子", "鞋子",
    "包包", "配饰", "首饰", "手表", "帽子", "围巾", "外套", "毛衣",
    "连衣裙", "牛仔裤", "高跟鞋", "运动鞋", "靴子"]
  const FASHION_PATTERNS: seq<Pattern> := [
    Pattern(["穿搭", "时尚", "服装", "搭配"]),
    Pattern(["衣服", "裤子", "裙子", "鞋子"]),
    Pattern(["包包", "配饰", "首饰"])]

  const FOOD_KEYWORDS: seq<Word> := [
    "美食", "料理", "菜谱", "做饭", "烹饪", "餐厅", "小吃", "甜品",
    "蛋糕", "面包", "火锅", "烧烤", "炒菜", "汤", "粥", "面条",
    "饺子", "包子", "披萨", "寿司", "咖啡", "奶茶", "饮品"]
  const FOOD_PATTERNS: seq<Pattern> := [
    Pattern(["美食", "料理", "菜谱", "做饭", "烹饪"]),
    Pattern(["餐厅", "小吃", "甜品", "蛋糕"]),
    Pattern(["火锅", "烧烤", "炒菜", "面条"])]

  const TRAVEL_KEYWORDS: seq<Word> := [
    "旅游", "旅行", "游记", "攻略", "景点", "酒店", "民宿", "机票",
    "自驾", "徒步", "爬山", "海边", "古镇", "城市", "国外", "国内",
    "拍照", "风景", "文化", "历史", "博物馆", "寺庙"]
  const TRAVEL_PATTERNS: seq<Pattern> := [
    Pattern(["旅游", "旅行", "游记", "攻略"]),
    Pattern(["景点", "酒店", "民宿"]),
    Pattern(["自驾", "徒步", "爬山", "海边"])]

  const LIFESTYLE_KEYWORDS: seq<Word> := [
    "生活", "日常", "家居", "装修", "收纳", "清洁", "植物", "宠物",
    "读书", "音乐", "电影", "摄影", "手工", "DIY", "艺术", "绘画",
    "书法", "花艺", "茶道", "咖啡", "香薰", "瑜伽", "冥想"]
  const LIFESTYLE_PATTERNS: seq<Pattern> := [
    Pattern(["生活", "日常", "家居", "装修"]),
    Pattern(["收纳", "清洁", "植物", "宠物"]),
    Pattern(["读书", "音乐", "电影", "摄影"])]

  const FITNESS_KEYWORDS: seq<Word> := [
    "健身", "运动", "锻炼", "减肥", "瘦身", "塑形", "肌肉", "力量",
    "跑步", "游泳", "瑜伽", "普拉提", "舞蹈", "球类", "户外", "登山",
    "骑行", "马拉松", "健康", "营养", "蛋白质", "卡路里"]
  const FITNESS_PATTERNS: seq<Pattern> := [
    Pattern(["健身", "运动", "锻炼", "减肥"]),
    Pattern(["瘦身", "塑形", "肌肉", "力量"]),
    Pattern(["跑步", "游泳", "瑜伽", "普拉提"])]

  const STUDY_WORK_KEYWORDS: seq<Word> := [
    "学习", "工作", "职场", "考试", "学生", "上班", "技能", "培训",
    "英语", "编程", "设计", "写作", "演讲", "时间管理", "效率", "笔记",
    "规划", "目标", "成长", "自律", "习惯", "思维", "方法"]
  const STUDY_WORK_PATTERNS: seq<Pattern> := [
    Pattern(["学习", "工作", "职场", "考试"]),
    Pattern(["技能", "培训", "英语", "编程"]),
    Pattern(["效率", "笔记", "规划", "目标"])]

  /** `CATEGORY_RULES`, in catalogue order; a smaller priority number is a higher priority. */
  const CATEGORY_RULES: seq<CategoryRule> := [
    CategoryRule("美妆护肤", "美妆护肤", BEAUTY_KEYWORDS, BEAUTY_PATTERNS, 1),
    CategoryRule("时尚穿搭", "时尚穿搭", FASHION_KEYWORDS, FASHION_PATTERNS, 2),
    CategoryRule("美食", "美食", FOOD_KEYWORDS, FOOD_PATTERNS, 3),
    CategoryRule("旅游", "旅游", TRAVEL_KEYWORDS, TRAVEL_PATTERNS, 4),
    CategoryRule("生活方式", "生活方式", LIFESTYLE_KEYWORDS, LIFESTYLE_PATTERNS, 5),
    CategoryRule("健身运动", "健身运动", FITNESS_KEYWORDS, FITNESS_PATTERNS, 6),
    CategoryRule("学习工作", "学习工作", STUDY_WORK_KEYWORDS, STUDY_WORK_PATTERNS, 7)
  ]

  /** The category reported when no rule scores above zero. */
  const FALLBACK_ID: string := "其他"
  const FALLBACK_CONFIDENCE: real := 0.1

  // ---------------------------------------------------------------------------
  // Scoring
  // ---------------------------------------------------------------------------

  datatype CategorizationResult = CategorizationResult(
    categoryId: string,
    categoryName: string,
    confidence: real,  // the exact quotient; the source holds a double
    matchedKeywords: seq<string>,
    matchedPatterns: seq<string>)

  /** An entry of the `results` list: a result together with its score. */
  datatype Scored = Scored(result: CategorizationResult, score: real)

  /** The text every rule is matched against: `${title} ${content} ${tags.join(' ')}`, lower-cased. */
  function Subject(title: string, content: string, tags: seq<string>): string {
    Lower(title + " " + content + " " + Join(tags, " "))
  }

  /** The keywords (in their original case, in catalogue order) whose lower-cased form occurs in `text`. */
  function KeywordHits(keywords: seq<string>, text: string): (r: seq<string>)
    ensures |r| <= |keywords|
  {
    if keywords == [] then []
    else
      var kw := keywords[|keywords| - 1];
      KeywordHits(keywords[..|keywords| - 1], text) + (if Contains(text, Lower(kw)) then [kw] else [])
  }

  /** The `source` strings of the patterns that match `text`, in catalogue order. */
  function PatternHits(patterns: seq<Pattern>, text: string): (r: seq<string>)
    ensures |r| <= |patterns|
  {
    if patterns == [] then []
    else
      var p := patterns[|patterns| - 1];
      PatternHits(patterns[..|patterns| - 1], text) + (if Test(p, text) then [Source(p)] else [])
  }

  /** `(8 - rule.priority) * 0.5`. */
  function Bonus(rule: CategoryRule): real {
    (8 - rule.priority) as real * 0.5
  }

  /** One point per keyword hit, three per matching pattern, plus the priority bonus. */
  function Score(rule: CategoryRule, text: string): real {
    |KeywordHits(rule.keywords, text)| as real + 3.0 * |PatternHits(rule.contentPatterns, text)| as real + Bonus(rule)
  }

  /** `rule.keywords.length + rule.contentPatterns.length * 3 + priorityBonus`. */
  function MaxPossibleScore(rule: CategoryRule): real {
    |rule.keywords| as real + 3.0 * |rule.contentPatterns| as real + Bonus(rule)
  }

  function Min(a: real, b: real): real {
    if a <= b then a else b
  }

  /** The score of `rule` on `text`, as pushed into `results` when it is positive. */
  function Evaluate(rule: CategoryRule, text: string): (s: Scored)
    ensures s.score == Score(rule, text)
    ensures s.score > 0.0 ==> s.result.confidence == Score(rule, text) / MaxPossibleScore(rule)
  {
    var score := Score(rule, text);
    var max := MaxPossibleScore(rule);
    var confidence := if score > 0.0 then Min(score / max, 1.0) else 0.0;
    if score > 0.0 then
      ConfidenceBounds(rule, text);
      Scored(CategorizationResult(rule.id, rule.name, confidence,
                                  KeywordHits(rule.keywords, text), PatternHits(rule.contentPatterns, text)),
             score)
    else
      Scored(CategorizationResult(rule.id, rule.name, confidence,
                                  KeywordHits(rule.keywords, text), PatternHits(rule.contentPatterns, text)),
             score)
  }

  /** The entries pushed into `results`: the rules scoring above zero, in catalogue order. */
  function ScoredResults(rules: seq<CategoryRule>, text: string): (r: seq<Scored>)
    ensures |r| <= |rules|
    ensures forall i :: 0 <= i < |r| ==> r[i].score > 0.0
  {
    if rules == [] then []
    else
      var s := Evaluate(rules[|rules| - 1], text);
      ScoredResults(rules[..|rules| - 1], text) + (if s.score > 0.0 then [s] else [])
  }

  /**
   * The sort key of a result. Scores are multiples of one half, so twice the
   * score is an integer, and ordering by this key is ordering by score.
   */
  function ScoreKey(s: Scored): int {
    (2.0 * s.score).Floor
  }

  function Fallback(): CategorizationResult {
    CategorizationResult(FALLBACK_ID, FALLBACK_ID, FALLBACK_CONFIDENCE, [], [])
  }

  /** What `categorizeContent` returns for a subject text and a rule catalogue. */
  function Classify(rules: seq<CategoryRule>, text: string): CategorizationResult {
    var results := ScoredResults(rules, text);
    if |results| == 0 then Fallback() else SortDesc(results, ScoreKey)[0].result
  }

  /** `categorizeContent(title, content, tags)`. */
  function Categorize(title: string, content: string, tags: seq<string>): CategorizationResult {
    Classify(CATEGORY_RULES, Subject(title, content, tags))
  }

  // ---------------------------------------------------------------------------
  // The imperative procedures
  // ---------------------------------------------------------------------------

  /** One pass of the rule loop of `categorizeContent`: the keyword loop, the pattern loop and the bonus. */
  method ScoreRule(rule: CategoryRule, text: string)
    returns (score: real, matchedKeywords: seq<string>, matchedPatterns: seq<string>)
    ensures score == Score(rule, text)
    ensures matchedKeywords == KeywordHits(rule.keywords, text)
    ensures matchedPatterns == PatternHits(rule.contentPatterns, text)
  {
    score := 0.0;
    matchedKeywords := [];
    matchedPatterns := [];
    for j := 0 to |rule.keywords|
      invariant matchedKeywords == KeywordHits(rule.keywords[..j], text)
      invariant score == |matchedKeywords| as real
    {
      var keyword := rule.keywords[j];
      assert rule.keywords[..j + 1][..j] == rule.keywords[..j];
      if Contains(text, Lower(keyword)) {
        score := score + 1.0;
        matchedKeywords := matchedKeywords + [keyword];
      }
    }
    assert rule.keywords[..|rule.keywords|] == rule.keywords;
    for j := 0 to |rule.contentPatterns|
      invariant matchedPatterns == PatternHits(rule.contentPatterns[..j], text)
      invariant score == |matchedKeywords| as real + 3.0 * |matchedPatterns| as real
    {
      var pattern := rule.contentPatterns[j];
      assert rule.contentPatterns[..j + 1][..j] == rule.contentPatterns[..j];
      if Test(pattern, text) {
        score := score + 3.0;
        matchedPatterns := matchedPatterns + [Source(pattern)];
      }
    }
    assert rule.contentPatterns[..|rule.contentPatterns|] == rule.contentPatterns;
    var priorityBonus := (8 - rule.priority) as real * 0.5;
    score := score + priorityBonus;
  }

  /** The body of `categorizeContent` over a catalogue: the scoring loops, the in-place sort and `results[0]`. */
  method RankRules(rules: seq<CategoryRule>, text: string) returns (r: CategorizationResult)
    ensures r == Classify(rules, text)
  {
    var results: seq<Scored> := [];
    for i := 0 to |rules|
      invariant results == ScoredResults(rules[..i], text)
    {
      var rule := rules[i];
      var score, matchedKeywords, matchedPatterns := ScoreRule(rule, text);
      assert rules[..i + 1][..i] == rules[..i];
      if score > 0.0 {
        var maxPossibleScore := |rule.keywords| as real + 3.0 * |rule.contentPatterns| as real + (8 - rule.priority) as real * 0.5;
        var confidence := Min(score / maxPossibleScore, 1.0);
        results := results + [Scored(CategorizationResult(rule.id, rule.name, confidence, matchedKeywords, matchedPatterns), score)];
      }
    }
    assert rules[..|rules|] == rules;
    if |results| == 0 {
      return Fallback();
    }
    results := SortDesc(results, ScoreKey);
    r := results[0].result;
  }

  /** `categorizeContent(title, content, tags)`. */
  method CategorizeContent(title: string, content: string, tags: seq<string>) returns (r: CategorizationResult)
    ensures r == Categorize(title, content, tags)
  {
    var text := Subject(title, content, tags);
    r := RankRules(CATEGORY_RULES, text);
  }

  /** One input of `batchCategorize`; a missing `tags` field stands for `undefined`. */
  datatype BatchItem = BatchItem(id: string, title: string, content: string, tags: Option<seq<string>>)

  datatype BatchEntry = BatchEntry(id: string, category: CategorizationResult)

  /** `batchCategorize`: one classification per post, in input order, the tags defaulting to `[]`. */
  method BatchCategorize(posts: seq<BatchItem>) returns (results: seq<BatchEntry>)
    ensures |results| == |posts|
    ensures forall i :: 0 <= i < |posts| ==>
              results[i] == BatchEntry(posts[i].id, Categorize(posts[i].title, posts[i].content, posts[i].tags.GetOr([])))
  {
    results := [];
    for i := 0 to |posts|
      invariant |results| == i
      invariant forall k :: 0 <= k < i ==>
                  results[k] == BatchEntry(posts[k].id, Categorize(posts[k].title, posts[k].content, posts[k].tags.GetOr([])))
    {
      var post := posts[i];
      var category := CategorizeContent(post.title, post.content, post.tags.GetOr([]));
      results := results + [BatchEntry(post.id, category)];
    }
  }

  // ---------------------------------------------------------------------------
  // Properties of the scoring
  // ---------------------------------------------------------------------------

  /** A keyword is reported exactly when it is one of the rule's keywords and its lower-cased form occurs in the text. */
  lemma {:induction false} KeywordHitsMembers(keywords: seq<string>, text: string, kw: string)
    ensures kw in KeywordHits(keywords, text) <==> kw in keywords && Contains(text, Lower(kw))
  {
    if keywords != [] {
      var init := keywords[..|keywords| - 1];
      KeywordHitsMembers(init, text, kw);
      assert keywords == init + [keywords[|keywords| - 1]];
    }
  }

  /** A pattern source is reported exactly when a pattern with that source matches. */
  lemma {:induction false} PatternHitsMembers(patterns: seq<Pattern>, text: string, src: string)
    ensures src in PatternHits(patterns, text) <==>
            exists k :: 0 <= k < |patterns| && Source(patterns[k]) == src && Test(patterns[k], text)
  {
    if patterns != [] {
      var init := patterns[..|patterns| - 1];
      var last := patterns[|patterns| - 1];
      PatternHitsMembers(init, text, src);
      assert patterns == init + [last];
      if src in PatternHits(patterns, text) && !(Source(last) == src && Test(last, text)) {
        var k :| 0 <= k < |init| && Source(init[k]) == src && Test(init[k], text);
        assert patterns[k] == init[k];
      }
      if exists k :: 0 <= k < |patterns| && Source(patterns[k]) == src && Test(patterns[k], text) {
        var k :| 0 <= k < |patterns| && Source(patterns[k]) == src && Test(patterns[k], text);
        if k < |init| {
          assert init[k] == patterns[k];
        }
      }
    }
  }

  /** The score lies between the priority bonus and the maximal possible score. */
  lemma ScoreBounds(rule: CategoryRule, text: string)
    ensures Bonus(rule) <= Score(rule, text) <= MaxPossibleScore(rule)
  {
  }

  /**
   * The confidence `min(score / max, 1)` of a positive score lies in (0, 1],
   * and the `min` never changes it: the score never exceeds the maximum.
   */
  lemma ConfidenceBounds(rule: CategoryRule, text: string)
    requires Score(rule, text) > 0.0
    ensures MaxPossibleScore(rule) >= Score(rule, text)
    ensures 0.0 < Score(rule, text) / MaxPossibleScore(rule) <= 1.0
    ensures Min(Score(rule, text) / MaxPossibleScore(rule), 1.0) == Score(rule, text) / MaxPossibleScore(rule)
  {
    ScoreBounds(rule, text);
    var score, max := Score(rule, text), MaxPossibleScore(rule);
    assert max > 0.0;
    QuotientBounds(score, max);
  }

  /** A positive quotient of a number by one at least as large lies in (0, 1]. */
  lemma QuotientBounds(a: real, b: real)
    requires 0.0 < a <= b
    ensures 0.0 < a / b <= 1.0
  {
    assert a / b * b == a;
  }

  /** Twice a score is the integer the sort compares. */
  lemma ScoreKeyExact(rule: CategoryRule, text: string)
    ensures ScoreKey(Evaluate(rule, text)) as real == 2.0 * Score(rule, text)
  {
    var k, m := |KeywordHits(rule.keywords, text)|, |PatternHits(rule.contentPatterns, text)|;
    var score := Score(rule, text);
    assert score == k as real + 3.0 * m as real + (8 - rule.priority) as real * 0.5;
    DoubledScore(k, m, 8 - rule.priority, score);
  }

  /** Doubling `k + 3m + b/2` gives the integer `2k + 6m + b`. */
  lemma DoubledScore(k: int, m: int, b: int, x: real)
    requires x == k as real + 3.0 * m as real + b as real * 0.5
    ensures 2.0 * x == (2 * k + 6 * m + b) as real
    ensures (2.0 * x).Floor == 2 * k + 6 * m + b
  {
    assert 2.0 * (b as real * 0.5) == b as real;
    assert 2.0 * (3.0 * m as real) == (6 * m) as real;
  }

  /** When every rule has priority below 8, every rule is recorded, in catalogue order. */
  lemma {:induction false} AllRulesRecorded(rules: seq<CategoryRule>, text: string)
    requires forall i :: 0 <= i < |rules| ==> rules[i].priority < 8
    ensures |ScoredResults(rules, text)| == |rules|
    ensures forall i :: 0 <= i < |rules| ==> ScoredResults(rules, text)[i] == Evaluate(rules[i], text)
  {
    if rules != [] {
      var init := rules[..|rules| - 1];
      AllRulesRecorded(init, text);
      ScoreBounds(rules[|rules| - 1], text);
    }
  }

  /** The catalogue: seven rules, priorities 1 to 7 in order, none of them named like the fallback. */
  lemma CatalogueShape()
    ensures |CATEGORY_RULES| == 7
    ensures forall i :: 0 <= i < 7 ==> CATEGORY_RULES[i].priority == i + 1
    ensures forall i :: 0 <= i < 7 ==> CATEGORY_RULES[i].id != FALLBACK_ID
    ensures forall i :: 0 <= i < 7 ==> CATEGORY_RULES[i].id == CATEGORY_RULES[i].name
  {
  }

  /**
   * `r` is the entry of `rules[i]`, with that rule's hits and confidence, and
   * `rules[i]` is the earliest rule with the largest score.
   */
  predicate IsBestRule(rules: seq<CategoryRule>, text: string, i: int, r: CategorizationResult) {
    && 0 <= i < |rules|
    && r == Evaluate(rules[i], text).result
    && r.categoryId == rules[i].id
    && r.categoryName == rules[i].name
    && r.matchedKeywords == KeywordHits(rules[i].keywords, text)
    && r.matchedPatterns == PatternHits(rules[i].contentPatterns, text)
    && MaxPossibleScore(rules[i]) > 0.0
    && r.confidence == Score(rules[i], text) / MaxPossibleScore(rules[i])
    && (forall j :: 0 <= j < |rules| ==> Score(rules[j], text) <= Score(rules[i], text))
    && (forall j :: 0 <= j < i ==> Score(rules[j], text) < Score(rules[i], text))
  }

  /**
   * When every rule has priority below 8, the result is the entry of a rule
   * with the largest score, the earliest such rule in catalogue order, and it
   * carries that rule's hits and confidence.
   */
  lemma FirstBestRule(rules: seq<CategoryRule>, text: string)
    requires |rules| > 0
    requires forall i :: 0 <= i < |rules| ==> rules[i].priority < 8
    ensures exists i :: IsBestRule(rules, text, i, Classify(rules, text))
  {
    AllRulesRecorded(rules, text);
    var results := ScoredResults(rules, text);
    SortDescHead(results, ScoreKey);
    var i := FirstMaxIndex(results, ScoreKey);
    var r := Classify(rules, text);
    assert r == Evaluate(rules[i], text).result;
    EvaluateRecorded(rules[i], text);
    FirstMaxScore(rules, text, i);
    assert IsBestRule(rules, text, i, r);
  }

  /** A rule of priority below 8 always scores, and its entry carries its hits and its confidence. */
  lemma EvaluateRecorded(rule: CategoryRule, text: string)
    requires rule.priority < 8
    ensures Evaluate(rule, text).score > 0.0 && MaxPossibleScore(rule) > 0.0
    ensures Evaluate(rule, text).result
            == CategorizationResult(rule.id, rule.name, Score(rule, text) / MaxPossibleScore(rule),
                                    KeywordHits(rule.keywords, text), PatternHits(rule.contentPatterns, text))
  {
    ScoreBounds(rule, text);
    ConfidenceBounds(rule, text);
  }

  /** The first result of largest key comes from the first rule of largest score. */
  lemma FirstMaxScore(rules: seq<CategoryRule>, text: string, i: nat)
    requires |ScoredResults(rules, text)| == |rules|
    requires forall j :: 0 <= j < |rules| ==> ScoredResults(rules, text)[j] == Evaluate(rules[j], text)
    requires IsFirstMax(ScoredResults(rules, text), ScoreKey, i)
    ensures forall j :: 0 <= j < |rules| ==> Score(rules[j], text) <= Score(rules[i], text)
    ensures forall j :: 0 <= j < i ==> Score(rules[j], text) < Score(rules[i], text)
  {
    var results := ScoredResults(rules, text);
    forall j | 0 <= j < |rules|
      ensures Score(rules[j], text) <= Score(rules[i], text)
      ensures j < i ==> Score(rules[j], text) < Score(rules[i], text)
    {
      assert ScoreKey(results[j]) <= ScoreKey(results[i]);
      ScoreKeyExact(rules[j], text);
      ScoreKeyExact(rules[i], text);
    }
  }

  /** With the catalogue, the fallback `其他` is never returned: some rule always wins. */
  lemma NeverFallback(text: string)
    ensures exists i :: 0 <= i < |CATEGORY_RULES| && Classify(CATEGORY_RULES, text).categoryId == CATEGORY_RULES[i].id
    ensures Classify(CATEGORY_RULES, text).categoryId != FALLBACK_ID
  {
    CatalogueShape();
    FirstBestRule(CATEGORY_RULES, text);
  }

  /** No keyword nor pattern alternative, as a catalogue word, matches a text made of two spaces. */
  lemma NothingMatchesBlank(rule: CategoryRule)
    ensures KeywordHits(rule.keywords, "  ") == []
    ensures PatternHits(rule.contentPatterns, "  ") == []
  {
    assert Lower("  ") == "  ";
    forall kw | kw in rule.keywords
      ensures !Contains("  ", Lower(kw))
    {
      NotContainsForeignStart("  ", Lower(kw));
    }
    forall p | p in rule.contentPatterns
      ensures !Test(p, "  ")
    {
      forall k | 0 <= k < |p.alternatives|
        ensures !Contains(Lower("  "), Lower(p.alternatives[k]))
      {
        NotContainsForeignStart("  ", Lower(p.alternatives[k]));
      }
    }
    NoHitsWhenNothingMatches(rule.keywords, rule.contentPatterns, "  ");
  }

  lemma {:induction false} NoHitsWhenNothingMatches(keywords: seq<string>, patterns: seq<Pattern>, text: string)
    requires forall kw :: kw in keywords ==> !Contains(text, Lower(kw))
    requires forall p :: p in patterns ==> !Test(p, text)
    ensures KeywordHits(keywords, text) == [] && PatternHits(patterns, text) == []
    decreases |keywords| + |patterns|
  {
    if keywords != [] {
      NoHitsWhenNothingMatches(keywords[..|keywords| - 1], [], text);
    }
    if patterns != [] {
      NoHitsWhenNothingMatches([], patterns[..|patterns| - 1], text);
    }
  }

  /**
   * On an empty title, content and tag list, every rule scores only its
   * priority bonus, so the highest-priority rule wins with nothing matched.
   */
  lemma EmptyInputRules(rules: seq<CategoryRule>)
    requires |rules| > 0
    requires forall i :: 0 <= i < |rules| ==> rules[i].priority < 8
    requires forall i :: 0 < i < |rules| ==> rules[0].priority < rules[i].priority
    ensures Classify(rules, Subject("", "", [])) ==
      CategorizationResult(rules[0].id, rules[0].name, Bonus(rules[0]) / MaxPossibleScore(rules[0]), [], [])
  {
    var text := Subject("", "", []);
    assert text == "  ";
    forall i | 0 <= i < |rules|
      ensures Score(rules[i], text) == Bonus(rules[i])
    {
      NothingMatchesBlank(rules[i]);
    }
    FirstBestRule(rules, text);
    var r := Classify(rules, text);
    var i :| IsBestRule(rules, text, i, r);
    assert i == 0;
  }

  /** `categorizeContent('', '', [])` is `美妆护肤` with confidence the rational 3.5 / 35.5 and nothing matched. */
  lemma EmptyInput()
    ensures Categorize("", "", []) == CategorizationResult("美妆护肤", "美妆护肤", 3.5 / 35.5, [], [])
  {
    CatalogueShape();
    assert |CATEGORY_RULES[0].keywords| == 23;
    assert |CATEGORY_RULES[0].contentPatterns| == 3;
    EmptyInputRules(CATEGORY_RULES);
  }

  // ---------------------------------------------------------------------------
  // Adding a tag never lowers a score
  // ---------------------------------------------------------------------------

  lemma {:induction false} KeywordHitsMonotone(keywords: seq<string>, small: string, big: string)
    requires forall w :: Contains(small, w) ==> Contains(big, w)
    ensures |KeywordHits(keywords, small)| <= |KeywordHits(keywords, big)|
  {
    if keywords != [] {
      KeywordHitsMonotone(keywords[..|keywords| - 1], small, big);
    }
  }

  lemma {:induction false} PatternHitsMonotone(patterns: seq<Pattern>, small: string, big: string)
    requires forall w :: Contains(Lower(small), w) ==> Contains(Lower(big), w)
    ensures |PatternHits(patterns, small)| <= |PatternHits(patterns, big)|
  {
    if patterns != [] {
      PatternHitsMonotone(patterns[..|patterns| - 1], small, big);
    }
  }

  /** Appending one more tag keeps every hit, so no rule's score decreases. */
  lemma AddTagMonotone(title: string, content: string, tags: seq<string>, tag: string, rule: CategoryRule)
    ensures Score(rule, Subject(title, content, tags)) <= Score(rule, Subject(title, content, tags + [tag]))
  {
    var small := Subject(title, content, tags);
    var big := Subject(title, content, tags + [tag]);
    var front := title + " " + content + " ";
    JoinSnoc(tags, " ", tag);
    var extra := if tags == [] then tag else " " + tag;
    assert front + Join(tags + [tag], " ") == (front + Join(tags, " ")) + extra;
    ContainsParts(front + Join(tags, " "), extra);
    ContainsLower(front + Join(tags + [tag], " "), front + Join(tags, " "));
    forall w | Contains(small, w)
      ensures Contains(big, w)
    {
      ContainsTransitive(big, small, w);
    }
    LowerIdempotent(front + Join(tags, " "));
    LowerIdempotent(front + Join(tags + [tag], " "));
    KeywordHitsMonotone(rule.keywords, small, big);
    PatternHitsMonotone(rule.contentPatterns, small, big);
  }
}
