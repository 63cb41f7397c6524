/** Model of backend/app/services/keyword_service.py: the simulated
    keyword metrics of `KeywordAnalyzer`, its list generators, competitor
    analysis, batch difficulty and the merge of AI suggestions in
    `research_keywords`. Every `random.*` call is driven by a draw passed in:
    a `nat` for `randint`/`choice`, a `real` in [0, 1) for `uniform`. */
module KeywordService {
  import opened Wrappers
  import opened Text
  import Seqs

  /** `random.randint(lo, hi)` for the raw draw `t`. */
  function RandInt(lo: int, hi: int, t: nat): (r: int)
    requires lo <= hi
    ensures lo <= r <= hi
  {
    lo + t % (hi - lo + 1)
  }

  /** `random.uniform(lo, hi)` for the draw `u` of `random.random()`. */
  function Uniform(lo: real, hi: real, u: real): (r: real)
    requires lo <= hi && 0.0 <= u < 1.0
    ensures lo <= r <= hi
  {
    var w := hi - lo;
    ScaleBelow(w, u);
    lo + w * u
  }

  lemma ScaleBelow(w: real, u: real)
    requires w >= 0.0 && 0.0 <= u < 1.0
    ensures 0.0 <= w * u <= w
  {
    assert w - w * u == w * (1.0 - u);
  }

  // ---------------------------------------------------------------------
  // Metric formulas

  datatype Competition = Low | Medium | High

  /** `_get_competition_level`. */
  function CompetitionLevel(difficulty: real): (c: Competition)
    ensures c == Low <==> difficulty < 30.0
    ensures c == Medium <==> 30.0 <= difficulty < 70.0
    ensures c == High <==> difficulty >= 70.0
  {
    if difficulty < 30.0 then Low else if difficulty < 70.0 then Medium else High
  }

  /** `max(20, 100 - word_count * 15)`. */
  function BaseDifficulty(keyword: string): (b: int)
    ensures 20 <= b <= 100
    ensures WordCount(keyword) >= 1 ==> b <= 85
  {
    var wc := WordCount(keyword);
    if 100 - wc * 15 > 20 then 100 - wc * 15 else 20
  }

  /** `_calculate_difficulty`: the base plus an offset in [-20, 20], kept in
      [1, 100]. */
  function CalculateDifficulty(keyword: string, u: real): (d: real)
    requires 0.0 <= u < 1.0
    ensures 1.0 <= d <= 100.0
    ensures var raw := BaseDifficulty(keyword) as real + Uniform(-20.0, 20.0, u);
      (1.0 <= raw <= 100.0 ==> d == raw) && (raw > 100.0 ==> d == 100.0) && (raw < 1.0 ==> d == 1.0)
  {
    var raw := BaseDifficulty(keyword) as real + Uniform(-20.0, 20.0, u);
    var lifted := if raw > 1.0 then raw else 1.0;
    if lifted < 100.0 then lifted else 100.0
  }

  /** Whether any of `terms` occurs in `keyword.lower()`. */
  predicate MentionsAny(keyword: string, terms: seq<string>) {
    exists i :: 0 <= i < |terms| && Contains(Lower(keyword), terms[i])
  }

  const VolumeTerms: seq<string> := ["seo", "marketing", "business"]

  /** The base of `_estimate_search_volume`; a keyword with no words
      divides by zero. */
  function SearchVolumeBase(keyword: string): (b: Option<int>)
    ensures b.None? <==> WordCount(keyword) == 0
    ensures b.Some? ==> 100 <= b.value <= 10000
    ensures b.Some? && !MentionsAny(keyword, VolumeTerms) ==> b.value <= 5000
  {
    var wc := WordCount(keyword);
    if wc == 0 then None
    else
      var plain := if 10000 / (wc * 2) > 100 then 10000 / (wc * 2) else 100;
      Some(if MentionsAny(keyword, VolumeTerms) then plain * 2 else plain)
  }

  const ZeroDivision: string := "integer division or modulo by zero"

  /** `_estimate_search_volume`. */
  function EstimateSearchVolume(keyword: string, t: nat): (r: Result<int>)
    ensures r.Err? <==> WordCount(keyword) == 0
    ensures r.Err? ==> r.error == ZeroDivision
    ensures r.Ok? ==> var b := SearchVolumeBase(keyword).value; b / 2 <= r.value <= b * 2
    ensures r.Ok? ==> 50 <= r.value <= 20000
  {
    match SearchVolumeBase(keyword)
    case None => Err(ZeroDivision)
    case Some(b) => Ok(RandInt(b / 2, b * 2, t))
  }

  const CommercialTerms: seq<string> := ["buy", "price", "cost", "service", "software", "tool"]

  function CpcBase(keyword: string): (b: real)
    ensures b == 3.0 <==> MentionsAny(keyword, CommercialTerms)
    ensures b == 1.0 <==> !MentionsAny(keyword, CommercialTerms)
  {
    if MentionsAny(keyword, CommercialTerms) then 3.0 else 1.0
  }

  /** `_estimate_cpc` before rounding to cents. */
  function EstimateCpc(keyword: string, u: real): (c: real)
    requires 0.0 <= u < 1.0
    ensures CpcBase(keyword) * 0.3 <= c <= CpcBase(keyword) * 2.0
    ensures 0.3 <= c <= 6.0
  {
    Uniform(CpcBase(keyword) * 0.3, CpcBase(keyword) * 2.0, u)
  }

  // ---------------------------------------------------------------------
  // Suggestion lists

  datatype KeywordSuggestion = KeywordSuggestion(keyword: string, searchVolume: int, difficulty: real,
                                                 relevanceScore: real, cpc: real)

  /** The `randint`/`uniform` bounds one generator uses. */
  datatype Ranges = Ranges(volLo: int, volHi: int, diffLo: real, diffHi: real,
                           relLo: real, relHi: real, cpcLo: real, cpcHi: real)

  predicate Ordered(g: Ranges) {
    g.volLo <= g.volHi && g.diffLo <= g.diffHi && g.relLo <= g.relHi && g.cpcLo <= g.cpcHi
  }

  predicate Within(s: KeywordSuggestion, g: Ranges) {
    && g.volLo <= s.searchVolume <= g.volHi
    && g.diffLo <= s.difficulty <= g.diffHi
    && g.relLo <= s.relevanceScore <= g.relHi
    && g.cpcLo <= s.cpc <= g.cpcHi
  }

  /** The four random draws of one suggestion. */
  datatype Draw = Draw(volume: nat, difficulty: real, relevance: real, cpc: real)

  predicate UnitDraw(d: Draw) {
    0.0 <= d.difficulty < 1.0 && 0.0 <= d.relevance < 1.0 && 0.0 <= d.cpc < 1.0
  }

  predicate UnitDraws(ds: seq<Draw>) {
    forall i :: 0 <= i < |ds| ==> UnitDraw(ds[i])
  }

  const PrefixRanges: Ranges := Ranges(100, 2000, 10.0, 70.0, 0.7, 0.95, 0.3, 3.0)
  const SuffixRanges: Ranges := Ranges(50, 1000, 15.0, 60.0, 0.6, 0.85, 0.5, 4.0)
  const LongTailRanges: Ranges := Ranges(10, 500, 5.0, 40.0, 0.8, 0.95, 0.2, 2.0)
  const GapRanges: Ranges := Ranges(500, 5000, 20.0, 80.0, 0.6, 0.9, 0.5, 5.0)

  /** One `KeywordSuggestion(...)` built from the generator's bounds. */
  function Suggest(keyword: string, g: Ranges, d: Draw): (s: KeywordSuggestion)
    requires Ordered(g) && UnitDraw(d)
    ensures s.keyword == keyword && Within(s, g)
  {
    KeywordSuggestion(keyword, RandInt(g.volLo, g.volHi, d.volume), Uniform(g.diffLo, g.diffHi, d.difficulty),
                      Uniform(g.relLo, g.relHi, d.relevance), Uniform(g.cpcLo, g.cpcHi, d.cpc))
  }

  const RelatedTerms: seq<string> := ["best", "top", "how to", "guide", "tips", "tools",
                                      "services", "software", "platform", "free", "online"]
  const RelatedSuffixes: seq<string> := ["2024", "review", "comparison", "alternative", "pricing"]

  /** What `_find_related_keywords` returns: the first 8 terms put in front
      of the keyword, then the first 3 suffixes after it. */
  function RelatedKeywords(keyword: string, draws: seq<Draw>): (r: seq<KeywordSuggestion>)
    requires |draws| == 11 && UnitDraws(draws)
    ensures |r| == 11
    ensures forall i :: 0 <= i < 8 ==> r[i].keyword == RelatedTerms[i] + " " + keyword && Within(r[i], PrefixRanges)
    ensures forall i :: 8 <= i < 11 ==>
              r[i].keyword == keyword + " " + RelatedSuffixes[i - 8] && Within(r[i], SuffixRanges)
    ensures forall i :: 0 <= i < 11 ==> Contains(r[i].keyword, keyword)
  {
    var r := seq(11, i requires 0 <= i < 11 =>
                   if i < 8 then Suggest(RelatedTerms[i] + " " + keyword, PrefixRanges, draws[i])
                   else Suggest(keyword + " " + RelatedSuffixes[i - 8], SuffixRanges, draws[i]));
    assert forall i :: 0 <= i < 11 ==> Contains(r[i].keyword, keyword) by {
      forall i | 0 <= i < 11 ensures Contains(r[i].keyword, keyword) {
        if i < 8 {
          ContainsInfix(RelatedTerms[i] + " ", keyword, "");
          assert RelatedTerms[i] + " " + keyword + "" == r[i].keyword;
        } else {
          ContainsInfix("", keyword, " " + RelatedSuffixes[i - 8]);
          assert "" + keyword + (" " + RelatedSuffixes[i - 8]) == r[i].keyword;
        }
      }
    }
    r
  }

  /** `_find_related_keywords`. */
  method FindRelatedKeywords(keyword: string, draws: seq<Draw>) returns (r: seq<KeywordSuggestion>)
    requires |draws| == 11 && UnitDraws(draws)
    ensures r == RelatedKeywords(keyword, draws)
  {
    var spec := RelatedKeywords(keyword, draws);
    r := [];
    var terms := RelatedTerms[..8];
    for i := 0 to 8
      invariant r == spec[..i]
    {
      r := r + [Suggest(terms[i] + " " + keyword, PrefixRanges, draws[i])];
    }
    var suffixes := RelatedSuffixes[..3];
    for j := 0 to 3
      invariant r == spec[..8 + j]
    {
      r := r + [Suggest(keyword + " " + suffixes[j], SuffixRanges, draws[8 + j])];
    }
  }

  /** The eight long-tail patterns, as text around the keyword. */
  const LongTailFrames: seq<(string, string)> := [
    ("how to use ", ""), ("best ", " for small business"), ("", " vs competitors"),
    ("free ", " tools"), ("", " step by step guide"), ("what is ", ""),
    ("", " for beginners"), ("cheap ", " services")]

  /** What `_find_long_tail_keywords` returns. */
  function LongTailKeywords(keyword: string, draws: seq<Draw>): (r: seq<KeywordSuggestion>)
    requires |draws| == 8 && UnitDraws(draws)
    ensures |r| == 8
    ensures forall i :: 0 <= i < 8 ==>
              r[i].keyword == LongTailFrames[i].0 + keyword + LongTailFrames[i].1 && Within(r[i], LongTailRanges)
    ensures forall i :: 0 <= i < 8 ==> Contains(r[i].keyword, keyword)
  {
    var r := seq(8, i requires 0 <= i < 8 =>
                   Suggest(LongTailFrames[i].0 + keyword + LongTailFrames[i].1, LongTailRanges, draws[i]));
    assert forall i :: 0 <= i < 8 ==> Contains(r[i].keyword, keyword) by {
      forall i | 0 <= i < 8 ensures Contains(r[i].keyword, keyword) {
        ContainsInfix(LongTailFrames[i].0, keyword, LongTailFrames[i].1);
      }
    }
    r
  }

  /** `_find_long_tail_keywords`. */
  method FindLongTailKeywords(keyword: string, draws: seq<Draw>) returns (r: seq<KeywordSuggestion>)
    requires |draws| == 8 && UnitDraws(draws)
    ensures r == LongTailKeywords(keyword, draws)
  {
    var spec := LongTailKeywords(keyword, draws);
    r := [];
    for i := 0 to 8
      invariant r == spec[..i]
    {
      var pattern := LongTailFrames[i].0 + keyword + LongTailFrames[i].1;
      r := r + [Suggest(pattern, LongTailRanges, draws[i])];
    }
  }

  const QuestionWords: seq<string> := ["what", "how", "why", "when", "where", "who"]

  /** The text after the question word in its `p`-th pattern. */
  function QuestionTail(keyword: string, p: nat): string
    requires p < 3
  {
    if p == 0 then "is " + keyword + "?"
    else if p == 1 then "does " + keyword + " work?"
    else "to choose " + keyword + "?"
  }

  /** The `p`-th question pattern for one question word:
      `f"{q_word} is {keyword}?"`, `f"{q_word} does {keyword} work?"` and
      `f"{q_word} to choose {keyword}?"`. */
  function QuestionPattern(word: string, keyword: string, p: nat): string
    requires p < 3
  {
    word + " " + QuestionTail(keyword, p)
  }

  /** The 18 questions `_find_keyword_questions` builds before truncating. */
  function AllQuestions(keyword: string): (r: seq<string>)
    ensures |r| == 18
  {
    seq(18, k requires 0 <= k < 18 => QuestionPattern(QuestionWords[k / 3], keyword, k % 3))
  }

  /** The three questions of the `w`-th question word sit at 3w, 3w + 1, 3w + 2. */
  lemma AllQuestionsAt(keyword: string, w: nat, p: nat)
    requires w < 6 && p < 3
    ensures AllQuestions(keyword)[3 * w + p] == QuestionPattern(QuestionWords[w], keyword, p)
  {
    assert (3 * w + p) / 3 == w && (3 * w + p) % 3 == p;
  }

  /** The questions of the `w`-th question word extend the first `3w`. */
  lemma AllQuestionsStep(keyword: string, w: nat)
    requires w < 6
    ensures AllQuestions(keyword)[..3 * w + 3] == AllQuestions(keyword)[..3 * w]
      + [QuestionPattern(QuestionWords[w], keyword, 0), QuestionPattern(QuestionWords[w], keyword, 1),
         QuestionPattern(QuestionWords[w], keyword, 2)]
  {
    var all := AllQuestions(keyword);
    var three := [QuestionPattern(QuestionWords[w], keyword, 0), QuestionPattern(QuestionWords[w], keyword, 1),
                  QuestionPattern(QuestionWords[w], keyword, 2)];
    forall p | 0 <= p < 3 ensures all[3 * w + p] == three[p] {
      AllQuestionsAt(keyword, w, p);
    }
    assert all[3 * w..3 * w + 3] == three;
    assert all[..3 * w + 3] == all[..3 * w] + all[3 * w..3 * w + 3];
  }

  /** `_find_keyword_questions`. */
  method FindKeywordQuestions(keyword: string) returns (r: seq<string>)
    ensures r == Seqs.Take(AllQuestions(keyword), 10)
  {
    ghost var all := AllQuestions(keyword);
    var questions := [];
    for w := 0 to 6
      invariant questions == all[..3 * w]
    {
      var q := QuestionWords[w];
      AllQuestionsStep(keyword, w);
      questions := questions + [QuestionPattern(q, keyword, 0), QuestionPattern(q, keyword, 1),
                                QuestionPattern(q, keyword, 2)];
    }
    assert questions == all;
    r := Seqs.Take(questions, 10);
  }

  /** Ten questions survive, ordered what x3, how x3, why x3, then the first
      one for "when". */
  lemma QuestionsOrder(keyword: string)
    ensures var r := Seqs.Take(AllQuestions(keyword), 10);
      && |r| == 10
      && (forall k :: 0 <= k < 3 ==> StartsWith(r[k], "what "))
      && (forall k :: 3 <= k < 6 ==> StartsWith(r[k], "how "))
      && (forall k :: 6 <= k < 9 ==> StartsWith(r[k], "why "))
      && r[9] == "when is " + keyword + "?"
  {
    var all := AllQuestions(keyword);
    var r := Seqs.Take(all, 10);
    forall k | 0 <= k < 3 ensures StartsWith(r[k], "what ") {
      AllQuestionsAt(keyword, 0, k);
      StartsWithConcat("what ", QuestionTail(keyword, k));
    }
    forall k | 3 <= k < 6 ensures StartsWith(r[k], "how ") {
      AllQuestionsAt(keyword, 1, k - 3);
      StartsWithConcat("how ", QuestionTail(keyword, k - 3));
    }
    forall k | 6 <= k < 9 ensures StartsWith(r[k], "why ") {
      AllQuestionsAt(keyword, 2, k - 6);
      StartsWithConcat("why ", QuestionTail(keyword, k - 6));
    }
    AllQuestionsAt(keyword, 3, 0);
    WhenQuestion(keyword);
  }

  lemma WhenQuestion(keyword: string)
    ensures QuestionPattern("when", keyword, 0) == "when is " + keyword + "?"
  {
    assert "when" + " " + "is " == "when is ";
  }

  /** The eight content-topic templates, as text around `keyword.title()`. */
  const TopicFrames: seq<(string, string)> := [
    ("Ultimate Guide to ", ""), ("10 Best Practices for ", ""), ("Common ", " Mistakes to Avoid"),
    ("", " Case Studies and Examples"), ("Future of ", " in 2024"), ("ROI of Investing in ", ""),
    ("Beginner's Guide to ", ""), ("", " Tools and Software Comparison")]

  /** `_suggest_content_topics`: eight topics, each naming the title-cased
      keyword. */
  function SuggestContentTopics(keyword: string): (r: seq<string>)
    ensures |r| == 8
    ensures forall i :: 0 <= i < 8 ==> r[i] == TopicFrames[i].0 + Title(keyword) + TopicFrames[i].1
    ensures forall i :: 0 <= i < 8 ==> Contains(r[i], Title(keyword))
  {
    var t := Title(keyword);
    var r := seq(8, i requires 0 <= i < 8 => TopicFrames[i].0 + t + TopicFrames[i].1);
    assert forall i :: 0 <= i < 8 ==> Contains(r[i], t) by {
      forall i | 0 <= i < 8 ensures Contains(r[i], t) {
        ContainsInfix(TopicFrames[i].0, t, TopicFrames[i].1);
      }
    }
    r
  }

  const Months: seq<string> := ["Jan", "Feb", "Mar", "Apr", "May", "Jun",
                                "Jul", "Aug", "Sep", "Oct", "Nov", "Dec"]
  const Directions: seq<string> := ["up", "down", "stable"]

  datatype Trend = Trend(month: string, searchVolume: int, trendDirection: string)

  /** What `_generate_seasonal_trends` returns for the draws
      (volume, direction) of each month. */
  function SeasonalTrends(draws: seq<(nat, nat)>): (r: seq<Trend>)
    requires |draws| == 12
    ensures |r| == 12
    ensures forall i :: 0 <= i < 12 ==>
              && r[i].month == Months[i]
              && 500 <= r[i].searchVolume <= 2000
              && r[i].trendDirection in Directions
  {
    seq(12, i requires 0 <= i < 12 =>
          Trend(Months[i], RandInt(500, 2000, draws[i].0), Directions[draws[i].1 % 3]))
  }

  /** `_generate_seasonal_trends`. */
  method GenerateSeasonalTrends(draws: seq<(nat, nat)>) returns (r: seq<Trend>)
    requires |draws| == 12
    ensures r == SeasonalTrends(draws)
  {
    var spec := SeasonalTrends(draws);
    r := [];
    for i := 0 to 12
      invariant r == spec[..i]
    {
      r := r + [Trend(Months[i], RandInt(500, 2000, draws[i].0), Directions[draws[i].1 % 3])];
    }
  }

  /** `_generate_trend_data`: twelve values in [50, 150]. */
  function GenerateTrendData(draws: seq<nat>): (r: seq<int>)
    requires |draws| == 12
    ensures |r| == 12
    ensures forall i :: 0 <= i < 12 ==> 50 <= r[i] <= 150
  {
    seq(12, i requires 0 <= i < 12 => RandInt(50, 150, draws[i]))
  }

  // ---------------------------------------------------------------------
  // Competitor analysis

  const SampleKeywords: seq<string> := [
    "seo optimization", "keyword research", "content marketing",
    "digital marketing", "search rankings", "website traffic",
    "online marketing", "seo tools", "backlink building"]

  datatype CompetitorKeyword = CompetitorKeyword(keyword: string, position: nat, searchVolume: int,
                                                 trafficEstimate: int, url: string)

  datatype CompetitorAnalysis = CompetitorAnalysis(domain: string, organicKeywords: int, paidKeywords: int,
                                                   topOrganicKeywords: seq<CompetitorKeyword>,
                                                   keywordGaps: seq<KeywordSuggestion>,
                                                   contentGaps: seq<string>)

  /** The random draws of one competitor analysis: the two totals, volume
      and traffic for each top keyword, and one suggestion per possible gap. */
  datatype CompetitorDraws = CompetitorDraws(organic: nat, paid: nat, top: seq<(nat, nat)>, gaps: seq<Draw>)

  predicate CompetitorDrawsOk(d: CompetitorDraws) {
    |d.top| == 5 && |d.gaps| == |SampleKeywords| && UnitDraws(d.gaps)
  }

  /** The candidates not in `user`, in order. */
  function Missing(candidates: seq<string>, user: seq<string>): (r: seq<string>)
    ensures |r| <= |candidates|
    decreases |candidates|
  {
    if candidates == [] then []
    else
      var last := candidates[|candidates| - 1];
      var init := candidates[..|candidates| - 1];
      assert candidates == init + [last];
      Missing(init, user) + (if last in user then [] else [last])
  }

  /** A keyword is missing exactly when it is a candidate the user lacks. */
  lemma {:induction false} MissingMembers(candidates: seq<string>, user: seq<string>)
    ensures forall x :: x in Missing(candidates, user) <==> x in candidates && x !in user
    decreases |candidates|
  {
    if candidates != [] {
      var last := candidates[|candidates| - 1];
      var init := candidates[..|candidates| - 1];
      assert candidates == init + [last];
      MissingMembers(init, user);
    }
  }

  /** `f"https://{domain}/page-{i+1}"` for position `i + 1`. */
  function PageUrl(domain: string, position: nat): string {
    "https://" + domain + "/page-" + NatToString(position)
  }

  /** `domain.split('.')[0]`. */
  function DomainStem(domain: string): string {
    BeforeFirst(domain, '.')
  }

  function ContentGaps(domain: string): (r: seq<string>)
    ensures |r| == 4
  {
    var stem := DomainStem(domain);
    ["Complete guide to " + stem, "Best practices for " + stem,
     "How to improve " + stem + " results", stem + " vs competitors comparison"]
  }

  /** `if user_keywords:` is false for none and for the empty list. */
  function GapCandidates(user: Option<seq<string>>): (r: seq<string>)
    ensures user.None? || user == Some([]) ==> r == []
    ensures user.Some? && user.value != [] ==> r == Missing(SampleKeywords, user.value)
  {
    if user.Some? && user.value != [] then Missing(SampleKeywords, user.value) else []
  }

  /** One gap suggestion per candidate, the `j`-th from the `j`-th draw. */
  function GapSuggestions(candidates: seq<string>, draws: seq<Draw>): (r: seq<KeywordSuggestion>)
    requires |candidates| <= |draws| && UnitDraws(draws)
    ensures |r| == |candidates|
    ensures forall j :: 0 <= j < |r| ==> r[j].keyword == candidates[j] && Within(r[j], GapRanges)
  {
    seq(|candidates|, j requires 0 <= j < |candidates| => Suggest(candidates[j], GapRanges, draws[j]))
  }

  lemma GapSuggestionsSnoc(candidates: seq<string>, x: string, draws: seq<Draw>)
    requires |candidates| < |draws| && UnitDraws(draws)
    ensures GapSuggestions(candidates + [x], draws)
            == GapSuggestions(candidates, draws) + [Suggest(x, GapRanges, draws[|candidates|])]
  {
  }

  lemma MissingSnoc(candidates: seq<string>, x: string, user: seq<string>)
    ensures Missing(candidates + [x], user) == Missing(candidates, user) + (if x in user then [] else [x])
  {
    assert (candidates + [x])[..|candidates|] == candidates;
  }

  /** The gap loop of `analyze_competitor_keywords` for a non-empty
      `user_keywords`, over the candidate list `candidates` (the sample
      keywords). */
  method FindKeywordGaps(candidates: seq<string>, user: seq<string>, draws: seq<Draw>)
    returns (gaps: seq<KeywordSuggestion>)
    requires |candidates| <= |draws| && UnitDraws(draws)
    ensures gaps == GapSuggestions(Missing(candidates, user), draws)
  {
    gaps := [];
    ghost var kept: seq<string> := [];
    for i := 0 to |candidates|
      invariant kept == Missing(candidates[..i], user)
      invariant |gaps| == |kept| <= i
      invariant forall j :: 0 <= j < |gaps| ==> gaps[j] == Suggest(kept[j], GapRanges, draws[j])
    {
      var kw := candidates[i];
      assert candidates[..i + 1] == candidates[..i] + [kw];
      MissingSnoc(candidates[..i], kw, user);
      if kw !in user {
        ghost var prevGaps, prevKept := gaps, kept;
        var g := Suggest(kw, GapRanges, draws[|gaps|]);
        gaps := gaps + [g];
        kept := kept + [kw];
        forall j | 0 <= j < |gaps| ensures gaps[j] == Suggest(kept[j], GapRanges, draws[j]) {
          if j < |prevGaps| {
            assert gaps[j] == prevGaps[j] && kept[j] == prevKept[j];
          } else {
            assert gaps[j] == g && kept[j] == kw;
          }
        }
      }
    }
    assert candidates[..|candidates|] == candidates;
  }

  /** The five top organic keywords: the first five sample keywords at
      positions 1 to 5, each with its page url and drawn figures. */
  function TopKeywords(domain: string, draws: seq<(nat, nat)>): (r: seq<CompetitorKeyword>)
    requires |draws| == 5
    ensures |r| == 5
    ensures forall i :: 0 <= i < 5 ==>
              var k := r[i];
              && k.keyword == SampleKeywords[i] && k.position == i + 1 && k.url == PageUrl(domain, i + 1)
              && 1000 <= k.searchVolume <= 10000 && 100 <= k.trafficEstimate <= 1000
  {
    seq(5, i requires 0 <= i < 5 =>
          CompetitorKeyword(SampleKeywords[i], i + 1, RandInt(1000, 10000, draws[i].0),
                            RandInt(100, 1000, draws[i].1), PageUrl(domain, i + 1)))
  }

  /** What `analyze_competitor_keywords` returns. */
  function CompetitorAnalysisOf(domain: string, user: Option<seq<string>>, d: CompetitorDraws)
    : (r: CompetitorAnalysis)
    requires CompetitorDrawsOk(d)
    ensures r.domain == domain
    ensures 500 <= r.organicKeywords <= 5000 && 50 <= r.paidKeywords <= 500
    ensures r.topOrganicKeywords == TopKeywords(domain, d.top)
    ensures |r.keywordGaps| == |GapCandidates(user)| <= 9
    ensures forall j :: 0 <= j < |r.keywordGaps| ==>
              r.keywordGaps[j].keyword == GapCandidates(user)[j] && Within(r.keywordGaps[j], GapRanges)
    ensures r.contentGaps == ContentGaps(domain)
  {
    var gaps := GapSuggestions(GapCandidates(user), d.gaps);
    CompetitorAnalysis(domain, RandInt(500, 5000, d.organic), RandInt(50, 500, d.paid),
                       TopKeywords(domain, d.top), Seqs.Take(gaps, 10), ContentGaps(domain))
  }

  /** With keywords given, the gaps are exactly the sample keywords the user
      does not have; with none or an empty list there are none. */
  lemma CompetitorGaps(domain: string, user: Option<seq<string>>, d: CompetitorDraws)
    requires CompetitorDrawsOk(d)
    ensures var gaps := CompetitorAnalysisOf(domain, user, d).keywordGaps;
      && (user.None? || user == Some([]) ==> gaps == [])
      && (user.Some? && user.value != [] ==>
            forall x :: (exists j :: 0 <= j < |gaps| && gaps[j].keyword == x) <==>
                        x in SampleKeywords && x !in user.value)
  {
    var gaps := CompetitorAnalysisOf(domain, user, d).keywordGaps;
    var cands := GapCandidates(user);
    if user.Some? && user.value != [] {
      MissingMembers(SampleKeywords, user.value);
      forall x ensures (exists j :: 0 <= j < |gaps| && gaps[j].keyword == x) <==> x in cands {
        if x in cands {
          var j :| 0 <= j < |cands| && cands[j] == x;
          assert gaps[j].keyword == x;
        }
      }
    }
  }

  /** `analyze_competitor_keywords`. */
  method AnalyzeCompetitorKeywords(domain: string, user: Option<seq<string>>, d: CompetitorDraws)
    returns (r: CompetitorAnalysis)
    requires CompetitorDrawsOk(d)
    ensures r == CompetitorAnalysisOf(domain, user, d)
  {
    var organic := RandInt(500, 5000, d.organic);
    var paid := RandInt(50, 500, d.paid);
    var top := [];
    for i := 0 to 5
      invariant top == TopKeywords(domain, d.top)[..i]
    {
      top := top + [CompetitorKeyword(SampleKeywords[i], i + 1, RandInt(1000, 10000, d.top[i].0),
                                      RandInt(100, 1000, d.top[i].1), PageUrl(domain, i + 1))];
    }
    assert top == TopKeywords(domain, d.top);
    var gaps := [];
    if user.Some? && user.value != [] {
      gaps := FindKeywordGaps(SampleKeywords, user.value, d.gaps);
    }
    assert gaps == GapSuggestions(GapCandidates(user), d.gaps);
    r := CompetitorAnalysis(domain, organic, paid, top, Seqs.Take(gaps, 10), ContentGaps(domain));
  }

  // ---------------------------------------------------------------------
  // Batch difficulty

  datatype KeywordDifficulty = KeywordDifficulty(keyword: string, difficultyScore: real, searchVolume: int,
                                                 cpc: real, competition: Competition, trend: seq<int>)

  /** The draws of one batch entry; `second` is the offset of the second
      `_calculate_difficulty` call made for the competition level. */
  datatype BatchDraw = BatchDraw(difficulty: real, volume: nat, cpc: real, second: real, trend: seq<nat>)

  predicate BatchDrawOk(d: BatchDraw) {
    0.0 <= d.difficulty < 1.0 && 0.0 <= d.cpc < 1.0 && 0.0 <= d.second < 1.0 && |d.trend| == 12
  }

  /** One entry of `batch_keyword_difficulty` as written: the competition
      level comes from a second, independent difficulty draw. */
  function BatchEntry(keyword: string, d: BatchDraw): (r: Result<KeywordDifficulty>)
    requires BatchDrawOk(d)
    ensures r.Err? <==> WordCount(keyword) == 0
    ensures r.Ok? ==> r.value.keyword == keyword && 1.0 <= r.value.difficultyScore <= 100.0
                      && r.value.competition == CompetitionLevel(CalculateDifficulty(keyword, d.second))
  {
    match EstimateSearchVolume(keyword, d.volume)
    case Err(e) => Err(e)
    case Ok(volume) =>
      Ok(KeywordDifficulty(keyword, CalculateDifficulty(keyword, d.difficulty), volume,
                           EstimateCpc(keyword, d.cpc),
                           CompetitionLevel(CalculateDifficulty(keyword, d.second)),
                           GenerateTrendData(d.trend)))
  }

  /** The reported competition can contradict the reported difficulty: for
      "seo" the two draws give 65 (medium) and 100 (high). */
  lemma BatchCompetitionMayDisagree()
    ensures var d := BatchDraw(0.0, 0, 0.0, 0.875, seq(12, i => 0));
      var r := BatchEntry("seo", d);
      r.Ok? && r.value.difficultyScore == 65.0 && r.value.competition == High
      && r.value.competition != CompetitionLevel(r.value.difficultyScore)
  {
    assert WordCount("seo") == 1;
    assert BaseDifficulty("seo") == 85;
  }

  /** One batch entry with the competition level taken from the difficulty
      it reports, as `research_keyword` does. */
  function BatchEntryCorrected(keyword: string, d: BatchDraw): (r: Result<KeywordDifficulty>)
    requires BatchDrawOk(d)
    ensures r.Err? <==> WordCount(keyword) == 0
    ensures r.Ok? ==> r.value.keyword == keyword && 1.0 <= r.value.difficultyScore <= 100.0
                      && r.value.competition == CompetitionLevel(r.value.difficultyScore)
    ensures r.Ok? ==> BatchEntry(keyword, d).Ok?
                      && r.value == BatchEntry(keyword, d.(second := d.difficulty)).value
  {
    match EstimateSearchVolume(keyword, d.volume)
    case Err(e) => Err(e)
    case Ok(volume) =>
      var score := CalculateDifficulty(keyword, d.difficulty);
      Ok(KeywordDifficulty(keyword, score, volume, EstimateCpc(keyword, d.cpc), CompetitionLevel(score),
                           GenerateTrendData(d.trend)))
  }

  /** `batch_keyword_difficulty`: one entry per keyword in input order; a
      keyword with no words raises for the whole batch. */
  method BatchKeywordDifficulty(keywords: seq<string>, draws: seq<BatchDraw>)
    returns (r: Result<seq<KeywordDifficulty>>)
    requires |draws| == |keywords| && forall i :: 0 <= i < |draws| ==> BatchDrawOk(draws[i])
    ensures r.Err? <==> exists i :: 0 <= i < |keywords| && WordCount(keywords[i]) == 0
    ensures r.Err? ==> r.error == ZeroDivision
    ensures r.Ok? ==> |r.value| == |keywords|
    ensures r.Ok? ==>
      forall i :: 0 <= i < |keywords| ==> r.value[i] == BatchEntry(keywords[i], draws[i]).value
                                          && r.value[i].keyword == keywords[i]
  {
    var results := [];
    for i := 0 to |keywords|
      invariant |results| == i
      invariant forall j :: 0 <= j < i ==> WordCount(keywords[j]) > 0
      invariant forall j :: 0 <= j < i ==> results[j] == BatchEntry(keywords[j], draws[j]).value
    {
      var entry := BatchEntry(keywords[i], draws[i]);
      if entry.Err? {
        return Err(entry.error);
      }
      results := results + [entry.value];
    }
    r := Ok(results);
  }

  // ---------------------------------------------------------------------
  // Keyword research

  datatype KeywordResearch = KeywordResearch(mainKeyword: string, searchVolume: int, difficultyScore: real,
                                             cpc: real, competitionLevel: Competition,
                                             seasonalTrends: seq<Trend>,
                                             relatedKeywords: seq<KeywordSuggestion>,
                                             longTailKeywords: seq<KeywordSuggestion>,
                                             questions: seq<string>, suggestedContentTopics: seq<string>)

  datatype ResearchDraws = ResearchDraws(volume: nat, difficulty: real, cpc: real, related: seq<Draw>,
                                         longTail: seq<Draw>, seasonal: seq<(nat, nat)>)

  predicate ResearchDrawsOk(d: ResearchDraws) {
    && 0.0 <= d.difficulty < 1.0 && 0.0 <= d.cpc < 1.0
    && |d.related| == 11 && UnitDraws(d.related)
    && |d.longTail| == 8 && UnitDraws(d.longTail)
    && |d.seasonal| == 12
  }

  /** `v` is the research `research_keyword` builds for the normalised
      keyword `k` from the draws `d`: every field from its own generator,
      and the competition level from the reported difficulty. */
  predicate IsBasicResearch(k: string, d: ResearchDraws, v: KeywordResearch)
    requires ResearchDrawsOk(d) && WordCount(k) > 0
  {
    && v.mainKeyword == k
    && v.searchVolume == EstimateSearchVolume(k, d.volume).value
    && v.difficultyScore == CalculateDifficulty(k, d.difficulty)
    && v.cpc == EstimateCpc(k, d.cpc)
    && v.competitionLevel == CompetitionLevel(v.difficultyScore)
    && v.seasonalTrends == SeasonalTrends(d.seasonal)
    && v.relatedKeywords == RelatedKeywords(k, d.related)
    && v.longTailKeywords == LongTailKeywords(k, d.longTail)
    && v.questions == Seqs.Take(AllQuestions(k), 10)
    && v.suggestedContentTopics == SuggestContentTopics(k)
  }

  /** `KeywordAnalyzer.research_keyword`. The keyword is lower-cased and
      stripped; one with no words raises in the search-volume estimate. */
  method ResearchKeyword(keyword: string, d: ResearchDraws) returns (r: Result<KeywordResearch>)
    requires ResearchDrawsOk(d)
    ensures var k := Strip(Lower(keyword));
      && (r.Err? <==> WordCount(k) == 0)
      && (r.Err? ==> r.error == ZeroDivision)
      && (r.Ok? ==> IsBasicResearch(k, d, r.value))
  {
    var k := Strip(Lower(keyword));
    var volume := EstimateSearchVolume(k, d.volume);
    if volume.Err? {
      return Err(volume.error);
    }
    var difficulty := CalculateDifficulty(k, d.difficulty);
    var cpc := EstimateCpc(k, d.cpc);
    var related := FindRelatedKeywords(k, d.related);
    var longTail := FindLongTailKeywords(k, d.longTail);
    var questions := FindKeywordQuestions(k);
    var topics := SuggestContentTopics(k);
    var trends := GenerateSeasonalTrends(d.seasonal);
    r := Ok(KeywordResearch(k, volume.value, difficulty, cpc, CompetitionLevel(difficulty), trends,
                            related, longTail, questions, topics));
  }

  function Relevance(s: KeywordSuggestion): real { s.relevanceScore }

  /** The merge in `research_keywords`: at most 5 AI suggestions are added,
      the list is ordered by relevance, largest first, and cut to 15. No AI
      suggestions leave the list as it was. */
  function MergeAiKeywords(related: seq<KeywordSuggestion>, ai: seq<KeywordSuggestion>)
    : (r: seq<KeywordSuggestion>)
    ensures ai == [] ==> r == related
    ensures ai != [] ==>
      var pool := related + Seqs.Take(ai, 5);
      && |r| == (if |pool| <= 15 then |pool| else 15)
      && Seqs.NonIncreasing(r, Relevance)
      && multiset(r) <= multiset(pool)
  {
    if ai == [] then related
    else
      var pool := related + Seqs.Take(ai, 5);
      var sorted := Seqs.SortDesc(pool, Relevance);
      var r := Seqs.Take(sorted, 15);
      assert sorted == r + sorted[|r|..];
      assert multiset(sorted) == multiset(r) + multiset(sorted[|r|..]);
      r
  }

  /** The kept suggestions are the most relevant ones: none left out is
      more relevant than any kept. */
  lemma {:induction false} MergeKeepsMostRelevant(related: seq<KeywordSuggestion>, ai: seq<KeywordSuggestion>)
    requires ai != []
    ensures var pool := related + Seqs.Take(ai, 5);
      var sorted := Seqs.SortDesc(pool, Relevance);
      var r := MergeAiKeywords(related, ai);
      && r == sorted[..|r|]
      && forall i, j :: 0 <= i < |r| <= j < |sorted| ==> r[i].relevanceScore >= sorted[j].relevanceScore
  {
    var pool := related + Seqs.Take(ai, 5);
    var sorted := Seqs.SortDesc(pool, Relevance);
    var r := MergeAiKeywords(related, ai);
    assert r == Seqs.Take(sorted, 15);
    forall i, j | 0 <= i < |r| <= j < |sorted| ensures r[i].relevanceScore >= sorted[j].relevanceScore {
      assert r[i] == sorted[i];
      assert Relevance(sorted[i]) >= Relevance(sorted[j]);
    }
  }

  /** `research_keywords`: the research, with the AI suggestions merged into
      the related keywords; a failed AI call is an empty `ai`. The fallback
      after a failed research repeats the same failure. */
  method ResearchKeywords(keyword: string, d: ResearchDraws, ai: seq<KeywordSuggestion>)
    returns (r: Result<KeywordResearch>)
    requires ResearchDrawsOk(d)
    ensures var k := Strip(Lower(keyword));
      && (r.Err? <==> WordCount(k) == 0)
      && (r.Err? ==> r.error == ZeroDivision)
      && (r.Ok? ==>
            && IsBasicResearch(k, d, r.value.(relatedKeywords := RelatedKeywords(k, d.related)))
            && r.value.relatedKeywords == MergeAiKeywords(RelatedKeywords(k, d.related), ai))
  {
    var basic := ResearchKeyword(keyword, d);
    if basic.Err? {
      r := ResearchKeyword(keyword, d);
      return;
    }
    var research := basic.value;
    if ai != [] {
      var merged := research.relatedKeywords + Seqs.Take(ai, 5);
      merged := Seqs.SortDesc(merged, Relevance);
      merged := Seqs.Take(merged, 15);
      research := research.(relatedKeywords := merged);
    }
    r := Ok(research);
  }
}
