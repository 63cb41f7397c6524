/** Model of backend/app/services/seo_service.py: the technical and content
    analysis of a parsed page, the scores, the recommendations, and the
    analytics over a user's stored analyses. Fetching and HTML parsing are
    outside the model: the page arrives as the values the parser would
    report, and readability and sentence count as numbers. */
module SeoService {
  import opened Wrappers
  import opened Text
  import Seqs

  /** An `<img>`; its `alt` attribute when present. */
  datatype Image = Image(alt: Option<string>)

  /** What the analysis reads from a fetched page. `title` is the text of the
      `<title>` tag when there is one; `text` is the visible text with its
      whitespace already collapsed to single spaces. */
  datatype Page = Page(scheme: string, netloc: string, title: Option<string>,
                       description: bool, keywords: bool, viewport: bool, robots: bool,
                       canonical: bool, ogTitle: bool, ogDescription: bool, ogImage: bool,
                       h1Texts: seq<string>, h2Texts: seq<string>, h3: nat, h4: nat, h5: nat, h6: nat,
                       images: seq<Image>, hrefs: seq<string>,
                       text: string, sentenceCount: nat, readability: real, readingLevel: string)

  datatype TechnicalSeo = TechnicalSeo(sslEnabled: bool, metaTagsPresent: map<string, bool>,
                                       headingStructure: map<string, nat>,
                                       imagesWithAlt: nat, imagesWithoutAlt: nat,
                                       internalLinks: nat, externalLinks: nat, brokenLinks: seq<string>,
                                       hasSitemap: bool, hasRobotsTxt: bool, mobileFriendly: bool)

  // ---------------------------------------------------------------------
  // Technical analysis

  /** The names of the nine entries of `meta_tags_present`. */
  const MetaNames: set<string> := {"title", "description", "keywords", "viewport", "robots", "canonical",
                                   "og_title", "og_description", "og_image"}

  /** Whether the tag behind the entry `name` was found. */
  function MetaValue(p: Page, name: string): bool {
    if name == "title" then p.title.Some?
    else if name == "description" then p.description
    else if name == "keywords" then p.keywords
    else if name == "viewport" then p.viewport
    else if name == "robots" then p.robots
    else if name == "canonical" then p.canonical
    else if name == "og_title" then p.ogTitle
    else if name == "og_description" then p.ogDescription
    else p.ogImage
  }

  function MetaTags(p: Page): (m: map<string, bool>)
    ensures m.Keys == MetaNames
    ensures forall name :: name in m ==> m[name] == MetaValue(p, name)
  {
    map name | name in MetaNames :: MetaValue(p, name)
  }

  /** `len(soup.find_all(f'h{level}'))`. */
  function HeadingCount(p: Page, level: nat): nat
    requires 1 <= level <= 6
  {
    match level
    case 1 => |p.h1Texts|
    case 2 => |p.h2Texts|
    case 3 => p.h3
    case 4 => p.h4
    case 5 => p.h5
    case _ => p.h6
  }

  function HeadingKey(level: nat): (k: string)
    requires 1 <= level <= 6
    ensures |k| == 2 && k[1] as int == '0' as int + level
  {
    "h" + [Digit(level)]
  }

  /** `img.get('alt')` is truthy: present and non-empty. */
  predicate HasAlt(img: Image) {
    img.alt.Some? && img.alt.value != ""
  }

  function CountWithAlt(images: seq<Image>): (n: nat)
    ensures n <= |images|
    decreases |images|
  {
    if images == [] then 0
    else CountWithAlt(images[..|images| - 1]) + (if HasAlt(images[|images| - 1]) then 1 else 0)
  }

  datatype LinkKind = Skipped | Internal | External

  /** The branch a link takes in `_analyze_technical_seo`. */
  function ClassifyLink(href: string, netloc: string): (k: LinkKind)
    ensures k == Skipped <==> StartsWith(href, "#")
    ensures k == Internal <==> !StartsWith(href, "#") && (StartsWith(href, "/") || Contains(href, netloc))
  {
    if StartsWith(href, "#") then Skipped
    else if StartsWith(href, "/") || Contains(href, netloc) then Internal
    else External
  }

  function CountKind(hrefs: seq<string>, netloc: string, kind: LinkKind): (n: nat)
    ensures n <= |hrefs|
    decreases |hrefs|
  {
    if hrefs == [] then 0
    else
      CountKind(hrefs[..|hrefs| - 1], netloc, kind)
      + (if ClassifyLink(hrefs[|hrefs| - 1], netloc) == kind then 1 else 0)
  }

  /** Every link is skipped, internal or external, and exactly one of them. */
  lemma {:induction false} LinkPartition(hrefs: seq<string>, netloc: string)
    ensures CountKind(hrefs, netloc, Skipped) + CountKind(hrefs, netloc, Internal)
            + CountKind(hrefs, netloc, External) == |hrefs|
    decreases |hrefs|
  {
    if hrefs != [] {
      LinkPartition(hrefs[..|hrefs| - 1], netloc);
    }
  }

  /** With an empty netloc, `'' in href` holds, so no link is external. */
  lemma {:induction false} EmptyNetlocAllInternal(hrefs: seq<string>)
    ensures CountKind(hrefs, "", External) == 0
    ensures CountKind(hrefs, "", Internal) + CountKind(hrefs, "", Skipped) == |hrefs|
    decreases |hrefs|
  {
    if hrefs != [] {
      EmptyNetlocAllInternal(hrefs[..|hrefs| - 1]);
      ContainsEmpty(hrefs[|hrefs| - 1]);
    }
  }

  /** The link loop of `_analyze_technical_seo`. */
  method CountLinks(hrefs: seq<string>, netloc: string) returns (internal: nat, external: nat)
    ensures internal == CountKind(hrefs, netloc, Internal)
    ensures external == CountKind(hrefs, netloc, External)
    ensures internal + external + CountKind(hrefs, netloc, Skipped) == |hrefs|
  {
    internal, external := 0, 0;
    for i := 0 to |hrefs|
      invariant internal == CountKind(hrefs[..i], netloc, Internal)
      invariant external == CountKind(hrefs[..i], netloc, External)
    {
      var href := hrefs[i];
      assert hrefs[..i + 1][..i] == hrefs[..i];
      if StartsWith(href, "#") {
        continue;
      } else if StartsWith(href, "/") || Contains(href, netloc) {
        internal := internal + 1;
      } else {
        external := external + 1;
      }
    }
    assert hrefs[..|hrefs|] == hrefs;
    LinkPartition(hrefs, netloc);
  }

  /** `_analyze_technical_seo`; the sitemap and robots.txt probes are
      network requests and arrive as their results. */
  method AnalyzeTechnicalSeo(p: Page, hasSitemap: bool, hasRobotsTxt: bool) returns (t: TechnicalSeo)
    ensures t.sslEnabled <==> p.scheme == "https"
    ensures t.metaTagsPresent == MetaTags(p)
    ensures t.headingStructure.Keys == set level | 1 <= level <= 6 :: HeadingKey(level)
    ensures forall level :: 1 <= level <= 6 ==>
      HeadingKey(level) in t.headingStructure && t.headingStructure[HeadingKey(level)] == HeadingCount(p, level)
    ensures t.imagesWithAlt == CountWithAlt(p.images)
    ensures t.imagesWithAlt + t.imagesWithoutAlt == |p.images|
    ensures t.internalLinks == CountKind(p.hrefs, p.netloc, Internal)
    ensures t.externalLinks == CountKind(p.hrefs, p.netloc, External)
    ensures t.brokenLinks == []
    ensures t.hasSitemap == hasSitemap && t.hasRobotsTxt == hasRobotsTxt
    ensures t.mobileFriendly == p.viewport
    ensures H1Count(t) == |p.h1Texts|
  {
    var headings: map<string, nat> := map[];
    for level := 1 to 7
      invariant headings.Keys == set l | 1 <= l < level :: HeadingKey(l)
      invariant forall l :: 1 <= l < level ==> HeadingKey(l) in headings && headings[HeadingKey(l)] == HeadingCount(p, l)
    {
      forall l | 1 <= l < level ensures HeadingKey(l) != HeadingKey(level) {
        assert HeadingKey(l)[1] != HeadingKey(level)[1];
      }
      headings := headings[HeadingKey(level) := HeadingCount(p, level)];
    }
    assert HeadingKey(1) == "h1";
    var withAlt := CountWithAlt(p.images);
    var internal, external := CountLinks(p.hrefs, p.netloc);
    t := TechnicalSeo(p.scheme == "https", MetaTags(p), headings, withAlt, |p.images| - withAlt,
                      internal, external, [], hasSitemap, hasRobotsTxt, p.viewport);
  }

  // ---------------------------------------------------------------------
  // Keyword and content analysis

  datatype KeywordAnalysis = KeywordAnalysis(keyword: string, density: real, frequency: nat,
                                             placementScore: nat, recommendedFrequency: nat)

  /** Keyword density in percent; zero for a page without words. */
  function Density(frequency: nat, keywordWords: nat, wordCount: nat): (d: real)
    ensures d >= 0.0
    ensures wordCount == 0 ==> d == 0.0
    ensures frequency == 0 ==> d == 0.0
  {
    if wordCount > 0 then (frequency as real * keywordWords as real / wordCount as real) * 100.0 else 0.0
  }

  /** Whether the lower-cased `keyword` occurs in the lower-cased text. */
  predicate Mentions(text: string, keywordLower: string) {
    Contains(Lower(text), keywordLower)
  }

  function CountMentioning(texts: seq<string>, keywordLower: string): (n: nat)
    ensures n <= |texts|
    decreases |texts|
  {
    if texts == [] then 0
    else CountMentioning(texts[..|texts| - 1], keywordLower)
         + (if Mentions(texts[|texts| - 1], keywordLower) then 1 else 0)
  }

  /** 30 for the title, 20 for each h1 and 10 for each h2 that mention the
      keyword. */
  function Placement(keywordLower: string, title: Option<string>, h1s: seq<string>, h2s: seq<string>): (s: nat)
    ensures s <= 30 + 20 * |h1s| + 10 * |h2s|
    ensures s == (if title.Some? && Mentions(title.value, keywordLower) then 30 else 0)
                 + 20 * CountMentioning(h1s, keywordLower) + 10 * CountMentioning(h2s, keywordLower)
  {
    (if title.Some? && Mentions(title.value, keywordLower) then 30 else 0)
    + 20 * CountMentioning(h1s, keywordLower) + 10 * CountMentioning(h2s, keywordLower)
  }

  /** The `placement_score +=` loops of `_analyze_content`. */
  method PlacementScore(keywordLower: string, title: Option<string>, h1s: seq<string>, h2s: seq<string>)
    returns (score: nat)
    ensures score == Placement(keywordLower, title, h1s, h2s)
  {
    score := 0;
    if title.Some? && Mentions(title.value, keywordLower) {
      score := score + 30;
    }
    var base := score;
    for i := 0 to |h1s|
      invariant score == base + 20 * CountMentioning(h1s[..i], keywordLower)
    {
      assert h1s[..i + 1][..i] == h1s[..i];
      if Mentions(h1s[i], keywordLower) {
        score := score + 20;
      }
    }
    assert h1s[..|h1s|] == h1s;
    base := score;
    for i := 0 to |h2s|
      invariant score == base + 10 * CountMentioning(h2s[..i], keywordLower)
    {
      assert h2s[..i + 1][..i] == h2s[..i];
      if Mentions(h2s[i], keywordLower) {
        score := score + 10;
      }
    }
    assert h2s[..|h2s|] == h2s;
  }

  /** `max(1, int(word_count * 0.02 / len(keyword.split())))`. */
  function RecommendedFrequency(wordCount: nat, keywordWords: nat): (f: nat)
    requires keywordWords >= 1
    ensures f >= 1
    ensures f * 50 * keywordWords <= wordCount || f == 1
  {
    var q := wordCount / (50 * keywordWords);
    if q > 1 then q else 1
  }

  const FloatZeroDivision: string := "float division by zero"

  /** The metrics `_analyze_content` records for one keyword; a keyword
      with no words makes the recommended frequency divide by zero. */
  function KeywordMetrics(p: Page, keyword: string): (r: Result<KeywordAnalysis>)
    ensures r.Err? <==> WordCount(keyword) == 0
    ensures r.Ok? ==>
      && r.value.keyword == keyword
      && r.value.frequency == Count(Lower(p.text), Lower(keyword))
      && r.value.density == Density(r.value.frequency, WordCount(keyword), WordCount(p.text))
      && r.value.placementScore == Placement(Lower(keyword), p.title, p.h1Texts, p.h2Texts)
      && r.value.recommendedFrequency >= 1
  {
    var kw := Lower(keyword);
    var frequency := Count(Lower(p.text), kw);
    var words := WordCount(keyword);
    if words == 0 then Err(FloatZeroDivision)
    else
      Ok(KeywordAnalysis(keyword, Density(frequency, words, WordCount(p.text)), frequency,
                         Placement(kw, p.title, p.h1Texts, p.h2Texts),
                         RecommendedFrequency(WordCount(p.text), words)))
  }

  /** One pass of the keyword loop of `_analyze_content`. */
  method AnalyzeKeyword(p: Page, keyword: string) returns (r: Result<KeywordAnalysis>)
    ensures r == KeywordMetrics(p, keyword)
  {
    var keywordLower := Lower(keyword);
    var wordCount := WordCount(p.text);
    var frequency := Count(Lower(p.text), keywordLower);
    var density := Density(frequency, WordCount(keyword), wordCount);
    var placement := PlacementScore(keywordLower, p.title, p.h1Texts, p.h2Texts);
    if WordCount(keyword) == 0 {
      return Err(FloatZeroDivision);
    }
    r := Ok(KeywordAnalysis(keyword, density, frequency, placement,
                            RecommendedFrequency(wordCount, WordCount(keyword))));
  }

  function WordPoints(wordCount: nat): int {
    if wordCount >= 300 then 25 else if wordCount >= 150 then 15 else 5
  }

  function ReadabilityPoints(readability: real): int {
    if readability >= 60.0 then 25 else if readability >= 30.0 then 15 else 5
  }

  function Densities(kas: seq<KeywordAnalysis>): (ds: seq<real>)
    ensures |ds| == |kas| && forall i :: 0 <= i < |kas| ==> ds[i] == kas[i].density
  {
    seq(|kas|, i requires 0 <= i < |kas| => kas[i].density)
  }

  /** The keyword band: nothing without keywords, otherwise 20/15/5 on the
      average density. */
  function DensityPoints(kas: seq<KeywordAnalysis>): (pts: int)
    ensures kas == [] ==> pts == 0
    ensures kas != [] ==> pts in {5, 15, 20}
  {
    if kas == [] then 0
    else
      var avg := Seqs.Sum(Densities(kas)) / |kas| as real;
      if 1.0 <= avg <= 3.0 then 20 else if 0.5 <= avg <= 4.0 then 15 else 5
  }

  /** `_calculate_content_quality_score`: the sum of the three bands, which
      stays in [10, 70], so the `min(100, ...)` cap never takes effect. */
  function ContentQualityScore(wordCount: nat, readability: real, kas: seq<KeywordAnalysis>): (score: real)
    ensures 10.0 <= score <= 70.0
    ensures kas == [] ==> score <= 50.0
    ensures score == (WordPoints(wordCount) + ReadabilityPoints(readability) + DensityPoints(kas)) as real
  {
    var raw := (WordPoints(wordCount) + ReadabilityPoints(readability) + DensityPoints(kas)) as real;
    if raw < 100.0 then raw else 100.0
  }

  datatype ContentAnalysis = ContentAnalysis(wordCount: nat, readabilityScore: real, readingLevel: string,
                                             sentenceCount: nat, avgSentenceLength: real,
                                             keywordAnalysis: seq<KeywordAnalysis>,
                                             contentQualityScore: real)

  /** `_analyze_content`. */
  method AnalyzeContent(p: Page, keywords: seq<string>) returns (r: Result<ContentAnalysis>)
    ensures r.Err? <==> exists i :: 0 <= i < |keywords| && WordCount(keywords[i]) == 0
    ensures r.Err? ==> r.error == FloatZeroDivision
    ensures r.Ok? ==>
      var c := r.value;
      && c.wordCount == WordCount(p.text)
      && c.avgSentenceLength == c.wordCount as real / (if p.sentenceCount > 1 then p.sentenceCount else 1) as real
      && |c.keywordAnalysis| == |keywords|
      && (forall i :: 0 <= i < |keywords| ==> Ok(c.keywordAnalysis[i]) == KeywordMetrics(p, keywords[i]))
      && c.contentQualityScore == ContentQualityScore(c.wordCount, p.readability, c.keywordAnalysis)
      && 10.0 <= c.contentQualityScore <= 70.0
  {
    var wordCount := WordCount(p.text);
    var sentences := if p.sentenceCount > 1 then p.sentenceCount else 1;
    var avg := wordCount as real / sentences as real;
    var kas := [];
    for i := 0 to |keywords|
      invariant |kas| == i
      invariant forall j :: 0 <= j < i ==> WordCount(keywords[j]) > 0 && Ok(kas[j]) == KeywordMetrics(p, keywords[j])
    {
      var ka := AnalyzeKeyword(p, keywords[i]);
      if ka.Err? {
        return Err(ka.error);
      }
      kas := kas + [ka.value];
    }
    var quality := ContentQualityScore(wordCount, p.readability, kas);
    r := Ok(ContentAnalysis(wordCount, p.readability, p.readingLevel, p.sentenceCount, avg, kas, quality));
  }

  // ---------------------------------------------------------------------
  // Scores

  predicate MetaPresent(t: TechnicalSeo, name: string) {
    name in t.metaTagsPresent && t.metaTagsPresent[name]
  }

  /** `heading_structure.get('h1', 0)`. */
  function H1Count(t: TechnicalSeo): nat {
    if "h1" in t.headingStructure then t.headingStructure["h1"] else 0
  }

  /** The technical part of `_calculate_overall_score`. */
  function TechnicalPoints(t: TechnicalSeo): (pts: int)
    ensures 0 <= pts <= 40
    ensures pts == 40 <==> t.sslEnabled && MetaPresent(t, "title") && MetaPresent(t, "description") && H1Count(t) == 1
  {
    (if t.sslEnabled then 10 else 0) + (if MetaPresent(t, "title") then 15 else 0)
    + (if MetaPresent(t, "description") then 10 else 0) + (if H1Count(t) == 1 then 5 else 0)
  }

  /** `_calculate_overall_score`: technical points plus 60% of the content
      quality, kept in [0, 100]. */
  function OverallScore(t: TechnicalSeo, c: ContentAnalysis): (score: real)
    ensures 0.0 <= score <= 100.0
    ensures var raw := TechnicalPoints(t) as real + c.contentQualityScore * 0.6;
      0.0 <= raw <= 100.0 ==> score == raw
  {
    var raw := TechnicalPoints(t) as real + c.contentQualityScore * 0.6;
    var lifted := if raw > 0.0 then raw else 0.0;
    if lifted < 100.0 then lifted else 100.0
  }

  /** For any quality score the content analysis can produce the clamp never
      binds and the overall score lies in [6, 82]. */
  lemma OverallScoreUnclamped(t: TechnicalSeo, c: ContentAnalysis)
    requires 10.0 <= c.contentQualityScore <= 70.0
    ensures OverallScore(t, c) == TechnicalPoints(t) as real + c.contentQualityScore * 0.6
    ensures 6.0 <= OverallScore(t, c) <= 82.0
  {
  }

  // ---------------------------------------------------------------------
  // Recommendations

  datatype Recommendation = Recommendation(category: string, priority: string, issue: string,
                                           recommendation: string, impact: string, effort: string)

  const NoHttps := Recommendation("technical", "high", "Website is not using HTTPS",
    "Enable SSL certificate and redirect all HTTP traffic to HTTPS", "Security and search ranking improvement", "medium")
  const MissingTitle := Recommendation("technical", "high", "Missing title tag",
    "Add a unique, descriptive title tag (50-60 characters)", "Major impact on search rankings", "low")
  const MissingDescription := Recommendation("technical", "high", "Missing meta description",
    "Add a compelling meta description (150-160 characters)", "Improves click-through rates from search results", "low")
  const MissingH1 := Recommendation("content", "high", "Missing H1 tag",
    "Add a single, descriptive H1 tag with your main keyword", "Important for search engine understanding", "low")
  const MultipleH1 := Recommendation("content", "medium", "Multiple H1 tags found",
    "Use only one H1 tag per page", "Better content structure for search engines", "low")
  const ShortContent := Recommendation("content", "medium", "Content is too short",
    "Expand content to at least 300 words for better SEO", "More content gives search engines more context", "high")
  const HardToRead := Recommendation("content", "medium", "Content is difficult to read",
    "Simplify language and use shorter sentences", "Better user experience and engagement", "medium")

  function MissingAlt(n: nat): Recommendation {
    Recommendation("technical", "medium", NatToString(n) + " images missing alt text",
                   "Add descriptive alt text to all images", "Improves accessibility and image search rankings", "medium")
  }

  /** The checks on the page head: HTTPS, title and meta description. */
  function HeadChecks(t: TechnicalSeo): (cs: seq<(bool, Recommendation)>)
    ensures |cs| == 3
  {
    [(!t.sslEnabled, NoHttps)] + [(!MetaPresent(t, "title"), MissingTitle)]
    + [(!MetaPresent(t, "description"), MissingDescription)]
  }

  /** The checks on the page body: h1 count, alt texts, length, readability. */
  function BodyChecks(t: TechnicalSeo, c: ContentAnalysis): (cs: seq<(bool, Recommendation)>)
    ensures |cs| == 5
    ensures cs[0] == (H1Count(t) == 0, MissingH1) && cs[1] == (H1Count(t) > 1, MultipleH1)
  {
    [(H1Count(t) == 0, MissingH1)] + [(H1Count(t) > 1, MultipleH1)]
    + [(t.imagesWithoutAlt > 0, MissingAlt(t.imagesWithoutAlt))]
    + [(c.wordCount < 300, ShortContent)] + [(c.readabilityScore < 30.0, HardToRead)]
  }

  /** The eight site checks in the order they are made, each with whether
      it fails. */
  function Checks(t: TechnicalSeo, c: ContentAnalysis): (cs: seq<(bool, Recommendation)>)
    ensures |cs| == 8
    ensures cs[3] == (H1Count(t) == 0, MissingH1) && cs[4] == (H1Count(t) > 1, MultipleH1)
  {
    HeadChecks(t) + BodyChecks(t, c)
  }

  /** The recommendations of the failed checks, in check order. */
  function Fired(checks: seq<(bool, Recommendation)>): (r: seq<Recommendation>)
    ensures |r| <= |checks|
    decreases |checks|
  {
    if checks == [] then []
    else
      var init := checks[..|checks| - 1];
      var last := checks[|checks| - 1];
      Fired(init) + (if last.0 then [last.1] else [])
  }

  lemma FiredSnoc(checks: seq<(bool, Recommendation)>, x: (bool, Recommendation))
    ensures Fired(checks + [x]) == Fired(checks) + (if x.0 then [x.1] else [])
  {
    assert (checks + [x])[..|checks|] == checks;
  }

  /** A recommendation is given exactly when a check carrying it fails. */
  lemma {:induction false} FiredIff(checks: seq<(bool, Recommendation)>, x: Recommendation)
    ensures x in Fired(checks) <==> exists i :: 0 <= i < |checks| && checks[i].0 && checks[i].1 == x
    decreases |checks|
  {
    if checks != [] {
      var init := checks[..|checks| - 1];
      FiredIff(init, x);
      if exists i :: 0 <= i < |checks| && checks[i].0 && checks[i].1 == x {
        var i :| 0 <= i < |checks| && checks[i].0 && checks[i].1 == x;
        if i < |init| {
          assert init[i] == checks[i];
        }
      }
      if exists i :: 0 <= i < |init| && init[i].0 && init[i].1 == x {
        var i :| 0 <= i < |init| && init[i].0 && init[i].1 == x;
        assert checks[i] == init[i];
      }
    }
  }

  lemma {:induction false} FiredAppend(a: seq<(bool, Recommendation)>, b: seq<(bool, Recommendation)>)
    ensures Fired(a + b) == Fired(a) + Fired(b)
    decreases |b|
  {
    if b != [] {
      var init := b[..|b| - 1];
      assert a + b == (a + init) + [b[|b| - 1]];
      FiredAppend(a, init);
      FiredSnoc(a + init, b[|b| - 1]);
      FiredSnoc(init, b[|b| - 1]);
      assert init + [b[|b| - 1]] == b;
    } else {
      assert a + b == a;
    }
  }

  const LowDensityIssue: string := "Low keyword density for '"
  const StuffingIssue: string := "Keyword stuffing detected for '"

  /** The density recommendation for one keyword, if any. */
  function KeywordRecommendation(ka: KeywordAnalysis): (r: Option<Recommendation>)
    ensures r.None? <==> 0.5 <= ka.density <= 3.0
    ensures r.Some? ==> r.value.category == "keywords"
    ensures ka.density < 0.5 ==> r.Some? && r.value.issue == LowDensityIssue + ka.keyword + "'"
    ensures ka.density > 3.0 ==> r.Some? && r.value.issue == StuffingIssue + ka.keyword + "'"
  {
    if ka.density < 0.5 then
      Some(Recommendation("keywords", "medium", LowDensityIssue + ka.keyword + "'",
                          "Increase usage of '" + ka.keyword + "' to 1-2%", "Better keyword relevance", "medium"))
    else if ka.density > 3.0 then
      Some(Recommendation("keywords", "medium", StuffingIssue + ka.keyword + "'",
                          "Reduce usage of '" + ka.keyword + "' to avoid over-optimization",
                          "Avoid search engine penalties", "low"))
    else None
  }

  function KeywordRecommendations(kas: seq<KeywordAnalysis>): (r: seq<Recommendation>)
    ensures |r| <= |kas|
    ensures forall x :: x in r ==> x.category == "keywords"
    decreases |kas|
  {
    if kas == [] then []
    else
      var rest := KeywordRecommendations(kas[..|kas| - 1]);
      match KeywordRecommendation(kas[|kas| - 1])
      case None => rest
      case Some(x) => rest + [x]
  }

  /** Keywords whose density lies outside [0.5, 3]. */
  function OffDensity(kas: seq<KeywordAnalysis>): nat
    decreases |kas|
  {
    if kas == [] then 0
    else OffDensity(kas[..|kas| - 1]) + (if 0.5 <= kas[|kas| - 1].density <= 3.0 then 0 else 1)
  }

  /** Exactly one keyword recommendation per keyword with an off density. */
  lemma {:induction false} KeywordRecommendationsCount(kas: seq<KeywordAnalysis>)
    ensures |KeywordRecommendations(kas)| == OffDensity(kas)
    decreases |kas|
  {
    if kas != [] {
      KeywordRecommendationsCount(kas[..|kas| - 1]);
    }
  }

  /** What `_generate_recommendations` returns. */
  function Recommendations(t: TechnicalSeo, c: ContentAnalysis): seq<Recommendation> {
    Fired(Checks(t, c)) + KeywordRecommendations(c.keywordAnalysis)
  }

  /** At most seven site recommendations, since a page cannot have both no
      h1 and several, plus one per keyword whose density is off. */
  lemma RecommendationsBound(t: TechnicalSeo, c: ContentAnalysis)
    ensures |Recommendations(t, c)| == |Fired(Checks(t, c))| + OffDensity(c.keywordAnalysis)
    ensures |Recommendations(t, c)| <= 7 + |c.keywordAnalysis|
  {
    var body := BodyChecks(t, c);
    FiredAppend(HeadChecks(t), body);
    assert body == [body[0]] + [body[1]] + body[2..];
    FiredAppend([body[0]] + [body[1]], body[2..]);
    FiredAppend([body[0]], [body[1]]);
    FiredSnoc([], body[0]);
    FiredSnoc([], body[1]);
    KeywordRecommendationsCount(c.keywordAnalysis);
  }

  /** `_generate_recommendations`. */
  method GenerateRecommendations(t: TechnicalSeo, c: ContentAnalysis) returns (r: seq<Recommendation>)
    ensures r == Recommendations(t, c)
  {
    r := HeadRecommendations(t);
    var body := BodyRecommendations(t, c);
    FiredAppend(HeadChecks(t), BodyChecks(t, c));
    r := r + body;
    var kas := c.keywordAnalysis;
    for i := 0 to |kas|
      invariant r == Fired(Checks(t, c)) + KeywordRecommendations(kas[..i])
    {
      assert kas[..i + 1][..i] == kas[..i];
      var ka := kas[i];
      if ka.density < 0.5 {
        r := r + [KeywordRecommendation(ka).value];
      } else if ka.density > 3.0 {
        r := r + [KeywordRecommendation(ka).value];
      }
    }
    assert kas[..|kas|] == kas;
  }

  /** The first three checks of `_generate_recommendations`. */
  method HeadRecommendations(t: TechnicalSeo) returns (r: seq<Recommendation>)
    ensures r == Fired(HeadChecks(t))
  {
    r := [];
    ghost var done: seq<(bool, Recommendation)> := [(!t.sslEnabled, NoHttps)];
    FiredSnoc([], (!t.sslEnabled, NoHttps));
    assert [] + [(!t.sslEnabled, NoHttps)] == done;
    if !t.sslEnabled {
      r := r + [NoHttps];
    }
    assert r == Fired(done);
    FiredSnoc(done, (!MetaPresent(t, "title"), MissingTitle));
    done := done + [(!MetaPresent(t, "title"), MissingTitle)];
    if !MetaPresent(t, "title") {
      r := r + [MissingTitle];
    }
    assert r == Fired(done);
    FiredSnoc(done, (!MetaPresent(t, "description"), MissingDescription));
    done := done + [(!MetaPresent(t, "description"), MissingDescription)];
    if !MetaPresent(t, "description") {
      r := r + [MissingDescription];
    }
    assert r == Fired(done);
    assert done == HeadChecks(t);
  }

  /** The last five checks of `_generate_recommendations`. */
  method BodyRecommendations(t: TechnicalSeo, c: ContentAnalysis) returns (r: seq<Recommendation>)
    ensures r == Fired(BodyChecks(t, c))
  {
    r := [];
    ghost var done: seq<(bool, Recommendation)> := [(H1Count(t) == 0, MissingH1)];
    FiredSnoc([], (H1Count(t) == 0, MissingH1));
    assert [] + [(H1Count(t) == 0, MissingH1)] == done;
    if H1Count(t) == 0 {
      r := r + [MissingH1];
    }
    assert r == Fired(done);
    FiredSnoc(done, (H1Count(t) > 1, MultipleH1));
    done := done + [(H1Count(t) > 1, MultipleH1)];
    if H1Count(t) > 1 {
      r := r + [MultipleH1];
    }
    assert r == Fired(done);
    FiredSnoc(done, (t.imagesWithoutAlt > 0, MissingAlt(t.imagesWithoutAlt)));
    done := done + [(t.imagesWithoutAlt > 0, MissingAlt(t.imagesWithoutAlt))];
    if t.imagesWithoutAlt > 0 {
      r := r + [MissingAlt(t.imagesWithoutAlt)];
    }
    assert r == Fired(done);
    FiredSnoc(done, (c.wordCount < 300, ShortContent));
    done := done + [(c.wordCount < 300, ShortContent)];
    if c.wordCount < 300 {
      r := r + [ShortContent];
    }
    assert r == Fired(done);
    FiredSnoc(done, (c.readabilityScore < 30.0, HardToRead));
    done := done + [(c.readabilityScore < 30.0, HardToRead)];
    if c.readabilityScore < 30.0 {
      r := r + [HardToRead];
    }
    assert r == Fired(done);
    assert done == BodyChecks(t, c);
  }

  // ---------------------------------------------------------------------
  // Analytics over stored analyses

  /** One stored recommendation; its `category` key when present. */
  datatype StoredRecommendation = StoredRecommendation(category: Option<string>)

  /** A row of the `seodata` table; `recommendations` is absent when the
      stored result has no such key. */
  datatype SeoRecord = SeoRecord(id: nat, userId: int, url: string, score: real, createdAt: int,
                                 recommendations: Option<seq<StoredRecommendation>>)

  datatype TrendPoint = TrendPoint(date: int, score: real, url: string)
  datatype Issue = Issue(category: string, count: nat)
  datatype Analytics = Analytics(totalAnalyses: nat, avgScore: real, trend: seq<TrendPoint>, topIssues: seq<Issue>)

  function OfUser(rows: seq<SeoRecord>, userId: int): (r: seq<SeoRecord>)
    ensures forall x :: x in r <==> x in rows && x.userId == userId
    decreases |rows|
  {
    if rows == [] then []
    else
      var last := rows[|rows| - 1];
      assert rows == rows[..|rows| - 1] + [last];
      OfUser(rows[..|rows| - 1], userId) + (if last.userId == userId then [last] else [])
  }

  function CreatedAt(a: SeoRecord): real { a.createdAt as real }

  /** The query: the user's analyses, newest first. */
  function UserAnalyses(rows: seq<SeoRecord>, userId: int): (r: seq<SeoRecord>)
    ensures multiset(r) == multiset(OfUser(rows, userId))
    ensures Seqs.NonIncreasing(r, CreatedAt)
  {
    Seqs.SortDesc(OfUser(rows, userId), CreatedAt)
  }

  /** `rec.get('category', 'other')`. */
  function CategoryOf(r: StoredRecommendation): string {
    r.category.GetOr("other")
  }

  /** All stored recommendations, analysis by analysis. */
  function AllRecommendations(analyses: seq<SeoRecord>): seq<StoredRecommendation>
    decreases |analyses|
  {
    if analyses == [] then []
    else
      var last := analyses[|analyses| - 1];
      AllRecommendations(analyses[..|analyses| - 1])
      + (if last.recommendations.Some? then last.recommendations.value else [])
  }

  function CategoryCount(recs: seq<StoredRecommendation>, category: string): nat
    decreases |recs|
  {
    if recs == [] then 0
    else CategoryCount(recs[..|recs| - 1], category) + (if CategoryOf(recs[|recs| - 1]) == category then 1 else 0)
  }

  /** The categories in order of first appearance (the dict's key order). */
  function Categories(recs: seq<StoredRecommendation>): (cs: seq<string>)
    ensures forall i, j :: 0 <= i < j < |cs| ==> cs[i] != cs[j]
    ensures forall c :: c in cs <==> CategoryCount(recs, c) > 0
    decreases |recs|
  {
    if recs == [] then []
    else
      var init := Categories(recs[..|recs| - 1]);
      var c := CategoryOf(recs[|recs| - 1]);
      if c in init then init else init + [c]
  }

  function IssueCount(i: Issue): real { i.count as real }

  function IssueList(recs: seq<StoredRecommendation>): (r: seq<Issue>)
    ensures |r| == |Categories(recs)|
    ensures forall i :: 0 <= i < |r| ==> r[i] == Issue(Categories(recs)[i], CategoryCount(recs, Categories(recs)[i]))
  {
    var cs := Categories(recs);
    seq(|cs|, i requires 0 <= i < |cs| => Issue(cs[i], CategoryCount(recs, cs[i])))
  }

  /** `top_issues[:5]`: the issue list ordered by count, largest first
      (ties in order of first appearance), cut to five. */
  function TopIssues(recs: seq<StoredRecommendation>): (r: seq<Issue>)
    ensures |r| == if |Categories(recs)| <= 5 then |Categories(recs)| else 5
    ensures Seqs.NonIncreasing(r, IssueCount)
  {
    var sorted := Seqs.SortDesc(IssueList(recs), IssueCount);
    var r := Seqs.Take(sorted, 5);
    assert forall i, j :: 0 <= i < j < |r| ==> r[i] == sorted[i] && r[j] == sorted[j];
    r
  }

  /** Each top issue carries its category's real count, and no category
      appears twice. */
  lemma TopIssuesCounted(recs: seq<StoredRecommendation>)
    ensures forall x :: x in TopIssues(recs) ==> x.count == CategoryCount(recs, x.category) && x.count > 0
    ensures var r := TopIssues(recs); forall i, j :: 0 <= i < j < |r| ==> r[i].category != r[j].category
  {
    var all := IssueList(recs);
    var sorted := Seqs.SortDesc(all, IssueCount);
    var r := TopIssues(recs);
    assert r == sorted[..|r|];
    forall x | x in r ensures x.count == CategoryCount(recs, x.category) && x.count > 0 {
      var i :| 0 <= i < |r| && r[i] == x;
      assert sorted[i] in multiset(all);
    }
    forall i, j | 0 <= i < j < |r| ensures r[i].category != r[j].category {
      assert r[i] == sorted[i] && r[j] == sorted[j];
      DistinctIssues(all, sorted, recs, i, j);
    }
  }

  /** A category left out of the top issues occurs no more often than any
      category kept. */
  lemma {:induction false} TopIssuesMaximal(recs: seq<StoredRecommendation>, c: string)
    requires CategoryCount(recs, c) > 0
    requires forall x :: x in TopIssues(recs) ==> x.category != c
    ensures forall x :: x in TopIssues(recs) ==> x.count >= CategoryCount(recs, c)
  {
    var cs := Categories(recs);
    var all := IssueList(recs);
    var sorted := Seqs.SortDesc(all, IssueCount);
    var r := TopIssues(recs);
    assert r == sorted[..|r|];
    var k :| 0 <= k < |cs| && cs[k] == c;
    assert all[k] == Issue(c, CategoryCount(recs, c));
    assert all[k] in multiset(sorted);
    var m :| 0 <= m < |sorted| && sorted[m] == all[k];
    if m < |r| {
      assert false;
    }
    forall x | x in r ensures x.count >= CategoryCount(recs, c) {
      var i :| 0 <= i < |r| && r[i] == x;
      assert sorted[i] == x;
      assert IssueCount(sorted[i]) >= IssueCount(sorted[m]);
    }
  }

  lemma DistinctIssues(all: seq<Issue>, sorted: seq<Issue>, recs: seq<StoredRecommendation>, i: nat, j: nat)
    requires all == IssueList(recs) && multiset(sorted) == multiset(all)
    requires i < j < |sorted|
    ensures sorted[i].category != sorted[j].category
  {
    var cs := Categories(recs);
    if sorted[i].category == sorted[j].category {
      assert sorted[i] in multiset(all) && sorted[j] in multiset(all);
      var a :| 0 <= a < |all| && all[a] == sorted[i];
      var b :| 0 <= b < |all| && all[b] == sorted[j];
      assert cs[a] == cs[b];
      assert sorted[i] == sorted[j];
      MultisetTwice(sorted, i, j);
      DistinctMultiplicity(all, a);
    }
  }

  /** An element at two positions occurs at least twice. */
  lemma MultisetTwice<T>(s: seq<T>, i: nat, j: nat)
    requires i < j < |s| && s[i] == s[j]
    ensures multiset(s)[s[i]] >= 2
  {
    assert s == s[..i] + [s[i]] + s[i + 1..j] + [s[j]] + s[j + 1..];
  }

  /** Issues of distinct categories occur once each. */
  lemma DistinctMultiplicity(all: seq<Issue>, a: nat)
    requires a < |all|
    requires forall x, y :: 0 <= x < y < |all| ==> all[x].category != all[y].category
    ensures multiset(all)[all[a]] == 1
  {
    var before, after := all[..a], all[a + 1..];
    assert all == before + [all[a]] + after;
    assert all[a] !in before by {
      forall k | 0 <= k < |before| ensures before[k] != all[a] {
        assert before[k] == all[k];
      }
    }
    assert all[a] !in after by {
      forall k | 0 <= k < |after| ensures after[k] != all[a] {
        assert after[k] == all[a + 1 + k];
      }
    }
  }

  function TrendOf(a: SeoRecord): TrendPoint {
    TrendPoint(a.createdAt, a.score, a.url)
  }

  function Scores(analyses: seq<SeoRecord>): (s: seq<real>)
    ensures |s| == |analyses| && forall i :: 0 <= i < |analyses| ==> s[i] == analyses[i].score
  {
    seq(|analyses|, i requires 0 <= i < |analyses| => analyses[i].score)
  }

  /** The trend points of `analyses`, one per analysis, in order. */
  function Trend(analyses: seq<SeoRecord>): (r: seq<TrendPoint>)
    ensures |r| == |analyses| && forall i :: 0 <= i < |analyses| ==> r[i] == TrendOf(analyses[i])
  {
    seq(|analyses|, i requires 0 <= i < |analyses| => TrendOf(analyses[i]))
  }

  /** The trend as `get_seo_analytics` builds it, from `analyses[-10:]`. */
  function TrendAsWritten(analyses: seq<SeoRecord>): seq<TrendPoint> {
    Trend(Seqs.TakeLast(analyses, 10))
  }

  /** The trend over the ten most recent analyses. */
  function RecentTrend(analyses: seq<SeoRecord>): seq<TrendPoint> {
    Trend(Seqs.Take(analyses, 10))
  }

  /** With the list newest first, `analyses[-10:]` is the ten oldest: of
      eleven analyses the newest is missing from the trend. */
  lemma TrendOmitsNewest()
    ensures var analyses := seq(11, i requires 0 <= i < 11 => SeoRecord(i, 1, "u", 0.0, 11 - i, None));
      && Seqs.NonIncreasing(analyses, CreatedAt)
      && TrendOf(analyses[0]) !in TrendAsWritten(analyses)
      && TrendOf(analyses[0]) in RecentTrend(analyses)
  {
    var analyses := seq(11, i requires 0 <= i < 11 => SeoRecord(i, 1, "u", 0.0, 11 - i, None));
    var t := TrendAsWritten(analyses);
    assert Seqs.TakeLast(analyses, 10) == analyses[1..];
    forall k | 0 <= k < |t| ensures t[k] != TrendOf(analyses[0]) {
      assert t[k].date == 10 - k;
    }
    assert RecentTrend(analyses)[0] == TrendOf(analyses[0]);
  }

  /** On a newest-first list, no analysis left out of the recent trend is
      newer than one kept in it. */
  lemma RecentTrendKeepsNewest(analyses: seq<SeoRecord>)
    requires Seqs.NonIncreasing(analyses, CreatedAt)
    ensures |RecentTrend(analyses)| == if |analyses| < 10 then |analyses| else 10
    ensures forall i, j :: 0 <= i < |RecentTrend(analyses)| <= j < |analyses| ==>
              RecentTrend(analyses)[i].date >= analyses[j].createdAt
  {
    var r := RecentTrend(analyses);
    forall i, j | 0 <= i < |r| <= j < |analyses| ensures r[i].date >= analyses[j].createdAt {
      assert r[i] == TrendOf(analyses[i]);
      assert CreatedAt(analyses[i]) >= CreatedAt(analyses[j]);
    }
  }

  /** `get_seo_analytics` for the user `userId`. */
  method SeoAnalytics(rows: seq<SeoRecord>, userId: int) returns (r: Analytics)
    ensures var analyses := UserAnalyses(rows, userId);
      && (analyses == [] ==> r == Analytics(0, 0.0, [], []))
      && (analyses != [] ==>
            && r.totalAnalyses == |analyses|
            && r.avgScore == Seqs.Sum(Scores(analyses)) / |analyses| as real
            && r.trend == TrendAsWritten(analyses)
            && r.topIssues == TopIssues(AllRecommendations(analyses)))
  {
    var analyses := UserAnalyses(rows, userId);
    if analyses == [] {
      return Analytics(0, 0.0, [], []);
    }
    var total := |analyses|;
    var avg := Seqs.Sum(Scores(analyses)) / total as real;
    var trend := BuildTrend(Seqs.TakeLast(analyses, 10));
    var recs := CollectRecommendations(analyses);
    var issues := IssueCounts(recs);
    var sorted := Seqs.SortDesc(issues, IssueCount);
    r := Analytics(total, avg, trend, Seqs.Take(sorted, 5));
  }

  /** `[{'category': cat, 'count': count} for cat, count in issue_counts.items()]`. */
  method IssueCounts(recs: seq<StoredRecommendation>) returns (issues: seq<Issue>)
    ensures issues == IssueList(recs)
  {
    var keys, counts := CountIssues(recs);
    issues := seq(|keys|, i requires 0 <= i < |keys| => Issue(keys[i], counts[keys[i]]));
  }

  /** The `trend_data.append` loop. */
  method BuildTrend(analyses: seq<SeoRecord>) returns (trend: seq<TrendPoint>)
    ensures trend == Trend(analyses)
  {
    trend := [];
    for i := 0 to |analyses|
      invariant |trend| == i && forall k :: 0 <= k < i ==> trend[k] == TrendOf(analyses[k])
    {
      trend := trend + [TrendOf(analyses[i])];
    }
  }

  /** The `all_recommendations.extend` loop. */
  method CollectRecommendations(analyses: seq<SeoRecord>) returns (recs: seq<StoredRecommendation>)
    ensures recs == AllRecommendations(analyses)
  {
    recs := [];
    for i := 0 to |analyses|
      invariant recs == AllRecommendations(analyses[..i])
    {
      assert analyses[..i + 1][..i] == analyses[..i];
      if analyses[i].recommendations.Some? {
        recs := recs + analyses[i].recommendations.value;
      }
    }
    assert analyses[..|analyses|] == analyses;
  }

  /** The `issue_counts` loop: the dict's keys in insertion order and its
      values. */
  method CountIssues(recs: seq<StoredRecommendation>) returns (keys: seq<string>, counts: map<string, nat>)
    ensures keys == Categories(recs)
    ensures counts.Keys == set c | c in keys
    ensures forall c :: c in counts ==> counts[c] == CategoryCount(recs, c)
  {
    keys, counts := [], map[];
    for i := 0 to |recs|
      invariant keys == Categories(recs[..i])
      invariant counts.Keys == set c | c in keys
      invariant forall c :: c in counts ==> counts[c] == CategoryCount(recs[..i], c)
    {
      var category := CategoryOf(recs[i]);
      assert recs[..i + 1][..i] == recs[..i];
      var seen := if category in counts then counts[category] else 0;
      if category !in keys {
        keys := keys + [category];
      }
      counts := counts[category := seen + 1];
    }
    assert recs[..|recs|] == recs;
  }
}
