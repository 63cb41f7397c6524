/** Model of backend/app/utils/helpers.py: keyword-hit relevance scoring and
    the prompt dispatch used for the AI service. */
module Helpers {
  import opened Wrappers
  import opened Text

  /** Keyword `k` occurs in `text`, both lower-cased (`k.lower() in text.lower()`). */
  predicate Hits(text: string, k: string) {
    Contains(Lower(text), Lower(k))
  }

  /** `sum(1 for k in keywords if k.lower() in text.lower())`: the number of
      entries of `keywords`, counted with multiplicity, that hit. */
  function HitCount(text: string, keywords: seq<string>): (n: nat)
    ensures n <= |keywords|
    decreases |keywords|
  {
    if keywords == [] then 0
    else HitCount(text, keywords[..|keywords| - 1]) + (if Hits(text, keywords[|keywords| - 1]) then 1 else 0)
  }

  /** `score_text_relevance`: `min(100.0, hit_count * 25.0)`. */
  function ScoreTextRelevance(text: string, keywords: seq<string>): (score: real)
    ensures 0.0 <= score <= 100.0
    ensures HitCount(text, keywords) >= 4 ==> score == 100.0
    ensures HitCount(text, keywords) < 4 ==> score == 25.0 * HitCount(text, keywords) as real
  {
    var raw := HitCount(text, keywords) as real * 25.0;
    if raw < 100.0 then raw else 100.0
  }

  /** The score is always one of the five quarter steps. */
  lemma ScoreIsQuarterStep(text: string, keywords: seq<string>)
    ensures ScoreTextRelevance(text, keywords) in {0.0, 25.0, 50.0, 75.0, 100.0}
  {
    var n := HitCount(text, keywords);
    assert n >= 4 || n == 0 || n == 1 || n == 2 || n == 3;
  }

  /** Hits of a concatenated keyword list add up. */
  lemma {:induction false} HitCountAppend(text: string, a: seq<string>, b: seq<string>)
    ensures HitCount(text, a + b) == HitCount(text, a) + HitCount(text, b)
    decreases |b|
  {
    if b == [] {
      assert a + b == a;
    } else {
      var b' := b[..|b| - 1];
      HitCountAppend(text, a, b');
      assert (a + b)[..|a + b| - 1] == a + b';
      assert (a + b)[|a + b| - 1] == b[|b| - 1];
    }
  }

  /** Appending keywords never lowers the score. */
  lemma ScoreMonotone(text: string, a: seq<string>, b: seq<string>)
    ensures ScoreTextRelevance(text, a) <= ScoreTextRelevance(text, a + b)
  {
    HitCountAppend(text, a, b);
  }

  /** The empty keyword occurs in every text, so it always counts as a hit. */
  lemma EmptyKeywordHits(text: string)
    ensures Hits(text, "")
  {
    assert Lower("") == "";
    ContainsEmpty(Lower(text));
  }

  /** The fields of the `data` dict that `build_ai_prompt` reads; an absent
      field is a missing dict key. */
  datatype PromptData = PromptData(topic: Option<string>, keywords: Option<seq<string>>, url: Option<string>)

  /** `build_ai_prompt`: a missing key raises `KeyError`. */
  function BuildAiPrompt(task: string, data: PromptData): (r: Result<string>)
    ensures task != "content" && task != "summary" ==> r == Ok("Unknown AI prompt.")
    ensures task == "summary" ==> (r.Ok? <==> data.url.Some?)
    ensures task == "summary" && data.url.Some? ==> r.value == "Summarize this site: " + data.url.value
    ensures task == "content" ==> (r.Ok? <==> data.topic.Some? && data.keywords.Some?)
    ensures task == "content" && r.Ok? ==>
      r.value == "Generate a 3D-rich, SEO-optimized article on: " + data.topic.value
                 + " including " + Join(", ", data.keywords.value)
  {
    if task == "content" then
      if data.topic.None? then Err("KeyError: 'topic'")
      else if data.keywords.None? then Err("KeyError: 'keywords'")
      else Ok("Generate a 3D-rich, SEO-optimized article on: " + data.topic.value
              + " including " + Join(", ", data.keywords.value))
    else if task == "summary" then
      if data.url.None? then Err("KeyError: 'url'")
      else Ok("Summarize this site: " + data.url.value)
    else Ok("Unknown AI prompt.")
  }
}
