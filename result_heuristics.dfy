/**
 * The result-stage heuristics (modules/heuristics/result_heuristics.py):
 * confidence thresholding on hedging language, and hallucination detection
 * by checking the claims a result makes against the tool outputs.
 */
module ResultHeuristics {
  import opened Text
  import opened Base

  // ---------------------------------------------------- ConfidenceThreshold

  /** `hedging_threshold` is never read by the source and is not modelled. */
  datatype ConfidenceConfig = ConfidenceConfig(minConfidence: real, checkHedgingWords: bool, hedgingWords: seq<string>)

  const DefaultConfidenceConfig := ConfidenceConfig(0.7, true, [
    "maybe", "perhaps", "possibly", "might", "could", "probably",
    "uncertain", "unsure", "unclear", "not sure", "don't know"])

  /** The confidence below which a passing result is only warned about. */
  const ModerateConfidence: real := 0.85

  /** The confidence each hedging occurrence costs. */
  const HedgePenalty: real := 0.15

  /** Occurrences of all hedging words in `text`, each counted as `str.count` does. */
  function HedgeCount(words: seq<string>, text: string): nat {
    if words == [] then 0 else Count(text, words[0]) + HedgeCount(words[1..], text)
  }

  /** `max(0.0, 1.0 - n * 0.15)` */
  function ConfidenceFromHedges(n: nat): (c: real)
    ensures 0.0 <= c <= 1.0
    ensures n == 0 <==> c == 1.0
  {
    var raw := 1.0 - (n as real) * HedgePenalty;
    if raw < 0.0 then 0.0 else raw
  }

  /** `_calculate_confidence` */
  function Confidence(cfg: ConfidenceConfig, result: string): (c: real)
    ensures 0.0 <= c <= 1.0
  {
    if !cfg.checkHedgingWords then 1.0 else ConfidenceFromHedges(HedgeCount(cfg.hedgingWords, Lower(result)))
  }

  /** More hedging never raises confidence. */
  lemma ConfidenceMonotone(m: nat, n: nat)
    requires m <= n
    ensures ConfidenceFromHedges(n) <= ConfidenceFromHedges(m)
  {
  }

  /** The text whose hedging is measured: a dict's "result" entry, otherwise `str(input)`. */
  function ResultText(input: Payload): string {
    match input
    case Dict(result, rendered) => result.GetOr(rendered)
    case _ => Render(input)
  }

  /** The confidence the check uses: the context's, when it has one. */
  function EffectiveConfidence(cfg: ConfidenceConfig, ctx: Context, input: Payload): real {
    match ctx.confidence
    case Some(c) => c
    case None => Confidence(cfg, ResultText(input))
  }

  function ConfidenceCheck(cfg: ConfidenceConfig, ctx: Context, input: Payload): (r: HeuristicResult) {
    var confidence := EffectiveConfidence(cfg, ctx, input);
    if confidence < cfg.minConfidence then
      HeuristicResult(Failed, None,
        map["confidence" := VReal(confidence), "min_confidence" := VReal(cfg.minConfidence),
            "requires_refinement" := VBool(true)],
        Some("Low confidence result"))
    else if confidence < ModerateConfidence then
      HeuristicResult(Warning, Some(input),
        map["confidence" := VReal(confidence), "warning" := VStr("moderate_confidence")],
        Some("Moderate confidence"))
    else
      HeuristicResult(Passed, Some(input),
        map["confidence" := VReal(confidence), "high_confidence" := VBool(true)], None)
  }

  /** The check fails below the minimum, warns below 0.85, passes otherwise, and
      never changes the result it hands on. */
  lemma ConfidenceVerdict(cfg: ConfidenceConfig, ctx: Context, input: Payload)
    ensures var r := ConfidenceCheck(cfg, ctx, input);
      var c := EffectiveConfidence(cfg, ctx, input);
      && (r.status == Failed <==> c < cfg.minConfidence)
      && (r.status == Warning <==> cfg.minConfidence <= c < ModerateConfidence)
      && (r.status == Passed <==> cfg.minConfidence <= c && ModerateConfidence <= c)
      && (r.status == Failed <==> r.modifiedInput.None?)
      && (r.status != Failed ==> r.modifiedInput == Some(input))
  {
  }

  /** Under the default configuration and without a confidence in the context,
      one hedging occurrence still passes, two warn, and three or more fail. */
  lemma DefaultConfidenceBands(input: Payload)
    ensures var n := HedgeCount(DefaultConfidenceConfig.hedgingWords, Lower(ResultText(input)));
      var s := ConfidenceCheck(DefaultConfidenceConfig, NoContext, input).status;
      && (n <= 1 ==> s == Passed)
      && (n == 2 ==> s == Warning)
      && (n >= 3 ==> s == Failed)
  {
    var n := HedgeCount(DefaultConfidenceConfig.hedgingWords, Lower(ResultText(input)));
    if n >= 3 {
      assert (n as real) * HedgePenalty >= 3.0 * HedgePenalty;
    }
  }

  // -------------------------------------------------- HallucinationDetection

  datatype HallucinationConfig = HallucinationConfig(requireGrounding: bool, suspiciousPatterns: seq<string>)

  const DefaultHallucinationConfig := HallucinationConfig(true, [
    "the document (says|states|mentions)",
    "according to (the|this)",
    "as stated in",
    "the data shows",
    "research indicates"])

  /** A match of a pattern: the positions `match.start()` and `match.end()`. */
  datatype Span = Span(start: nat, end: nat)

  /** `re.finditer(pattern, text, re.IGNORECASE)`, as the spans of its matches. */
  type PatternMatcher = (string, string) -> seq<Span>

  /** `s[a:b]` for non-negative bounds, clamped as Python clamps them. */
  function Slice(s: string, a: nat, b: nat): (r: string)
    ensures |r| <= |s|
  {
    var hi := if b < |s| then b else |s|;
    if a >= hi then [] else s[a..hi]
  }

  /** The sentence around a match: from just after the last '.' before the
      match to the first '.' at or after its end, stripped. */
  function SentenceAround(result: string, m: Span): string {
    var start := RFindChar(result, '.', m.start) + 1;
    var dot := Find(result, ".", m.end);
    var end := if dot == -1 then |result| else dot;
    Strip(Slice(result, start, end))
  }

  /** The sentences around the matches `ms`, one per match. */
  function SentencesAround(result: string, ms: seq<Span>): (ss: seq<string>)
    ensures |ss| == |ms|
  {
    seq(|ms|, i requires 0 <= i < |ms| => SentenceAround(result, ms[i]))
  }

  /** The non-empty strings of `ss`, in order. */
  function NonEmpty(ss: seq<string>): (r: seq<string>)
    ensures |r| <= |ss|
  {
    if ss == [] then []
    else
      var last := ss[|ss| - 1];
      NonEmpty(ss[..|ss| - 1]) + (if last != [] then [last] else [])
  }

  /** `NonEmpty` keeps exactly the non-empty strings. */
  lemma {:induction false} NonEmptyMembers(ss: seq<string>)
    ensures [] !in NonEmpty(ss)
    ensures forall s <- ss :: s != [] ==> s in NonEmpty(ss)
    ensures forall s <- NonEmpty(ss) :: s in ss
  {
    if ss != [] {
      var front := ss[..|ss| - 1];
      NonEmptyMembers(front);
      assert ss == front + [ss[|ss| - 1]];
    }
  }

  lemma NonEmptyStep(ss: seq<string>, i: nat)
    requires i < |ss|
    ensures NonEmpty(ss[..i + 1]) == NonEmpty(ss[..i]) + (if ss[i] != [] then [ss[i]] else [])
  {
    assert ss[..i + 1][..i] == ss[..i];
  }

  /** The claims found for the matches `ms` of one pattern. */
  function ClaimsOfMatches(result: string, ms: seq<Span>): (claims: seq<string>)
    ensures |claims| <= |ms|
  {
    NonEmpty(SentencesAround(result, ms))
  }

  /** `_extract_claims`: pattern by pattern, match by match. */
  function Claims(patterns: seq<string>, matcher: PatternMatcher, result: string): seq<string> {
    if patterns == [] then []
    else
      var n := |patterns| - 1;
      Claims(patterns[..n], matcher, result) + ClaimsOfMatches(result, matcher(patterns[n], result))
  }

  lemma ClaimsAppend(patterns: seq<string>, matcher: PatternMatcher, result: string)
    requires patterns != []
    ensures var n := |patterns| - 1;
      Claims(patterns, matcher, result)
      == Claims(patterns[..n], matcher, result) + NonEmpty(SentencesAround(result, matcher(patterns[n], result)))
  {
  }

  /** No claim is empty, and every claim is the sentence around a match of some pattern. */
  lemma {:induction false} ClaimsSound(patterns: seq<string>, matcher: PatternMatcher, result: string)
    ensures [] !in Claims(patterns, matcher, result)
    ensures forall c <- Claims(patterns, matcher, result) ::
      exists p <- patterns :: c in SentencesAround(result, matcher(p, result))
  {
    if patterns != [] {
      var n := |patterns| - 1;
      var front := patterns[..n];
      var ss := SentencesAround(result, matcher(patterns[n], result));
      ClaimsSound(front, matcher, result);
      NonEmptyMembers(ss);
      ClaimsAppend(patterns, matcher, result);
      forall c <- Claims(patterns, matcher, result)
        ensures exists p <- patterns :: c in SentencesAround(result, matcher(p, result))
      {
        if c in Claims(front, matcher, result) {
          var p :| p in front && c in SentencesAround(result, matcher(p, result));
          assert p in patterns;
        } else {
          assert c in ss;
          assert patterns[n] in patterns;
        }
      }
    }
  }

  /** Every non-empty sentence around a match of a pattern is a claim. */
  lemma {:induction false} ClaimsComplete(patterns: seq<string>, matcher: PatternMatcher, result: string,
                                          k: nat, c: string)
    requires k < |patterns| && c in SentencesAround(result, matcher(patterns[k], result)) && c != []
    ensures c in Claims(patterns, matcher, result)
  {
    var n := |patterns| - 1;
    ClaimsAppend(patterns, matcher, result);
    if k == n {
      NonEmptyMembers(SentencesAround(result, matcher(patterns[n], result)));
    } else {
      var front := patterns[..n];
      assert front[k] == patterns[k];
      ClaimsComplete(front, matcher, result, k, c);
    }
  }

  /** The loop over the sentences around the matches of one pattern, keeping
      the non-empty ones. */
  method AppendNonEmpty(claims: seq<string>, sentences: seq<string>) returns (out: seq<string>)
    ensures out == claims + NonEmpty(sentences)
  {
    out := claims;
    for i := 0 to |sentences|
      invariant out == claims + NonEmpty(sentences[..i])
    {
      NonEmptyStep(sentences, i);
      if sentences[i] != [] {
        out := out + [sentences[i]];
      }
    }
    assert sentences[..|sentences|] == sentences;
  }

  /** The extraction loop. */
  method ExtractClaims(patterns: seq<string>, matcher: PatternMatcher, result: string) returns (claims: seq<string>)
    ensures claims == Claims(patterns, matcher, result)
  {
    claims := [];
    for p := 0 to |patterns|
      invariant claims == Claims(patterns[..p], matcher, result)
    {
      var ms := matcher(patterns[p], result);
      assert patterns[..p + 1][..p] == patterns[..p];
      claims := AppendNonEmpty(claims, SentencesAround(result, ms));
    }
    assert patterns[..|patterns|] == patterns;
  }

  const Stopwords: set<string> := {"the", "a", "an", "is", "are", "was", "were", "in", "on", "at"}

  /** The claim's distinct lower-cased words other than the stopwords. */
  function ClaimWords(claim: string): set<string> {
    (set w | w in Split(Lower(claim))) - Stopwords
  }

  /** The claim words that occur, as substrings, in the combined outputs. */
  function GroundedWords(claim: string, combined: string): (g: set<string>)
    ensures g <= ClaimWords(claim)
  {
    set w | w in ClaimWords(claim) && Contains(combined, w)
  }

  /** A claim is grounded when at least half of its words occur in the outputs;
      a claim made only of stopwords never is. */
  predicate ClaimGrounded(claim: string, combined: string) {
    GroundingRatio(claim, combined) >= 0.5
  }

  /** The share of the claim's words found in the outputs, 0 when it has none. */
  function GroundingRatio(claim: string, combined: string): real {
    var words := ClaimWords(claim);
    if words == {} then 0.0 else (|GroundedWords(claim, combined)| as real) / (|words| as real)
  }

  /** The elements of `xs` that fail `keep`, in order. */
  function Rejected<T>(xs: seq<T>, keep: T -> bool): (r: seq<T>)
    ensures |r| <= |xs|
  {
    if xs == [] then []
    else
      var n := |xs| - 1;
      Rejected(xs[..n], keep) + (if !keep(xs[n]) then [xs[n]] else [])
  }

  lemma RejectedStep<T>(xs: seq<T>, keep: T -> bool, i: nat)
    requires i < |xs|
    ensures Rejected(xs[..i + 1], keep) == Rejected(xs[..i], keep) + (if !keep(xs[i]) then [xs[i]] else [])
  {
    assert xs[..i + 1][..i] == xs[..i];
  }

  /** Nothing is rejected exactly when every element passes. */
  lemma {:induction false} RejectedEmptyIff<T>(xs: seq<T>, keep: T -> bool)
    ensures Rejected(xs, keep) == [] <==> forall i :: 0 <= i < |xs| ==> keep(xs[i])
  {
    if xs != [] {
      var n := |xs| - 1;
      RejectedEmptyIff(xs[..n], keep);
      assert forall i :: 0 <= i < n ==> xs[i] == xs[..n][i];
    }
  }

  /** The claims that are not grounded, in order. */
  function Ungrounded(claims: seq<string>, combined: string): (u: seq<string>)
    ensures |u| <= |claims|
  {
    Rejected(claims, c => ClaimGrounded(c, combined))
  }

  /** No claim is left ungrounded exactly when every claim is grounded. */
  lemma UngroundedEmptyIff(claims: seq<string>, combined: string)
    ensures Ungrounded(claims, combined) == [] <==> forall i :: 0 <= i < |claims| ==> ClaimGrounded(claims[i], combined)
  {
    RejectedEmptyIff(claims, c => ClaimGrounded(c, combined));
  }

  /** The grounding loop over the claims. */
  method UngroundedClaims(claims: seq<string>, combined: string) returns (ungrounded: seq<string>)
    ensures ungrounded == Ungrounded(claims, combined)
  {
    ungrounded := [];
    for i := 0 to |claims|
      invariant ungrounded == Rejected(claims[..i], c => ClaimGrounded(c, combined))
    {
      RejectedStep(claims, c => ClaimGrounded(c, combined), i);
      var words := ClaimWords(claims[i]);
      var grounded := GroundedWords(claims[i], combined);
      var ratio := if words == {} then 0.0 else (|grounded| as real) / (|words| as real);
      if ratio < 0.5 {
        ungrounded := ungrounded + [claims[i]];
      }
    }
    assert claims[..|claims|] == claims;
  }

  /** The dict `_check_grounding` returns. */
  datatype Grounding = Grounding(
    grounded: bool, ungroundedClaims: seq<string>, score: real, reason: Option<string>, totalClaims: Option<nat>)

  /** `_check_grounding` */
  function CheckGrounding(cfg: HallucinationConfig, matcher: PatternMatcher, result: string, toolOutputs: seq<string>)
    : (g: Grounding)
    ensures 0.0 <= g.score <= 1.0
  {
    if toolOutputs == [] then Grounding(false, [], 0.0, Some("no_tool_outputs"), None)
    else
      var claims := Claims(cfg.suspiciousPatterns, matcher, result);
      if claims == [] then Grounding(true, [], 1.0, Some("no_claims"), None)
      else
        var u := Ungrounded(claims, Lower(Join(toolOutputs, " ")));
        RatioBounds(|u| as real, |claims| as real);
        var score := 1.0 - (|u| as real) / (|claims| as real);
        Grounding(u == [], u, score, None, Some(|claims|))
  }

  /** The result is grounded exactly when there are tool outputs and no claim
      is ungrounded in them, and a grounded result always scores 1. */
  lemma GroundingVerdict(cfg: HallucinationConfig, matcher: PatternMatcher, result: string, outputs: seq<string>)
    ensures var g := CheckGrounding(cfg, matcher, result, outputs);
      var claims := Claims(cfg.suspiciousPatterns, matcher, result);
      && (g.grounded <==> outputs != [] && Ungrounded(claims, Lower(Join(outputs, " "))) == [])
      && (g.grounded ==> g.score == 1.0)
      && (!g.grounded ==> g.score < 1.0)
  {
    var claims := Claims(cfg.suspiciousPatterns, matcher, result);
    if outputs != [] && claims != [] {
      var u := Ungrounded(claims, Lower(Join(outputs, " ")));
      RatioBounds(|u| as real, |claims| as real);
    }
  }

  function GroundingMetadata(detected: bool, g: Grounding): Metadata {
    var base := map["hallucination_detected" := VBool(detected), "grounded" := VBool(g.grounded),
                     "ungrounded_claims" := VStrs(g.ungroundedClaims), "grounding_score" := VReal(g.score)];
    var withReason := if g.reason.Some? then base["reason" := VStr(g.reason.value)] else base;
    if g.totalClaims.Some? then withReason["total_claims" := VInt(g.totalClaims.value)] else withReason
  }

  function HallucinationCheck(cfg: HallucinationConfig, matcher: PatternMatcher, ctx: Context, input: Payload)
    : (r: HeuristicResult)
  {
    if !cfg.requireGrounding then HeuristicResult(Passed, Some(input), map[], Some("Grounding check disabled"))
    else
      var g := CheckGrounding(cfg, matcher, Render(input), ctx.toolOutputs.GetOr([]));
      if !g.grounded then
        HeuristicResult(Failed, None, GroundingMetadata(true, g),
          Some("Potential hallucination: " + IntToString(|g.ungroundedClaims|) + " ungrounded claims"))
      else if g.score < 1.0 then
        HeuristicResult(Warning, Some(input), GroundingMetadata(false, g), Some("Grounding score"))
      else
        HeuristicResult(Passed, Some(input), GroundingMetadata(false, g), None)
  }

  /** With grounding required, a result fails exactly when there are no tool
      outputs or some extracted claim is not grounded in them; the warning
      branch of the source can never be taken. */
  lemma HallucinationVerdict(cfg: HallucinationConfig, matcher: PatternMatcher, ctx: Context, input: Payload)
    ensures var r := HallucinationCheck(cfg, matcher, ctx, input);
      var outputs := ctx.toolOutputs.GetOr([]);
      var claims := Claims(cfg.suspiciousPatterns, matcher, Render(input));
      && r.status != Warning && r.status != Modified
      && (r.status == Failed <==>
            cfg.requireGrounding
            && (outputs == [] || exists i :: 0 <= i < |claims| && !ClaimGrounded(claims[i], Lower(Join(outputs, " ")))))
      && (r.status == Failed <==> r.modifiedInput.None?)
      && (r.status == Passed ==> r.modifiedInput == Some(input))
  {
    var outputs := ctx.toolOutputs.GetOr([]);
    var claims := Claims(cfg.suspiciousPatterns, matcher, Render(input));
    GroundingVerdict(cfg, matcher, Render(input), outputs);
    UngroundedEmptyIff(claims, Lower(Join(outputs, " ")));
  }

  /** A claim whose words are all found in the outputs is grounded. */
  lemma FullyCoveredClaimGrounded(claim: string, combined: string)
    requires ClaimWords(claim) != {}
    requires forall w <- ClaimWords(claim) :: Contains(combined, w)
    ensures ClaimGrounded(claim, combined)
  {
    hide Split, Lower, Contains;
    var words := ClaimWords(claim);
    assert GroundedWords(claim, combined) == words;
    var n := |words| as real;
    RatioBounds(n, n);
  }
}
