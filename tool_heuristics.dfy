/**
 * The tool-stage heuristics (modules/heuristics/tool_heuristics.py):
 * affinity re-ranking, speed-based reordering and rate limiting. Each check
 * is a function of its configuration, the state the heuristic has recorded,
 * the context and the payload; `Pipeline.Heuristic` holds that state and
 * updates it with the `Record...` functions below.
 */
module ToolHeuristics {
  import opened Text
  import opened Base

  // ------------------------------------------------------ stable ordering

  /** `s` is ordered by `key`, largest first. */
  predicate SortedDesc(s: seq<Tool>, key: Tool -> real) {
    forall i, j :: 0 <= i < j < |s| ==> key(s[i]) >= key(s[j])
  }

  /** The tools of `s` whose key is `v`, in their order in `s`. */
  function WithKey(s: seq<Tool>, key: Tool -> real, v: real): (r: seq<Tool>)
    ensures |r| <= |s|
  {
    if s == [] then []
    else (if key(s[0]) == v then [s[0]] else []) + WithKey(s[1..], key, v)
  }

  lemma {:induction false} WithKeyAppend(s: seq<Tool>, t: seq<Tool>, key: Tool -> real, v: real)
    ensures WithKey(s + t, key, v) == WithKey(s, key, v) + WithKey(t, key, v)
  {
    if s == [] {
      assert s + t == t;
    } else {
      assert (s + t)[0] == s[0];
      assert (s + t)[1..] == s[1..] + t;
      WithKeyAppend(s[1..], t, key, v);
      var h := if key(s[0]) == v then [s[0]] else [];
      assert WithKey(s + t, key, v) == h + WithKey(s[1..] + t, key, v);
      assert h + (WithKey(s[1..], key, v) + WithKey(t, key, v)) == (h + WithKey(s[1..], key, v)) + WithKey(t, key, v);
    }
  }

  /** Inserts `x` after every element whose key is at least its own. */
  function InsertDesc(sorted: seq<Tool>, x: Tool, key: Tool -> real): seq<Tool> {
    if sorted == [] || key(sorted[0]) < key(x) then [x] + sorted
    else [sorted[0]] + InsertDesc(sorted[1..], x, key)
  }

  /** A stable sort by `key`, largest first: Python's `list.sort(key=..., reverse=True)`. */
  function SortDesc(s: seq<Tool>, key: Tool -> real): seq<Tool> {
    if s == [] then [] else InsertDesc(SortDesc(s[..|s| - 1], key), s[|s| - 1], key)
  }

  lemma {:induction false} InsertDescMultiset(sorted: seq<Tool>, x: Tool, key: Tool -> real)
    ensures multiset(InsertDesc(sorted, x, key)) == multiset(sorted) + multiset{x}
  {
    if !(sorted == [] || key(sorted[0]) < key(x)) {
      InsertDescMultiset(sorted[1..], x, key);
      assert sorted == [sorted[0]] + sorted[1..];
    }
  }

  lemma {:induction false} InsertDescBelow(sorted: seq<Tool>, x: Tool, key: Tool -> real, bound: real)
    requires forall k :: 0 <= k < |sorted| ==> key(sorted[k]) <= bound
    requires key(x) <= bound
    ensures forall k :: 0 <= k < |InsertDesc(sorted, x, key)| ==> key(InsertDesc(sorted, x, key)[k]) <= bound
  {
    if !(sorted == [] || key(sorted[0]) < key(x)) {
      InsertDescBelow(sorted[1..], x, key, bound);
    }
  }

  lemma {:induction false} InsertDescSorted(sorted: seq<Tool>, x: Tool, key: Tool -> real)
    requires SortedDesc(sorted, key)
    ensures SortedDesc(InsertDesc(sorted, x, key), key)
  {
    if !(sorted == [] || key(sorted[0]) < key(x)) {
      var head, rest := sorted[0], sorted[1..];
      InsertDescSorted(rest, x, key);
      forall k | 0 <= k < |rest| ensures key(rest[k]) <= key(head) {
        assert rest[k] == sorted[k + 1];
      }
      InsertDescBelow(rest, x, key, key(head));
      var ins := InsertDesc(rest, x, key);
      var out := [head] + ins;
      forall i, j | 0 <= i < j < |out| ensures key(out[i]) >= key(out[j]) {
        assert out[j] == ins[j - 1];
        if i > 0 {
          assert out[i] == ins[i - 1];
        }
      }
    }
  }

  lemma {:induction false} InsertDescStable(sorted: seq<Tool>, x: Tool, key: Tool -> real, v: real)
    requires SortedDesc(sorted, key)
    ensures WithKey(InsertDesc(sorted, x, key), key, v) == WithKey(sorted, key, v) + (if key(x) == v then [x] else [])
  {
    if sorted == [] || key(sorted[0]) < key(x) {
      WithKeyAppend([x], sorted, key, v);
      if key(x) == v {
        NoneWithKey(sorted, key, v);
      }
    } else {
      var head, rest := sorted[0], sorted[1..];
      InsertDescStable(rest, x, key, v);
      assert sorted == [head] + rest;
      WithKeyAppend([head], InsertDesc(rest, x, key), key, v);
      WithKeyAppend([head], rest, key, v);
    }
  }

  /** No tool of a list sorted largest first lies below a key greater than its first key has. */
  lemma {:induction false} NoneWithKey(sorted: seq<Tool>, key: Tool -> real, v: real)
    requires SortedDesc(sorted, key)
    requires sorted == [] || key(sorted[0]) < v
    ensures WithKey(sorted, key, v) == []
  {
    if sorted != [] {
      assert sorted[1..] == [] || key(sorted[1..][0]) <= key(sorted[0]);
      NoneWithKey(sorted[1..], key, v);
    }
  }

  /** The stable sort orders by key, largest first, loses and adds nothing, and
      keeps tools with equal keys in their original order. */
  lemma {:induction false} SortDescCorrect(s: seq<Tool>, key: Tool -> real)
    ensures SortedDesc(SortDesc(s, key), key)
    ensures multiset(SortDesc(s, key)) == multiset(s)
    ensures forall v :: WithKey(SortDesc(s, key), key, v) == WithKey(s, key, v)
  {
    if s != [] {
      var front, last := s[..|s| - 1], s[|s| - 1];
      SortDescCorrect(front, key);
      InsertDescSorted(SortDesc(front, key), last, key);
      InsertDescMultiset(SortDesc(front, key), last, key);
      assert s == front + [last];
      forall v ensures WithKey(SortDesc(s, key), key, v) == WithKey(s, key, v) {
        SortDescStableStep(s, key, v);
      }
    }
  }

  lemma SortDescStableStep(s: seq<Tool>, key: Tool -> real, v: real)
    requires s != []
    requires SortedDesc(SortDesc(s[..|s| - 1], key), key)
    requires WithKey(SortDesc(s[..|s| - 1], key), key, v) == WithKey(s[..|s| - 1], key, v)
    ensures WithKey(SortDesc(s, key), key, v) == WithKey(s, key, v)
  {
    var front, last := s[..|s| - 1], s[|s| - 1];
    var sorted := SortDesc(front, key);
    assert SortDesc(s, key) == InsertDesc(sorted, last, key);
    assert WithKey([last], key, v) == (if key(last) == v then [last] else []) by {
      assert [last][1..] == [];
    }
    hide SortDesc, InsertDesc;
    assert s == front + [last];
    InsertDescStable(sorted, last, key, v);
    WithKeyAppend(front, [last], key, v);
  }

  // ---------------------------------------------------- ToolAffinityScoring

  /** `min_samples`; `success_threshold` and `boost_factor` are never read by the source. */
  datatype AffinityConfig = AffinityConfig(minSamples: int)

  const DefaultAffinityConfig := AffinityConfig(3)

  /** The `{"success": .., "total": ..}` record kept per intent and tool. */
  datatype Counts = Counts(success: nat, total: nat)

  /** Every record stems from at least one call, and successes are among the calls. */
  predicate AffinityValid(scores: map<string, Counts>) {
    forall k <- scores :: 1 <= scores[k].total && scores[k].success <= scores[k].total
  }

  /** `f"{query_intent}:{tool_name}"` */
  function AffinityKey(intent: string, toolName: string): string {
    intent + ":" + toolName
  }

  /** `record_tool_usage` on the affinity table. */
  function RecordUsage(scores: map<string, Counts>, intent: string, toolName: string, success: bool)
    : (r: map<string, Counts>)
    ensures r.Keys == scores.Keys + {AffinityKey(intent, toolName)}
    ensures forall k <- scores :: k != AffinityKey(intent, toolName) ==> r[k] == scores[k]
    ensures AffinityValid(scores) ==> AffinityValid(r)
  {
    var key := AffinityKey(intent, toolName);
    var prior := if key in scores then scores[key] else Counts(0, 0);
    scores[key := Counts(prior.success + if success then 1 else 0, prior.total + 1)]
  }

  /** `get_affinity_score`: the success rate once a combination has enough samples, 1.0 before. */
  function AffinityScore(cfg: AffinityConfig, scores: map<string, Counts>, intent: string, toolName: string): (s: real)
    requires AffinityValid(scores)
    ensures 0.0 <= s <= 1.0
  {
    var key := AffinityKey(intent, toolName);
    if key !in scores || scores[key].total < cfg.minSamples then 1.0
    else
      var c := scores[key];
      assert (c.success as real) <= (c.total as real);
      (c.success as real) / (c.total as real)
  }

  /** Recording one more outcome updates the score to the new success rate,
      once enough samples exist, and leaves every other combination's score alone. */
  lemma RecordUsageScore(cfg: AffinityConfig, scores: map<string, Counts>, intent: string, toolName: string, success: bool,
                         otherIntent: string, otherTool: string)
    requires AffinityValid(scores)
    ensures var r := RecordUsage(scores, intent, toolName, success);
      var key := AffinityKey(intent, toolName);
      var n := if key in scores then scores[key].total else 0;
      var k := if key in scores then scores[key].success else 0;
      && r[key] == Counts(k + (if success then 1 else 0), n + 1)
      && (n + 1 >= cfg.minSamples ==>
            AffinityScore(cfg, r, intent, toolName) == ((k + if success then 1 else 0) as real) / ((n + 1) as real))
      && (AffinityKey(otherIntent, otherTool) != key ==>
            AffinityScore(cfg, r, otherIntent, otherTool) == AffinityScore(cfg, scores, otherIntent, otherTool))
  {
  }

  /** The query intent the affinity check looks up, "general" by default. */
  function IntentOf(ctx: Context): string {
    ctx.queryIntent.GetOr("general")
  }

  function ScoreMap(cfg: AffinityConfig, scores: map<string, Counts>, intent: string, tools: seq<Tool>): Metadata
    requires AffinityValid(scores)
  {
    map n | n in ToolNames(tools) :: VReal(AffinityScore(cfg, scores, intent, n))
  }

  function AffinityCheck(cfg: AffinityConfig, scores: map<string, Counts>, ctx: Context, input: Payload): (r: HeuristicResult)
    requires AffinityValid(scores)
  {
    if !input.ToolList? then HeuristicResult(Passed, Some(input), map[], Some("Input is not a tool list"))
    else
      var tools := input.tools;
      var intent := IntentOf(ctx);
      var key := (t: Tool) => AffinityScore(cfg, scores, intent, t.name);
      if exists t <- tools :: key(t) != 1.0 then
        var reranked := SortDesc(tools, key);
        HeuristicResult(Modified, Some(ToolList(reranked)),
          map["reranked" := VBool(true), "query_intent" := VStr(intent),
              "scores" := VDict(ScoreMap(cfg, scores, intent, reranked))],
          Some("Re-ranked " + IntToString(|tools|) + " tools by affinity"))
      else
        HeuristicResult(Passed, Some(input),
          map["reranked" := VBool(false), "reason" := VStr("no_affinity_data")], None)
  }

  /** The scoring loop: pairs each tool with its affinity score. */
  method ScoreTools(cfg: AffinityConfig, scores: map<string, Counts>, intent: string, tools: seq<Tool>)
    returns (scored: seq<(Tool, real)>)
    requires AffinityValid(scores)
    ensures |scored| == |tools|
    ensures forall i :: 0 <= i < |tools| ==> scored[i] == (tools[i], AffinityScore(cfg, scores, intent, tools[i].name))
  {
    scored := [];
    for i := 0 to |tools|
      invariant |scored| == i
      invariant forall k :: 0 <= k < i ==> scored[k] == (tools[k], AffinityScore(cfg, scores, intent, tools[k].name))
    {
      scored := scored + [(tools[i], AffinityScore(cfg, scores, intent, tools[i].name))];
    }
  }

  /** A tool list leaves the affinity check as the same tools, ordered by score
      with ties in their original order, and re-ranked only when some score is
      not neutral; anything else passes through unchanged. */
  lemma AffinityCheckReranks(cfg: AffinityConfig, scores: map<string, Counts>, ctx: Context, input: Payload)
    requires AffinityValid(scores)
    ensures var r := AffinityCheck(cfg, scores, ctx, input);
      && r.modifiedInput.Some?
      && (r.status == Passed || r.status == Modified)
      && (r.status == Passed ==> r.modifiedInput == Some(input))
      && (input.ToolList? ==>
            var key := (t: Tool) => AffinityScore(cfg, scores, IntentOf(ctx), t.name);
            var out := r.modifiedInput.value;
            && (r.status == Modified <==> exists t <- input.tools :: key(t) != 1.0)
            && out.ToolList?
            && multiset(out.tools) == multiset(input.tools)
            && SortedDesc(out.tools, key)
            && forall v :: WithKey(out.tools, key, v) == WithKey(input.tools, key, v))
  {
    if input.ToolList? {
      var key := (t: Tool) => AffinityScore(cfg, scores, IntentOf(ctx), t.name);
      SortDescCorrect(input.tools, key);
      if !exists t <- input.tools :: key(t) != 1.0 {
        forall i, j | 0 <= i < j < |input.tools| ensures key(input.tools[i]) >= key(input.tools[j]) {
          assert input.tools[i] in input.tools && input.tools[j] in input.tools;
        }
      }
    }
  }

  // ------------------------------------------------ TimeBasedPrioritization

  datatype TimeConfig = TimeConfig(slowThresholdMs: real, fastThresholdMs: real, preferFastForSimple: bool)

  const DefaultTimeConfig := TimeConfig(2000.0, 500.0, true)

  /** The number of measurements kept per tool. */
  const LatencyWindow: nat := 20

  /** The last `LatencyWindow` measurements of `h`. */
  function LastWindow(h: seq<real>): (w: seq<real>)
    ensures |w| <= LatencyWindow
  {
    if |h| > LatencyWindow then h[|h| - LatencyWindow..] else h
  }

  /** Trimming after every append keeps exactly the last measurements of the whole history. */
  lemma WindowOfWindow(h: seq<real>, x: real)
    ensures LastWindow(LastWindow(h) + [x]) == LastWindow(h + [x])
  {
    if |h| > LatencyWindow {
      assert (h + [x])[|h| + 1 - LatencyWindow..] == (h[|h| - LatencyWindow..] + [x])[1..];
    }
  }

  function Latencies(latencies: map<string, seq<real>>, toolName: string): seq<real> {
    if toolName in latencies then latencies[toolName] else []
  }

  /** `record_tool_latency` */
  function RecordLatency(latencies: map<string, seq<real>>, toolName: string, latency: real)
    : (r: map<string, seq<real>>)
    ensures r.Keys == latencies.Keys + {toolName}
    ensures forall t <- latencies :: t != toolName ==> r[t] == latencies[t]
  {
    latencies[toolName := LastWindow(Latencies(latencies, toolName) + [latency])]
  }

  function Sum(s: seq<real>): real {
    if s == [] then 0.0 else Sum(s[..|s| - 1]) + s[|s| - 1]
  }

  /** `get_avg_latency`: the mean of the kept measurements, `None` when there are none. */
  function AvgLatency(latencies: map<string, seq<real>>, toolName: string): Option<real> {
    var w := Latencies(latencies, toolName);
    if w == [] then None else Some(Sum(w) / (|w| as real))
  }

  lemma {:induction false} SumBounds(s: seq<real>, lo: real, hi: real)
    requires forall i :: 0 <= i < |s| ==> lo <= s[i] <= hi
    ensures (|s| as real) * lo <= Sum(s) <= (|s| as real) * hi
  {
    if s != [] {
      SumBounds(s[..|s| - 1], lo, hi);
    }
  }

  /** The average lies within the range of the kept measurements. */
  lemma AvgLatencyBounds(latencies: map<string, seq<real>>, toolName: string, lo: real, hi: real)
    requires var w := Latencies(latencies, toolName); forall i :: 0 <= i < |w| ==> lo <= w[i] <= hi
    requires Latencies(latencies, toolName) != []
    ensures AvgLatency(latencies, toolName).Some?
    ensures lo <= AvgLatency(latencies, toolName).value <= hi
  {
    var w := Latencies(latencies, toolName);
    SumBounds(w, lo, hi);
    var n := |w| as real;
    assert Sum(w) / n * n == Sum(w);
  }

  datatype Speed = Fast | Normal | Slow

  function SpeedRank(s: Speed): nat {
    match s
    case Fast => 0
    case Normal => 1
    case Slow => 2
  }

  /** The class a tool falls into: unmeasured tools are normal. */
  function SpeedOf(cfg: TimeConfig, latencies: map<string, seq<real>>, t: Tool): Speed {
    match AvgLatency(latencies, t.name)
    case None => Normal
    case Some(avg) =>
      if avg < cfg.fastThresholdMs then Fast
      else if avg > cfg.slowThresholdMs then Slow
      else Normal
  }

  /** The speed class of every tool under the recorded latencies. */
  function Classifier(cfg: TimeConfig, latencies: map<string, seq<real>>): Tool -> Speed {
    t => SpeedOf(cfg, latencies, t)
  }

  /** The tools of the given speed, in their original order. */
  function OfSpeed(tools: seq<Tool>, cls: Tool -> Speed, speed: Speed): seq<Tool> {
    if tools == [] then []
    else (if cls(tools[0]) == speed then [tools[0]] else []) + OfSpeed(tools[1..], cls, speed)
  }

  /** Every selected tool is one of the given tools and of the requested class. */
  lemma {:induction false} OfSpeedMembers(tools: seq<Tool>, cls: Tool -> Speed, speed: Speed)
    ensures forall t <- OfSpeed(tools, cls, speed) :: t in tools && cls(t) == speed
  {
    if tools != [] {
      OfSpeedMembers(tools[1..], cls, speed);
    }
  }

  /** The categorising loop of the check. */
  method PartitionBySpeed(cfg: TimeConfig, latencies: map<string, seq<real>>, tools: seq<Tool>)
    returns (fast: seq<Tool>, normal: seq<Tool>, slow: seq<Tool>)
    ensures fast == OfSpeed(tools, Classifier(cfg, latencies), Fast)
    ensures normal == OfSpeed(tools, Classifier(cfg, latencies), Normal)
    ensures slow == OfSpeed(tools, Classifier(cfg, latencies), Slow)
  {
    var cls := Classifier(cfg, latencies);
    fast, normal, slow := [], [], [];
    for i := 0 to |tools|
      invariant fast == OfSpeed(tools[..i], cls, Fast)
      invariant normal == OfSpeed(tools[..i], cls, Normal)
      invariant slow == OfSpeed(tools[..i], cls, Slow)
    {
      var t := tools[i];
      assert cls(t) == SpeedOf(cfg, latencies, t);
      assert tools[..i + 1] == tools[..i] + [t];
      OfSpeedAppend(tools[..i], [t], cls, Fast);
      OfSpeedAppend(tools[..i], [t], cls, Normal);
      OfSpeedAppend(tools[..i], [t], cls, Slow);
      assert [t][1..] == [];
      assert OfSpeed([t], cls, Fast) == (if cls(t) == Fast then [t] else []);
      assert OfSpeed([t], cls, Normal) == (if cls(t) == Normal then [t] else []);
      assert OfSpeed([t], cls, Slow) == (if cls(t) == Slow then [t] else []);
      hide OfSpeed;
      var avg := AvgLatency(latencies, t.name);
      if avg.None? {
        normal := normal + [t];
      } else if avg.value < cfg.fastThresholdMs {
        fast := fast + [t];
      } else if avg.value > cfg.slowThresholdMs {
        slow := slow + [t];
      } else {
        normal := normal + [t];
      }
    }
    assert tools[..|tools|] == tools;
  }

  function ComplexityOf(ctx: Context): string {
    ctx.queryComplexity.GetOr("complex")
  }

  function TimeCheck(cfg: TimeConfig, latencies: map<string, seq<real>>, ctx: Context, input: Payload): (r: HeuristicResult) {
    if !input.ToolList? then HeuristicResult(Passed, Some(input), map[], None)
    else if !cfg.preferFastForSimple || ComplexityOf(ctx) != "simple" then
      HeuristicResult(Passed, Some(input), map[], Some("Skipping time prioritization (complex query)"))
    else
      var tools, cls := input.tools, Classifier(cfg, latencies);
      var fast, normal, slow := OfSpeed(tools, cls, Fast), OfSpeed(tools, cls, Normal), OfSpeed(tools, cls, Slow);
      if fast != [] || slow != [] then
        HeuristicResult(Modified, Some(ToolList(fast + normal + slow)),
          map["reordered" := VBool(true), "fast_count" := VInt(|fast|),
              "normal_count" := VInt(|normal|), "slow_count" := VInt(|slow|)],
          Some("Prioritized " + IntToString(|fast|) + " fast tools for simple query"))
      else HeuristicResult(Passed, Some(input), map[], None)
  }

  lemma {:induction false} SpeedClassesPartition(tools: seq<Tool>, cls: Tool -> Speed)
    ensures multiset(OfSpeed(tools, cls, Fast)) + multiset(OfSpeed(tools, cls, Normal))
            + multiset(OfSpeed(tools, cls, Slow)) == multiset(tools)
  {
    if tools != [] {
      SpeedClassesPartition(tools[1..], cls);
      assert tools == [tools[0]] + tools[1..];
    }
  }

  lemma {:induction false} OfSpeedAppend(a: seq<Tool>, b: seq<Tool>, cls: Tool -> Speed, sp: Speed)
    ensures OfSpeed(a + b, cls, sp) == OfSpeed(a, cls, sp) + OfSpeed(b, cls, sp)
  {
    if a == [] {
      assert a + b == b;
    } else {
      assert (a + b)[0] == a[0];
      assert (a + b)[1..] == a[1..] + b;
      OfSpeedAppend(a[1..], b, cls, sp);
      var h := if cls(a[0]) == sp then [a[0]] else [];
      assert OfSpeed(a + b, cls, sp) == h + OfSpeed(a[1..] + b, cls, sp);
      assert h + (OfSpeed(a[1..], cls, sp) + OfSpeed(b, cls, sp)) == (h + OfSpeed(a[1..], cls, sp)) + OfSpeed(b, cls, sp);
    }
  }

  /** Selecting from tools that are all of one class gives all of them for
      that class and none for any other. */
  lemma {:induction false} OfSpeedUniform(tools: seq<Tool>, cls: Tool -> Speed, speed: Speed, sp: Speed)
    requires forall t <- tools :: cls(t) == speed
    ensures OfSpeed(tools, cls, sp) == if sp == speed then tools else []
  {
    if tools != [] {
      assert forall t <- tools[1..] :: t in tools;
      assert cls(tools[0]) == speed;
      OfSpeedUniform(tools[1..], cls, speed, sp);
    }
  }

  lemma SpeedAt(f: seq<Tool>, n: seq<Tool>, s: seq<Tool>, cls: Tool -> Speed, i: nat)
    requires forall t <- f :: cls(t) == Fast
    requires forall t <- n :: cls(t) == Normal
    requires forall t <- s :: cls(t) == Slow
    requires i < |f + n + s|
    ensures SpeedRank(cls((f + n + s)[i])) == if i < |f| then 0 else if i < |f| + |n| then 1 else 2
  {
    var out := f + n + s;
    if i < |f| {
      assert out[i] == f[i] && f[i] in f;
    } else if i < |f| + |n| {
      assert out[i] == n[i - |f|] && n[i - |f|] in n;
    } else {
      assert out[i] == s[i - |f| - |n|] && s[i - |f| - |n|] in s;
    }
  }

  /** `fast + normal + slow` holds the same tools ordered by class, each class
      in its original order. */
  lemma ReorderCorrect(tools: seq<Tool>, cls: Tool -> Speed)
    ensures var out := OfSpeed(tools, cls, Fast) + OfSpeed(tools, cls, Normal) + OfSpeed(tools, cls, Slow);
      && multiset(out) == multiset(tools)
      && (forall i, j :: 0 <= i < j < |out| ==> SpeedRank(cls(out[i])) <= SpeedRank(cls(out[j])))
      && forall sp :: OfSpeed(out, cls, sp) == OfSpeed(tools, cls, sp)
  {
    SpeedClassesPartition(tools, cls);
    ReorderRanked(tools, cls);
    forall sp ensures OfSpeed(OfSpeed(tools, cls, Fast) + OfSpeed(tools, cls, Normal) + OfSpeed(tools, cls, Slow), cls, sp)
                      == OfSpeed(tools, cls, sp) {
      ReorderStable(tools, cls, sp);
    }
  }

  lemma ReorderRanked(tools: seq<Tool>, cls: Tool -> Speed)
    ensures var out := OfSpeed(tools, cls, Fast) + OfSpeed(tools, cls, Normal) + OfSpeed(tools, cls, Slow);
      forall i, j :: 0 <= i < j < |out| ==> SpeedRank(cls(out[i])) <= SpeedRank(cls(out[j]))
  {
    var f, n, s := OfSpeed(tools, cls, Fast), OfSpeed(tools, cls, Normal), OfSpeed(tools, cls, Slow);
    var out := f + n + s;
    OfSpeedMembers(tools, cls, Fast);
    OfSpeedMembers(tools, cls, Normal);
    OfSpeedMembers(tools, cls, Slow);
    forall i, j | 0 <= i < j < |out| ensures SpeedRank(cls(out[i])) <= SpeedRank(cls(out[j])) {
      SpeedAt(f, n, s, cls, i);
      SpeedAt(f, n, s, cls, j);
    }
  }

  lemma ReorderStable(tools: seq<Tool>, cls: Tool -> Speed, sp: Speed)
    ensures OfSpeed(OfSpeed(tools, cls, Fast) + OfSpeed(tools, cls, Normal) + OfSpeed(tools, cls, Slow), cls, sp)
            == OfSpeed(tools, cls, sp)
  {
    var f, n, s := OfSpeed(tools, cls, Fast), OfSpeed(tools, cls, Normal), OfSpeed(tools, cls, Slow);
    OfSpeedMembers(tools, cls, Fast);
    OfSpeedMembers(tools, cls, Normal);
    OfSpeedMembers(tools, cls, Slow);
    OfSpeedAppend(f, n, cls, sp);
    OfSpeedAppend(f + n, s, cls, sp);
    OfSpeedUniform(f, cls, Fast, sp);
    OfSpeedUniform(n, cls, Normal, sp);
    OfSpeedUniform(s, cls, Slow, sp);
  }

  /** For a simple query the check reorders the same tools so that fast ones
      come first and slow ones last, each class in its original order; in every
      other case the payload passes unchanged. */
  lemma TimeCheckReorders(cfg: TimeConfig, latencies: map<string, seq<real>>, ctx: Context, input: Payload)
    ensures var r := TimeCheck(cfg, latencies, ctx, input);
      var cls := Classifier(cfg, latencies);
      && r.modifiedInput.Some?
      && (r.status == Passed || r.status == Modified)
      && (r.status == Passed ==> r.modifiedInput == Some(input))
      && (r.status == Modified ==>
            && input.ToolList? && cfg.preferFastForSimple && ComplexityOf(ctx) == "simple"
            && var out := r.modifiedInput.value.tools;
            && multiset(out) == multiset(input.tools)
            && (forall i, j :: 0 <= i < j < |out| ==> SpeedRank(cls(out[i])) <= SpeedRank(cls(out[j])))
            && forall sp :: OfSpeed(out, cls, sp) == OfSpeed(input.tools, cls, sp))
  {
    if input.ToolList? {
      ReorderCorrect(input.tools, Classifier(cfg, latencies));
    }
  }

  // --------------------------------------------------- RateLimitOptimization

  datatype RateConfig = RateConfig(
    maxCallsPerSession: int, maxCallsPerStep: int, expensiveToolLimit: int, expensiveTools: seq<string>)

  const DefaultRateConfig := RateConfig(10, 5, 3, [])

  /** The usage record of one session. */
  datatype Usage = Usage(total: nat, expensive: nat, byStep: map<int, nat>)

  const NoUsage := Usage(0, 0, map[])

  /** `get_usage`: the session's record, or an empty one (which is not stored). */
  function GetUsage(tracking: map<string, Usage>, session: string): Usage {
    if session in tracking then tracking[session] else NoUsage
  }

  function StepCalls(u: Usage, step: int): nat {
    if step in u.byStep then u.byStep[step] else 0
  }

  /** `record_tool_call` */
  function RecordCall(cfg: RateConfig, tracking: map<string, Usage>, session: string, toolName: string, step: int)
    : (r: map<string, Usage>)
    ensures r.Keys == tracking.Keys + {session}
    ensures forall s <- tracking :: s != session ==> r[s] == tracking[s]
  {
    var u := GetUsage(tracking, session);
    tracking[session := Usage(
      u.total + 1,
      u.expensive + (if toolName in cfg.expensiveTools then 1 else 0),
      u.byStep[step := StepCalls(u, step) + 1])]
  }

  /** The usage record agrees with the log of the steps at which the session's
      calls were made, and its expensive count never exceeds its total. */
  ghost predicate UsageMatches(u: Usage, steps: multiset<int>) {
    && u.total == |steps|
    && u.expensive <= u.total
    && forall st :: (st in u.byStep <==> st in steps) && StepCalls(u, st) == steps[st]
  }

  /** Recording a call keeps the usage record in agreement with the call log. */
  lemma RecordCallMatchesLog(cfg: RateConfig, tracking: map<string, Usage>, session: string, toolName: string,
                             step: int, steps: multiset<int>)
    requires UsageMatches(GetUsage(tracking, session), steps)
    ensures UsageMatches(GetUsage(RecordCall(cfg, tracking, session, toolName, step), session), steps + multiset{step})
  {
    var u := GetUsage(RecordCall(cfg, tracking, session, toolName, step), session);
    var s' := steps + multiset{step};
    forall st ensures (st in u.byStep <==> st in s') && StepCalls(u, st) == s'[st] {
      assert st in u.byStep <==> st == step || st in GetUsage(tracking, session).byStep;
    }
  }

  function SessionOf(ctx: Context): string {
    ctx.sessionId.GetOr("default")
  }

  function StepOf(ctx: Context): int {
    ctx.step.GetOr(0)
  }

  function RateCheck(cfg: RateConfig, tracking: map<string, Usage>, ctx: Context, input: Payload): (r: HeuristicResult) {
    if ctx.IsEmpty() then HeuristicResult(Passed, Some(input), map[], Some("No context provided"))
    else
      var usage := GetUsage(tracking, SessionOf(ctx));
      var stepCalls := StepCalls(usage, StepOf(ctx));
      if usage.total >= cfg.maxCallsPerSession then
        HeuristicResult(Failed, None,
          map["reason" := VStr("session_limit_exceeded"), "total_calls" := VInt(usage.total),
              "limit" := VInt(cfg.maxCallsPerSession)],
          Some("Session limit exceeded: " + IntToString(usage.total) + "/" + IntToString(cfg.maxCallsPerSession)))
      else if stepCalls >= cfg.maxCallsPerStep then
        HeuristicResult(Failed, None,
          map["reason" := VStr("step_limit_exceeded"), "step_calls" := VInt(stepCalls),
              "limit" := VInt(cfg.maxCallsPerStep)],
          Some("Step limit exceeded: " + IntToString(stepCalls) + "/" + IntToString(cfg.maxCallsPerStep)))
      else if input.Str? && input.s in cfg.expensiveTools && usage.expensive >= cfg.expensiveToolLimit then
        HeuristicResult(Warning, Some(input),
          map["reason" := VStr("expensive_limit_warning"), "expensive_calls" := VInt(usage.expensive),
              "limit" := VInt(cfg.expensiveToolLimit)],
          Some("Expensive tool limit approaching: " + IntToString(usage.expensive) + "/" + IntToString(cfg.expensiveToolLimit)))
      else
        HeuristicResult(Passed, Some(input),
          map["usage" := VDict(map["total" := VInt(usage.total), "expensive" := VInt(usage.expensive)]),
              "within_limits" := VBool(true)],
          None)
  }

  /** The check fails exactly when a context is given and the session or the
      current step has used up its calls; it warns exactly for an expensive tool
      name past its limit; otherwise the payload passes. */
  lemma RateCheckVerdict(cfg: RateConfig, tracking: map<string, Usage>, ctx: Context, input: Payload)
    ensures var r := RateCheck(cfg, tracking, ctx, input);
      var u := GetUsage(tracking, SessionOf(ctx));
      var over := u.total >= cfg.maxCallsPerSession || StepCalls(u, StepOf(ctx)) >= cfg.maxCallsPerStep;
      && (r.status == Failed <==> !ctx.IsEmpty() && over)
      && (r.status == Warning <==> !ctx.IsEmpty() && !over && input.Str? && input.s in cfg.expensiveTools
                                    && u.expensive >= cfg.expensiveToolLimit)
      && (r.status != Failed ==> r.modifiedInput == Some(input))
      && (r.status == Failed ==> r.modifiedInput == None)
      && r.status != Modified
  {
  }

  /** A call the check lets through and that is then recorded keeps the session
      and the step within their limits. */
  lemma RateLimitHolds(cfg: RateConfig, tracking: map<string, Usage>, ctx: Context, input: Payload, toolName: string)
    requires !ctx.IsEmpty()
    requires RateCheck(cfg, tracking, ctx, input).status != Failed
    ensures var u := GetUsage(RecordCall(cfg, tracking, SessionOf(ctx), toolName, StepOf(ctx)), SessionOf(ctx));
      u.total <= cfg.maxCallsPerSession && StepCalls(u, StepOf(ctx)) <= cfg.maxCallsPerStep
  {
  }
}
