/**
 * Heuristic instances and the pipeline that chains them
 * (modules/heuristics/base.py, with the per-instance state of the stateful
 * heuristics in query_heuristics.py and tool_heuristics.py).
 *
 * Every heuristic class of the catalog is one `Kind` of the single class
 * `Heuristic`: the class keeps the `enabled` flag, the `stats` counters and
 * the fields the stateful heuristics update in place (the deduplication
 * cache and hash list, the affinity table, the latency windows, the usage
 * table); a kind that does not use a field leaves it empty.
 */
module Pipeline {
  import opened Text
  import opened Base
  import opened QueryHeuristics
  import opened ToolHeuristics
  import opened ResultHeuristics

  /** Which heuristic an instance is, with its configuration and the oracles its check uses. */
  datatype Kind =
    | LengthFilter(length: LengthConfig)
    | PiiRedaction(pii: PiiConfig, redactor: PiiMatcher)
    | Deduplication(dedup: DedupConfig, digest: string -> Hash)
    | Ambiguity(ambiguity: AmbiguityConfig)
    | IntentClassification(intents: seq<Intent>)
    | AffinityScoring(affinity: AffinityConfig)
    | TimePrioritization(time: TimeConfig)
    | RateLimit(rate: RateConfig)
    | ConfidenceThreshold(confidence: ConfidenceConfig)
    | HallucinationDetection(hallucination: HallucinationConfig, patterns: PatternMatcher)

  /** `heuristic.__class__.__name__` */
  function ClassName(k: Kind): string {
    match k
    case LengthFilter(_) => "QueryLengthFilter"
    case PiiRedaction(_, _) => "PIIRedaction"
    case Deduplication(_, _) => "QueryDeduplication"
    case Ambiguity(_) => "AmbiguityDetection"
    case IntentClassification(_) => "QueryIntentClassification"
    case AffinityScoring(_) => "ToolAffinityScoring"
    case TimePrioritization(_) => "TimeBasedPrioritization"
    case RateLimit(_) => "RateLimitOptimization"
    case ConfidenceThreshold(_) => "ConfidenceThreshold"
    case HallucinationDetection(_, _) => "HallucinationDetection"
  }

  /** The fields of an instance that change over its life. */
  datatype InstanceState = InstanceState(
    stats: Stats,
    cache: map<Hash, string>,
    queryHashes: seq<Hash>,
    affinityScores: map<string, Counts>,
    latencies: map<string, seq<real>>,
    usageTracking: map<string, Usage>)

  const InitialState := InstanceState(ZeroStats, map[], [], map[], map[], map[])

  /** What the checks rely on: a well-formed deduplication cache and affinity table. */
  predicate CheckReady(k: Kind, st: InstanceState) {
    && (k.Deduplication? ==> CacheValid(DedupCache(st.cache, st.queryHashes), k.dedup.cacheSize))
    && AffinityValid(st.affinityScores)
  }

  /** The invariant of an instance: its counters balance and its checks are ready to run. */
  predicate StateValid(k: Kind, st: InstanceState) {
    st.stats.Balanced() && CheckReady(k, st)
  }

  /** `check`: the result, and the state after it (only deduplication changes it). */
  function Checked(k: Kind, st: InstanceState, input: Payload, ctx: Context): (out: (HeuristicResult, InstanceState))
    requires CheckReady(k, st)
  {
    match k
    case LengthFilter(cfg) => (LengthCheck(cfg, input), st)
    case PiiRedaction(cfg, m) => (PiiCheck(cfg, m, input), st)
    case Deduplication(cfg, digest) =>
      var (r, c) := DedupCheck(cfg, digest, DedupCache(st.cache, st.queryHashes), input);
      (r, st.(cache := c.entries, queryHashes := c.order))
    case Ambiguity(cfg) => (AmbiguityCheck(cfg, input), st)
    case IntentClassification(intents) => (IntentCheck(intents, input), st)
    case AffinityScoring(cfg) => (AffinityCheck(cfg, st.affinityScores, ctx, input), st)
    case TimePrioritization(cfg) => (TimeCheck(cfg, st.latencies, ctx, input), st)
    case RateLimit(cfg) => (RateCheck(cfg, st.usageTracking, ctx, input), st)
    case ConfidenceThreshold(cfg) => (ConfidenceCheck(cfg, ctx, input), st)
    case HallucinationDetection(cfg, m) => (HallucinationCheck(cfg, m, ctx, input), st)
  }

  /** A check leaves the counters alone, keeps the instance ready, and changes
      nothing at all unless the instance deduplicates. */
  lemma CheckedKeepsState(k: Kind, st: InstanceState, input: Payload, ctx: Context)
    requires CheckReady(k, st)
    ensures var st' := Checked(k, st, input, ctx).1;
      && st'.stats == st.stats
      && CheckReady(k, st')
      && (!k.Deduplication? ==> st' == st)
      && st'.affinityScores == st.affinityScores && st'.latencies == st.latencies
      && st'.usageTracking == st.usageTracking
  {
  }

  /** The checks do not read the counters. */
  lemma CheckedIgnoresStats(k: Kind, st: InstanceState, s: Stats, input: Payload, ctx: Context)
    requires CheckReady(k, st)
    ensures var (r, st') := Checked(k, st, input, ctx);
      Checked(k, st.(stats := s), input, ctx) == (r, st'.(stats := s))
  {
  }

  /** The deduplication check is `DedupCheck` on the instance's cache and hash list. */
  lemma CheckedDeduplication(k: Kind, st: InstanceState, input: Payload, ctx: Context)
    requires k.Deduplication? && CheckReady(k, st)
    ensures var (r, c) := DedupCheck(k.dedup, k.digest, DedupCache(st.cache, st.queryHashes), input);
      Checked(k, st, input, ctx) == (r, st.(cache := c.entries, queryHashes := c.order))
  {
  }

  const DisabledResult := HeuristicResult(Passed, None, map[], Some("Heuristic disabled"))

  /** `execute`: a disabled instance hands its input on untouched; an enabled
      one runs its check and counts the outcome. */
  function Executed(enabled: bool, k: Kind, st: InstanceState, input: Payload, ctx: Context): (out: (HeuristicResult, InstanceState))
    requires CheckReady(k, st)
  {
    if !enabled then (DisabledResult.(modifiedInput := Some(input)), st)
    else
      var (r, st') := Checked(k, st, input, ctx);
      (r, st'.(stats := st.stats.Record(r.status)))
  }

  /** A disabled instance passes its input on and changes nothing; an enabled
      one adds exactly one run, under exactly the status it returned, and keeps
      its invariant. */
  lemma ExecutedCounts(enabled: bool, k: Kind, st: InstanceState, input: Payload, ctx: Context)
    requires StateValid(k, st)
    ensures var (r, st') := Executed(enabled, k, st, input, ctx);
      && StateValid(k, st')
      && (!enabled ==> r.status == Passed && r.modifiedInput == Some(input) && st' == st)
      && (enabled ==>
            && st'.stats.totalRuns == st.stats.totalRuns + 1
            && st'.stats.CountOf(r.status) == st.stats.CountOf(r.status) + 1
            && (forall s :: s != r.status ==> st'.stats.CountOf(s) == st.stats.CountOf(s)))
  {
    if enabled {
      CheckedKeepsState(k, st, input, ctx);
    }
  }

  /** An instance as a value: its flag, its kind and its state. */
  datatype Instance = Instance(enabled: bool, kind: Kind, state: InstanceState)

  predicate AllReady(steps: seq<Instance>) {
    forall i :: 0 <= i < |steps| ==> CheckReady(steps[i].kind, steps[i].state)
  }

  /** The payload handed on after result `r`: its replacement if it carries one. */
  function Next(p: Payload, r: HeuristicResult): Payload {
    if r.modifiedInput.Some? then r.modifiedInput.value else p
  }

  /** The payload after one more result is that result's replacement, if any. */
  lemma ThreadNext(input: Payload, results: seq<HeuristicResult>, r: HeuristicResult)
    ensures Thread(input, results + [r]) == Next(Thread(input, results), r)
  {
    assert (results + [r])[..|results|] == results;
  }

  /**
   * `results` and `afters` are what the first `|results|` instances of a run
   * over `steps` on `input` returned and were left holding: each executed, from
   * its state before the run, on the payload the results before it left, and
   * with `stop` none ran after a failure.
   */
  ghost predicate Ran(steps: seq<Instance>, input: Payload, ctx: Context, stop: bool,
                      results: seq<HeuristicResult>, afters: seq<InstanceState>)
    requires AllReady(steps)
    decreases |results|
  {
    && |results| == |afters| <= |steps|
    && (results != [] ==>
          var n := |results| - 1;
          && Ran(steps, input, ctx, stop, results[..n], afters[..n])
          && !(stop && n > 0 && results[n - 1].status == Failed)
          && (results[n], afters[n])
             == Executed(steps[n].enabled, steps[n].kind, steps[n].state, Thread(input, results[..n]), ctx))
  }

  /** A run extends by the next instance's result and state. */
  lemma RanExtend(steps: seq<Instance>, input: Payload, ctx: Context, stop: bool,
                  results: seq<HeuristicResult>, afters: seq<InstanceState>, r: HeuristicResult, st: InstanceState)
    requires AllReady(steps) && Ran(steps, input, ctx, stop, results, afters) && |results| < |steps|
    requires !(stop && results != [] && results[|results| - 1].status == Failed)
    requires (r, st) == Executed(steps[|results|].enabled, steps[|results|].kind, steps[|results|].state,
                                 Thread(input, results), ctx)
    ensures Ran(steps, input, ctx, stop, results + [r], afters + [st])
  {
    assert (results + [r])[..|results|] == results && (afters + [st])[..|results|] == afters;
  }

  /** A run is over when every instance ran, or, with `stop`, when the last result failed. */
  predicate Finished(steps: seq<Instance>, stop: bool, results: seq<HeuristicResult>) {
    |results| == |steps| || (stop && results != [] && results[|results| - 1].status == Failed)
  }

  lemma FinishedWhen(steps: seq<Instance>, stop: bool, results: seq<HeuristicResult>)
    requires |results| == |steps| || (stop && results != [] && results[|results| - 1].status == Failed)
    ensures Finished(steps, stop, results)
  {
  }

  /** Instance `i` returned `results[i]` and was left holding `afters[i]` from
      executing on the payload the results before it left. */
  ghost predicate ExecutedAt(steps: seq<Instance>, input: Payload, ctx: Context,
                             results: seq<HeuristicResult>, afters: seq<InstanceState>, i: nat)
    requires AllReady(steps) && i < |results| == |afters| <= |steps|
  {
    (results[i], afters[i]) == Executed(steps[i].enabled, steps[i].kind, steps[i].state, Thread(input, results[..i]), ctx)
  }

  /** `Ran` says exactly this: every instance that ran executed on the payload
      the results before it left, from its state before the run, and with
      `stop` no result but the last is a failure. */
  lemma {:induction false} RanIff(steps: seq<Instance>, input: Payload, ctx: Context, stop: bool,
                                  results: seq<HeuristicResult>, afters: seq<InstanceState>)
    requires AllReady(steps) && |results| == |afters| <= |steps|
    ensures Ran(steps, input, ctx, stop, results, afters)
      <==> && (forall i :: 0 <= i < |results| ==> ExecutedAt(steps, input, ctx, results, afters, i))
           && (stop ==> forall i :: 0 <= i < |results| - 1 ==> results[i].status != Failed)
    decreases |results|
  {
    if results != [] {
      hide *;
      var n := |results| - 1;
      var rs, sts := results[..n], afters[..n];
      RanIff(steps, input, ctx, stop, rs, sts);
      RanLast(steps, input, ctx, stop, results, afters);
      if Ran(steps, input, ctx, stop, results, afters) {
        forall i | 0 <= i < |results|
          ensures ExecutedAt(steps, input, ctx, results, afters, i)
        {
          if i < n {
            ExecutedAtPrefix(steps, input, ctx, results, afters, n, i);
          }
        }
        if stop {
          forall i | 0 <= i < |results| - 1
            ensures results[i].status != Failed
          {
            if i < n - 1 {
              ExecutedAtPrefix(steps, input, ctx, results, afters, n, i);
            }
          }
        }
      } else if && (forall i :: 0 <= i < |results| ==> ExecutedAt(steps, input, ctx, results, afters, i))
                && (stop ==> forall i :: 0 <= i < |results| - 1 ==> results[i].status != Failed) {
        forall i | 0 <= i < n
          ensures ExecutedAt(steps, input, ctx, rs, sts, i)
        {
          ExecutedAtPrefix(steps, input, ctx, results, afters, n, i);
        }
        if stop {
          forall i | 0 <= i < n - 1
            ensures rs[i].status != Failed
          {
            ExecutedAtPrefix(steps, input, ctx, results, afters, n, i);
          }
        }
        assert false;
      }
    }
  }

  /** No results leave the input as it was. */
  lemma ThreadEmpty(input: Payload)
    ensures Thread(input, []) == input
  {
  }

  /** Before anything runs, the empty run has happened. */
  lemma RanEmpty(steps: seq<Instance>, input: Payload, ctx: Context, stop: bool)
    requires AllReady(steps)
    ensures Ran(steps, input, ctx, stop, [], [])
  {
  }

  /** `Ran` of a non-empty run is `Ran` of all but its last result, plus that result. */
  lemma RanLast(steps: seq<Instance>, input: Payload, ctx: Context, stop: bool,
                results: seq<HeuristicResult>, afters: seq<InstanceState>)
    requires AllReady(steps) && 0 < |results| == |afters| <= |steps|
    ensures var n := |results| - 1;
      Ran(steps, input, ctx, stop, results, afters)
      <==> Ran(steps, input, ctx, stop, results[..n], afters[..n]) && !(stop && n > 0 && results[n - 1].status == Failed)
           && ExecutedAt(steps, input, ctx, results, afters, n)
  {
    hide Executed;
  }

  /** What instance `i` did does not depend on the results after it. */
  lemma ExecutedAtPrefix(steps: seq<Instance>, input: Payload, ctx: Context,
                         results: seq<HeuristicResult>, afters: seq<InstanceState>, n: nat, i: nat)
    requires AllReady(steps) && i < n <= |results| == |afters| <= |steps|
    ensures results[..n][i] == results[i]
    ensures ExecutedAt(steps, input, ctx, results[..n], afters[..n], i) <==> ExecutedAt(steps, input, ctx, results, afters, i)
  {
    hide Executed;
    assert results[..n][..i] == results[..i];
  }

  /** A run is determined by the instances and the input: two runs of the same
      length agree. */
  lemma {:induction false} RanDeterministic(steps: seq<Instance>, input: Payload, ctx: Context, stop: bool,
                                            r1: seq<HeuristicResult>, a1: seq<InstanceState>,
                                            r2: seq<HeuristicResult>, a2: seq<InstanceState>)
    requires AllReady(steps)
    requires Ran(steps, input, ctx, stop, r1, a1) && Ran(steps, input, ctx, stop, r2, a2)
    requires |r1| == |r2|
    ensures r1 == r2 && a1 == a2
    decreases |r1|
  {
    hide Executed;
    if r1 != [] {
      var n := |r1| - 1;
      RanDeterministic(steps, input, ctx, stop, r1[..n], a1[..n], r2[..n], a2[..n]);
      assert r1 == r1[..n] + [r1[n]] && r2 == r2[..n] + [r2[n]];
      assert a1 == a1[..n] + [a1[n]] && a2 == a2[..n] + [a2[n]];
    }
  }

  /** The stats of each class of instance, as a dict keyed by class name:
      a later instance of a class replaces an earlier one. */
  function AllStats(steps: seq<Instance>): map<string, Stats> {
    if steps == [] then map[]
    else
      var last := steps[|steps| - 1];
      AllStats(steps[..|steps| - 1])[ClassName(last.kind) := last.state.stats]
  }

  /** The keys are the class names of the instances. */
  lemma {:induction false} AllStatsKeys(steps: seq<Instance>, name: string)
    ensures name in AllStats(steps) <==> exists i :: 0 <= i < |steps| && ClassName(steps[i].kind) == name
  {
    hide ClassName;
    if steps != [] {
      var n := |steps| - 1;
      var front := steps[..n];
      AllStatsKeys(front, name);
      if name in AllStats(steps) && name != ClassName(steps[n].kind) {
        var i :| 0 <= i < n && ClassName(front[i].kind) == name;
        assert front[i] == steps[i];
      }
      if (exists i :: 0 <= i < |steps| && ClassName(steps[i].kind) == name) && name != ClassName(steps[n].kind) {
        var i :| 0 <= i < |steps| && ClassName(steps[i].kind) == name;
        assert front[i] == steps[i];
      }
    }
  }

  /** Each class name maps to the stats of the last instance of that class. */
  lemma {:induction false} AllStatsLast(steps: seq<Instance>, i: nat)
    requires i < |steps|
    requires forall j :: i < j < |steps| ==> ClassName(steps[j].kind) != ClassName(steps[i].kind)
    ensures ClassName(steps[i].kind) in AllStats(steps)
    ensures AllStats(steps)[ClassName(steps[i].kind)] == steps[i].state.stats
  {
    hide ClassName;
    var n := |steps| - 1;
    if i < n {
      var front := steps[..n];
      assert front[i] == steps[i];
      assert forall j :: i < j < n ==> front[j] == steps[j];
      AllStatsLast(front, i);
    }
  }

  lemma RecordCallIs(cfg: RateConfig, tracking: map<string, Usage>, session: string, toolName: string, step: int)
    ensures var u := GetUsage(tracking, session);
      RecordCall(cfg, tracking, session, toolName, step)
      == tracking[session := Usage(u.total + 1, u.expensive + (if toolName in cfg.expensiveTools then 1 else 0),
                                   u.byStep[step := StepCalls(u, step) + 1])]
  {
  }

  /** The kinds of the instances, in order (kinds never change, so this reads nothing). */
  function KindsOf(hs: seq<Heuristic>): (ks: seq<Kind>)
    ensures |ks| == |hs|
  {
    if hs == [] then [] else KindsOf(hs[..|hs| - 1]) + [hs[|hs| - 1].kind]
  }

  lemma KindsOfSnoc(hs: seq<Heuristic>, h: Heuristic)
    ensures KindsOf(hs + [h]) == KindsOf(hs) + [h.kind]
  {
    assert (hs + [h])[..|hs|] == hs;
  }

  /** One heuristic instance. */
  class Heuristic {
    const enabled: bool
    const kind: Kind
    var stats: Stats
    var cache: map<Hash, string>
    var queryHashes: seq<Hash>
    var affinityScores: map<string, Counts>
    var latencies: map<string, seq<real>>
    var usageTracking: map<string, Usage>

    function State(): InstanceState
      reads this
    {
      InstanceState(stats, cache, queryHashes, affinityScores, latencies, usageTracking)
    }

    ghost predicate Valid()
      reads this
    {
      StateValid(kind, State())
    }

    constructor(enabled: bool, kind: Kind)
      ensures this.enabled == enabled && this.kind == kind
      ensures State() == InitialState
      ensures Valid()
    {
      this.enabled := enabled;
      this.kind := kind;
      stats := ZeroStats;
      cache := map[];
      queryHashes := [];
      affinityScores := map[];
      latencies := map[];
      usageTracking := map[];
    }

    /** `QueryDeduplication.check`: the exact-hash test, the scan of the listed
        hashes for a similar query, then the bookkeeping for a fresh query. */
    method CheckDeduplication(input: Payload, ctx: Context) returns (r: HeuristicResult)
      requires kind.Deduplication? && CheckReady(kind, State())
      modifies this
      ensures (r, DedupCache(cache, queryHashes))
           == DedupCheck(kind.dedup, kind.digest, old(DedupCache(cache, queryHashes)), input)
      ensures State() == old(State()).(cache := cache, queryHashes := queryHashes)
    {
      hide Similarity, Normalize, Render, DedupWarning, Checked, Executed;
      var cfg, digest := kind.dedup, kind.digest;
      var query := Render(input);
      var h := digest(Normalize(query));
      var c := DedupCache(cache, queryHashes);
      if cfg.useExactMatch && h in cache {
        return DedupWarning(c, ExactDuplicate, h, query);
      }
      for j := 0 to |queryHashes|
        invariant FirstSimilar(c, query, cfg.similarityThreshold, j) == FirstSimilar(c, query, cfg.similarityThreshold, 0)
      {
        var cachedHash := queryHashes[j];
        if cachedHash in cache {
          var similarity := Similarity(query, cache[cachedHash]);
          if similarity >= cfg.similarityThreshold {
            return DedupWarning(c, SimilarTo(j), h, query);
          }
        }
      }
      if h in cache {
        cache := cache[h := query];
      } else {
        cache := cache[h := query];
        queryHashes := queryHashes + [h];
        if |queryHashes| > cfg.cacheSize {
          var oldest := queryHashes[0];
          queryHashes := queryHashes[1..];
          cache := cache - {oldest};
        }
      }
      r := DedupWarning(c, Fresh, h, query);
    }

    /** `execute` */
    method Execute(input: Payload, ctx: Context) returns (r: HeuristicResult)
      requires Valid()
      modifies this
      ensures Valid()
      ensures (r, State()) == Executed(enabled, kind, old(State()), input, ctx)
    {
      hide Checked, DedupCheck, CacheValid, AffinityValid;
      if !enabled {
        return DisabledResult.(modifiedInput := Some(input));
      }
      var before := State();
      CheckedKeepsState(kind, before, input, ctx);
      stats := stats.(totalRuns := stats.totalRuns + 1);
      if kind.Deduplication? {
        r := CheckDeduplication(input, ctx);
        CheckedDeduplication(kind, before, input, ctx);
      } else {
        r := Checked(kind, before, input, ctx).0;
      }
      assert Checked(kind, before, input, ctx) == (r, State().(stats := before.stats));
      match r.status {
        case Passed => stats := stats.(passed := stats.passed + 1);
        case Failed => stats := stats.(failed := stats.failed + 1);
        case Modified => stats := stats.(modified := stats.modified + 1);
        case Warning => stats := stats.(warnings := stats.warnings + 1);
      }
      assert stats == before.stats.Record(r.status);
    }

    /** `get_stats`: a copy of the counters. */
    method GetStats() returns (s: Stats)
      ensures s == stats
    {
      s := stats;
    }

    /** `reset_stats` */
    method ResetStats()
      requires Valid()
      modifies this
      ensures State() == old(State()).(stats := ZeroStats)
      ensures Valid()
    {
      stats := ZeroStats;
    }

    /** `ToolAffinityScoring.record_tool_usage` */
    method RecordToolUsage(intent: string, toolName: string, success: bool)
      requires kind.AffinityScoring? && Valid()
      modifies this
      ensures State() == old(State()).(affinityScores := RecordUsage(old(affinityScores), intent, toolName, success))
      ensures Valid()
    {
      var key := AffinityKey(intent, toolName);
      if key !in affinityScores {
        affinityScores := affinityScores[key := Counts(0, 0)];
      }
      var counts := affinityScores[key];
      counts := counts.(total := counts.total + 1);
      if success {
        counts := counts.(success := counts.success + 1);
      }
      affinityScores := affinityScores[key := counts];
    }

    /** `TimeBasedPrioritization.record_tool_latency` */
    method RecordToolLatency(toolName: string, latency: real)
      requires kind.TimePrioritization? && Valid()
      modifies this
      ensures State() == old(State()).(latencies := RecordLatency(old(latencies), toolName, latency))
      ensures Valid()
    {
      if toolName !in latencies {
        latencies := latencies[toolName := []];
      }
      latencies := latencies[toolName := latencies[toolName] + [latency]];
      if |latencies[toolName]| > LatencyWindow {
        var window := latencies[toolName];
        latencies := latencies[toolName := window[|window| - LatencyWindow..]];
      }
    }

    /** `RateLimitOptimization.record_tool_call` */
    method RecordToolCall(sessionId: string, toolName: string, step: int)
      requires kind.RateLimit? && Valid()
      modifies this
      ensures State() == old(State()).(usageTracking := RecordCall(kind.rate, old(usageTracking), sessionId, toolName, step))
      ensures Valid()
    {
      hide CacheValid, AffinityValid, RecordCall;
      RecordCallIs(kind.rate, usageTracking, sessionId, toolName, step);
      ghost var u := GetUsage(usageTracking, sessionId);
      if sessionId !in usageTracking {
        usageTracking := usageTracking[sessionId := NoUsage];
      }
      var data := usageTracking[sessionId];
      assert data == u;
      data := data.(total := data.total + 1);
      if toolName in kind.rate.expensiveTools {
        data := data.(expensive := data.expensive + 1);
      }
      if step !in data.byStep {
        data := data.(byStep := data.byStep[step := 0]);
      }
      data := data.(byStep := data.byStep[step := data.byStep[step] + 1]);
      assert data.byStep == u.byStep[step := StepCalls(u, step) + 1];
      assert data == Usage(u.total + 1, u.expensive + (if toolName in kind.rate.expensiveTools then 1 else 0), data.byStep);
      assert usageTracking[sessionId := data] == old(usageTracking)[sessionId := data];
      usageTracking := usageTracking[sessionId := data];
    }
  }

  /** `HeuristicPipeline`: the instances, run in the order they were added. */
  class HeuristicPipeline {
    var heuristics: seq<Heuristic>

    ghost predicate Valid()
      reads this, heuristics
    {
      Distinct(heuristics) && forall i :: 0 <= i < |heuristics| ==> heuristics[i].Valid()
    }

    /** `HeuristicPipeline(heuristics)`: the given instances, or none. */
    constructor(initial: seq<Heuristic>)
      requires Distinct(initial) && forall i :: 0 <= i < |initial| ==> initial[i].Valid()
      ensures heuristics == initial
      ensures Valid()
    {
      heuristics := initial;
    }

    /** `add_heuristic`: the new instance runs after all earlier ones. */
    method AddHeuristic(h: Heuristic)
      requires Valid() && h.Valid() && h !in heuristics
      modifies this
      ensures heuristics == old(heuristics) + [h]
      ensures Valid()
    {
      heuristics := heuristics + [h];
    }

    /** `get_all_stats` */
    method GetAllStats() returns (m: map<string, Stats>)
      ensures m == AllStats(Instances())
    {
      m := map[];
      for i := 0 to |heuristics|
        invariant m == AllStats(Instances()[..i])
      {
        assert Instances()[..i + 1] == Instances()[..i] + [Instances()[i]];
        m := m[ClassName(heuristics[i].kind) := heuristics[i].stats];
      }
      assert Instances()[..|heuristics|] == Instances();
    }

    /** The instances as values, in order. */
    function Instances(): (steps: seq<Instance>)
      reads this, heuristics
      ensures |steps| == |heuristics|
      ensures forall i :: 0 <= i < |steps| ==>
        steps[i] == Instance(heuristics[i].enabled, heuristics[i].kind, heuristics[i].State())
    {
      seq(|heuristics|, i requires 0 <= i < |heuristics| reads this, heuristics =>
        Instance(heuristics[i].enabled, heuristics[i].kind, heuristics[i].State()))
    }

    /** The states the instances hold, in order. */
    function States(): (sts: seq<InstanceState>)
      reads this, heuristics
      ensures |sts| == |heuristics|
      ensures forall i :: 0 <= i < |sts| ==> sts[i] == heuristics[i].State()
    {
      seq(|heuristics|, i requires 0 <= i < |heuristics| reads this, heuristics => heuristics[i].State())
    }

    /** Executes the instance at position `i`; the others keep their state. */
    method ExecuteAt(i: nat, input: Payload, ctx: Context) returns (r: HeuristicResult)
      requires Valid() && i < |heuristics|
      modifies heuristics[i]
      ensures Valid()
      ensures (r, heuristics[i].State())
           == Executed(heuristics[i].enabled, heuristics[i].kind, old(heuristics[i].State()), input, ctx)
      ensures forall j :: 0 <= j < |heuristics| && j != i ==> heuristics[j].State() == old(heuristics[j].State())
    {
      hide Executed;
      r := heuristics[i].Execute(input, ctx);
    }

    /** Every instance of a valid pipeline is ready to check. */
    lemma ValidReady()
      requires Valid()
      ensures AllReady(Instances())
    {
    }

    /**
     * `run`: the instances run in order, each on the payload the results
     * before it left, until all have run or, with `stopOnFailure`, one fails;
     * the instances that ran hold their new states and the rest are untouched;
     * the output is the payload the results leave.
     */
    method Run(input: Payload, ctx: Context, stopOnFailure: bool) returns (output: Payload, results: seq<HeuristicResult>)
      requires Valid()
      modifies set h | h in heuristics
      ensures Valid() && heuristics == old(heuristics)
      ensures AllReady(old(Instances()))
      ensures |results| <= |heuristics|
      ensures Ran(old(Instances()), input, ctx, stopOnFailure, results, States()[..|results|])
      ensures Finished(old(Instances()), stopOnFailure, results)
      ensures forall i :: |results| <= i < |heuristics| ==> heuristics[i].State() == old(heuristics[i].State())
      ensures output == Thread(input, results)
    {
      hide *;
      ghost var olds := Instances();
      ValidReady();
      RanEmpty(olds, input, ctx, stopOnFailure);
      ThreadEmpty(input);
      output := input;
      results := [];
      ghost var afters: seq<InstanceState> := [];
      var i := 0;
      while i < |heuristics|
        invariant 0 <= i <= |heuristics| && |results| == i == |afters|
        invariant Valid() && heuristics == old(heuristics)
        invariant |olds| == |heuristics| && AllReady(olds)
        invariant forall j :: 0 <= j < |olds| ==> olds[j].enabled == heuristics[j].enabled && olds[j].kind == heuristics[j].kind
        invariant forall j :: i <= j < |heuristics| ==> heuristics[j].State() == olds[j].state
        invariant forall j :: 0 <= j < i ==> heuristics[j].State() == afters[j]
        invariant output == Thread(input, results)
        invariant Ran(olds, input, ctx, stopOnFailure, results, afters)
        invariant stopOnFailure && results != [] ==> results[|results| - 1].status != Failed
      {
        var r := ExecuteAt(i, output, ctx);
        ThreadNext(input, results, r);
        RanExtend(olds, input, ctx, stopOnFailure, results, afters, r, heuristics[i].State());
        results := results + [r];
        afters := afters + [heuristics[i].State()];
        output := Next(output, r);
        if stopOnFailure && r.status == Failed {
          assert States()[..|results|] == afters;
          FinishedWhen(olds, stopOnFailure, results);
          return;
        }
        i := i + 1;
      }
      assert States()[..|results|] == afters;
      FinishedWhen(olds, stopOnFailure, results);
    }
  }
}
