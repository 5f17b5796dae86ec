/**
 * The heuristic manager (modules/heuristics/manager.py): it builds the query,
 * tool and result pipelines from the configuration in a fixed order, runs
 * each of them without stopping on failure, sums up the results, and hands
 * the recording hooks on to the stateful heuristics it registered.
 */
module Manager {
  import opened Text
  import opened Base
  import opened QueryHeuristics
  import opened ToolHeuristics
  import opened ResultHeuristics
  import opened Pipeline

  /** One entry of the configuration: its "enabled" key and the settings it passes on. */
  datatype Slot<C> = Slot(enabled: bool, config: C)

  /** The configuration as loaded from the YAML file. */
  datatype ManagerConfig = ManagerConfig(
    enabled: bool,
    queryLength: Slot<LengthConfig>,
    pii: Slot<PiiConfig>,
    dedup: Slot<DedupConfig>,
    ambiguity: Slot<AmbiguityConfig>,
    intent: Slot<seq<Intent>>,
    affinity: Slot<AffinityConfig>,
    time: Slot<TimeConfig>,
    rate: Slot<RateConfig>,
    confidence: Slot<ConfidenceConfig>,
    hallucination: Slot<HallucinationConfig>)

  /** The configuration used when the file is missing: everything on, with each heuristic's defaults. */
  const FallbackConfig := ManagerConfig(
    true,
    Slot(true, DefaultLengthConfig), Slot(true, DefaultPiiConfig), Slot(true, DefaultDedupConfig),
    Slot(true, DefaultAmbiguityConfig), Slot(true, DefaultIntents),
    Slot(true, DefaultAffinityConfig), Slot(true, DefaultTimeConfig), Slot(true, DefaultRateConfig),
    Slot(true, DefaultConfidenceConfig), Slot(true, DefaultHallucinationConfig))

  /** The oracles the heuristics use: the PII redactor, the query digest and the claim pattern matcher. */
  datatype Oracles = Oracles(redactor: PiiMatcher, digest: string -> Hash, patterns: PatternMatcher)

  /** A heuristic's place in its pipeline's catalog order. */
  function Rank(k: Kind): nat {
    match k
    case LengthFilter(_) => 0
    case PiiRedaction(_, _) => 1
    case Deduplication(_, _) => 2
    case Ambiguity(_) => 3
    case IntentClassification(_) => 4
    case AffinityScoring(_) => 0
    case TimePrioritization(_) => 1
    case RateLimit(_) => 2
    case ConfidenceThreshold(_) => 0
    case HallucinationDetection(_, _) => 1
  }

  /** The kinds of the enabled entries, in catalog order. */
  function Registered(slots: seq<(bool, Kind)>): seq<Kind> {
    if slots == [] then []
    else
      var n := |slots| - 1;
      Registered(slots[..n]) + On(slots[n])
  }

  /** Registering the first `n` entries adds the `n`-th one to the first `n - 1`. */
  lemma RegisteredStep(slots: seq<(bool, Kind)>, n: nat)
    requires 0 < n <= |slots|
    ensures Registered(slots[..n]) == Registered(slots[..n - 1]) + On(slots[n - 1])
  {
    assert slots[..n][..n - 1] == slots[..n - 1];
  }

  /** Nothing is registered from no entries. */
  lemma RegisteredNone(slots: seq<(bool, Kind)>)
    ensures KindsOf([]) == Registered(slots[..0])
  {
    assert slots[..0] == [];
  }

  /** The kind of an entry when it is on, and nothing otherwise. */
  function On(slot: (bool, Kind)): seq<Kind> {
    if slot.0 then [slot.1] else []
  }

  /** Registering only ever adds kinds ranked below a bound all entries respect. */
  lemma {:induction false} RegisteredBelow(slots: seq<(bool, Kind)>, bound: nat)
    requires forall i :: 0 <= i < |slots| ==> Rank(slots[i].1) < bound
    ensures forall m :: 0 <= m < |Registered(slots)| ==> Rank(Registered(slots)[m]) < bound
  {
    if slots != [] {
      var n := |slots| - 1;
      var front := slots[..n];
      assert forall i :: 0 <= i < n ==> front[i] == slots[i];
      RegisteredBelow(front, bound);
    }
  }

  /** Entries listed in increasing rank are registered in increasing rank. */
  lemma {:induction false} RegisteredSorted(slots: seq<(bool, Kind)>)
    requires forall i, j :: 0 <= i < j < |slots| ==> Rank(slots[i].1) < Rank(slots[j].1)
    ensures forall i, j :: 0 <= i < j < |Registered(slots)| ==> Rank(Registered(slots)[i]) < Rank(Registered(slots)[j])
  {
    if slots != [] {
      var n := |slots| - 1;
      var front := slots[..n];
      assert forall i :: 0 <= i < n ==> front[i] == slots[i];
      RegisteredSorted(front);
      RegisteredBelow(front, Rank(slots[n].1));
      var ks, fs := Registered(slots), Registered(front);
      assert ks == fs + On(slots[n]);
      forall i, j | 0 <= i < j < |ks| ensures Rank(ks[i]) < Rank(ks[j]) {
        assert ks[i] == fs[i];
        if j < |fs| {
          assert ks[j] == fs[j];
          assert Rank(fs[i]) < Rank(fs[j]);
        } else {
          assert ks[j] == slots[n].1;
          assert Rank(fs[i]) < Rank(slots[n].1);
        }
      }
    }
  }

  /** When each entry's rank is its position, every registered kind is the kind
      of the (enabled) entry at its rank. */
  lemma {:induction false} RegisteredFromSlots(slots: seq<(bool, Kind)>)
    requires forall i :: 0 <= i < |slots| ==> Rank(slots[i].1) == i
    ensures forall m :: 0 <= m < |Registered(slots)| ==>
      var r := Rank(Registered(slots)[m]);
      r < |slots| && slots[r].0 && Registered(slots)[m] == slots[r].1
  {
    if slots != [] {
      var n := |slots| - 1;
      var front := slots[..n];
      assert forall i :: 0 <= i < n ==> front[i] == slots[i];
      RegisteredFromSlots(front);
      var ks, fs := Registered(slots), Registered(front);
      assert ks == fs + On(slots[n]);
      forall m | 0 <= m < |ks|
        ensures var r := Rank(ks[m]); r < |slots| && slots[r].0 && ks[m] == slots[r].1
      {
        if m < |fs| {
          assert ks[m] == fs[m];
        }
      }
    }
  }

  /** With entries in increasing rank, an entry's kind is registered exactly when the entry is on. */
  lemma {:induction false} RegisteredMember(slots: seq<(bool, Kind)>, i: nat)
    requires forall i, j :: 0 <= i < j < |slots| ==> Rank(slots[i].1) < Rank(slots[j].1)
    requires i < |slots|
    ensures slots[i].1 in Registered(slots) <==> slots[i].0
  {
    var n := |slots| - 1;
    var front := slots[..n];
    assert forall i :: 0 <= i < n ==> front[i] == slots[i];
    assert Registered(slots) == Registered(front) + On(slots[n]);
    if i == n {
      RegisteredBelow(front, Rank(slots[n].1));
    } else {
      RegisteredMember(front, i);
      assert slots[i].1 != slots[n].1 by {
        assert Rank(slots[i].1) < Rank(slots[n].1);
      }
    }
  }

  /** The query entries in the order `_init_heuristics` reads them. */
  function QuerySlots(cfg: ManagerConfig, o: Oracles): seq<(bool, Kind)> {
    [(cfg.queryLength.enabled, LengthFilter(cfg.queryLength.config)),
     (cfg.pii.enabled, PiiRedaction(cfg.pii.config, o.redactor)),
     (cfg.dedup.enabled, Deduplication(cfg.dedup.config, o.digest)),
     (cfg.ambiguity.enabled, Ambiguity(cfg.ambiguity.config)),
     (cfg.intent.enabled, IntentClassification(cfg.intent.config))]
  }

  function ToolSlots(cfg: ManagerConfig): seq<(bool, Kind)> {
    [(cfg.affinity.enabled, AffinityScoring(cfg.affinity.config)),
     (cfg.time.enabled, TimePrioritization(cfg.time.config)),
     (cfg.rate.enabled, RateLimit(cfg.rate.config))]
  }

  function ResultSlots(cfg: ManagerConfig, o: Oracles): seq<(bool, Kind)> {
    [(cfg.confidence.enabled, ConfidenceThreshold(cfg.confidence.config)),
     (cfg.hallucination.enabled, HallucinationDetection(cfg.hallucination.config, o.patterns))]
  }

  /** What `_init_heuristics` registers in each pipeline: nothing when the system is off. */
  function QueryKinds(cfg: ManagerConfig, o: Oracles): seq<Kind> {
    if cfg.enabled then Registered(QuerySlots(cfg, o)) else []
  }

  function ToolKinds(cfg: ManagerConfig): seq<Kind> {
    if cfg.enabled then Registered(ToolSlots(cfg)) else []
  }

  function ResultKinds(cfg: ManagerConfig, o: Oracles): seq<Kind> {
    if cfg.enabled then Registered(ResultSlots(cfg, o)) else []
  }

  /** The query pipeline holds length filter, PII redaction, deduplication,
      ambiguity and intent classification, in that order, each exactly when
      the system and its own entry are enabled, and nothing else. */
  lemma QueryCatalog(cfg: ManagerConfig, o: Oracles)
    ensures var ks := QueryKinds(cfg, o);
      && (forall i, j :: 0 <= i < j < |ks| ==> Rank(ks[i]) < Rank(ks[j]))
      && (LengthFilter(cfg.queryLength.config) in ks <==> cfg.enabled && cfg.queryLength.enabled)
      && (PiiRedaction(cfg.pii.config, o.redactor) in ks <==> cfg.enabled && cfg.pii.enabled)
      && (Deduplication(cfg.dedup.config, o.digest) in ks <==> cfg.enabled && cfg.dedup.enabled)
      && (Ambiguity(cfg.ambiguity.config) in ks <==> cfg.enabled && cfg.ambiguity.enabled)
      && (IntentClassification(cfg.intent.config) in ks <==> cfg.enabled && cfg.intent.enabled)
      && (forall m :: 0 <= m < |ks| ==> Rank(ks[m]) < 5 && ks[m] == QuerySlots(cfg, o)[Rank(ks[m])].1)
  {
    var s := QuerySlots(cfg, o);
    RegisteredSorted(s);
    RegisteredMember(s, 0);
    RegisteredMember(s, 1);
    RegisteredMember(s, 2);
    RegisteredMember(s, 3);
    RegisteredMember(s, 4);
    RegisteredFromSlots(s);
  }

  /** The tool pipeline holds affinity scoring, time-based prioritization and
      rate limiting, in that order, each exactly when enabled, and nothing else. */
  lemma ToolCatalog(cfg: ManagerConfig)
    ensures var ks := ToolKinds(cfg);
      && (forall i, j :: 0 <= i < j < |ks| ==> Rank(ks[i]) < Rank(ks[j]))
      && (AffinityScoring(cfg.affinity.config) in ks <==> cfg.enabled && cfg.affinity.enabled)
      && (TimePrioritization(cfg.time.config) in ks <==> cfg.enabled && cfg.time.enabled)
      && (RateLimit(cfg.rate.config) in ks <==> cfg.enabled && cfg.rate.enabled)
      && (forall m :: 0 <= m < |ks| ==> Rank(ks[m]) < 3 && ks[m] == ToolSlots(cfg)[Rank(ks[m])].1)
  {
    var s := ToolSlots(cfg);
    RegisteredSorted(s);
    RegisteredMember(s, 0);
    RegisteredMember(s, 1);
    RegisteredMember(s, 2);
    RegisteredFromSlots(s);
  }

  /** The result pipeline holds the confidence threshold and then hallucination
      detection, each exactly when enabled, and nothing else. */
  lemma ResultCatalog(cfg: ManagerConfig, o: Oracles)
    ensures var ks := ResultKinds(cfg, o);
      && (forall i, j :: 0 <= i < j < |ks| ==> Rank(ks[i]) < Rank(ks[j]))
      && (ConfidenceThreshold(cfg.confidence.config) in ks <==> cfg.enabled && cfg.confidence.enabled)
      && (HallucinationDetection(cfg.hallucination.config, o.patterns) in ks <==> cfg.enabled && cfg.hallucination.enabled)
      && (forall m :: 0 <= m < |ks| ==> Rank(ks[m]) < 2 && ks[m] == ResultSlots(cfg, o)[Rank(ks[m])].1)
  {
    var s := ResultSlots(cfg, o);
    RegisteredSorted(s);
    RegisteredMember(s, 0);
    RegisteredMember(s, 1);
    RegisteredFromSlots(s);
  }

  // ------------------------------------------------------------ metadata

  /** `f"heuristic_{i}"` */
  function DetailKey(i: nat): string {
    "heuristic_" + NatToString(i)
  }

  /** `sum(1 for r in results if r.status == s)` */
  function CountStatus(results: seq<HeuristicResult>, s: Status): (n: nat)
    ensures n <= |results|
  {
    if results == [] then 0
    else
      var n := |results| - 1;
      CountStatus(results[..n], s) + (if results[n].status == s then 1 else 0)
  }

  /** Every result is counted under exactly one status. */
  lemma {:induction false} CountsAddUp(results: seq<HeuristicResult>)
    ensures CountStatus(results, Passed) + CountStatus(results, Failed)
          + CountStatus(results, Modified) + CountStatus(results, Warning) == |results|
  {
    if results != [] {
      CountsAddUp(results[..|results| - 1]);
    }
  }

  /** The "details" dict: each result's metadata under the key of its position. */
  function Details(results: seq<HeuristicResult>): map<string, Value> {
    if results == [] then map[]
    else
      var n := |results| - 1;
      Details(results[..n])[DetailKey(n) := VDict(results[n].metadata)]
  }

  /** The `i`-th result's metadata sits under `heuristic_i`: no later entry overwrites it. */
  lemma {:induction false} DetailsEntry(results: seq<HeuristicResult>, i: nat)
    requires i < |results|
    ensures DetailKey(i) in Details(results)
    ensures Details(results)[DetailKey(i)] == VDict(results[i].metadata)
  {
    var n := |results| - 1;
    if i < n {
      var front := results[..n];
      assert front[i] == results[i];
      DetailsEntry(front, i);
      if DetailKey(i) == DetailKey(n) {
        assert NatToString(i) == DetailKey(i)[10..] == DetailKey(n)[10..] == NatToString(n);
        NatToStringInjective(i, n);
      }
    }
  }

  /** The keys of "details" are `heuristic_0` up to `heuristic_{n-1}`. */
  lemma {:induction false} DetailsKeys(results: seq<HeuristicResult>, key: string)
    ensures key in Details(results) <==> exists i :: 0 <= i < |results| && key == DetailKey(i)
  {
    if results != [] {
      var n := |results| - 1;
      DetailsKeys(results[..n], key);
    }
  }

  /** The dict `_extract_metadata` returns. */
  function MetadataOf(results: seq<HeuristicResult>): Metadata {
    map["heuristics_run" := VInt(|results|),
        "passed" := VInt(CountStatus(results, Passed)),
        "failed" := VInt(CountStatus(results, Failed)),
        "modified" := VInt(CountStatus(results, Modified)),
        "warnings" := VInt(CountStatus(results, Warning)),
        "details" := VDict(Details(results))]
  }

  /** `_extract_metadata`: the number of results, how many ended under each
      status, and each result's metadata keyed by its position. */
  method ExtractMetadata(results: seq<HeuristicResult>) returns (md: Metadata)
    ensures md == MetadataOf(results)
  {
    md := map["heuristics_run" := VInt(|results|),
              "passed" := VInt(CountStatus(results, Passed)),
              "failed" := VInt(CountStatus(results, Failed)),
              "modified" := VInt(CountStatus(results, Modified)),
              "warnings" := VInt(CountStatus(results, Warning))];
    var allMetadata: map<string, Value> := map[];
    for i := 0 to |results|
      invariant allMetadata == Details(results[..i])
    {
      assert results[..i + 1][..i] == results[..i];
      allMetadata := allMetadata[DetailKey(i) := VDict(results[i].metadata)];
    }
    assert results[..|results|] == results;
    md := md["details" := VDict(allMetadata)];
  }

  /** The summary: the status counts add up to the number of results, and the
      details hold exactly one entry per result, its own metadata. */
  lemma MetadataSummary(results: seq<HeuristicResult>)
    ensures var md := MetadataOf(results);
      && md.Keys == {"heuristics_run", "passed", "failed", "modified", "warnings", "details"}
      && md["passed"].i + md["failed"].i + md["modified"].i + md["warnings"].i == md["heuristics_run"].i == |results|
      && md["details"].VDict?
      && (forall key :: key in md["details"].entries <==> exists i :: 0 <= i < |results| && key == DetailKey(i))
      && (forall i :: 0 <= i < |results| ==> md["details"].entries[DetailKey(i)] == VDict(results[i].metadata))
  {
    CountsAddUp(results);
    forall key {
      DetailsKeys(results, key);
    }
    forall i | 0 <= i < |results| {
      DetailsEntry(results, i);
    }
  }

  // ------------------------------------------------- what each pipeline does

  /** The tool pipeline may hand on the same payload or, for a tool list, the same tools in another order. */
  predicate Reorders(p: Payload, q: Payload) {
    p == q || (p.ToolList? && q.ToolList? && multiset(q.tools) == multiset(p.tools))
  }

  /** The query pipeline turns a query string into a query string. */
  predicate StaysText(p: Payload, q: Payload) {
    p.Str? ==> q.Str?
  }

  predicate IsQueryKind(k: Kind) {
    k.LengthFilter? || k.PiiRedaction? || k.Deduplication? || k.Ambiguity? || k.IntentClassification?
  }

  predicate IsToolKind(k: Kind) {
    k.AffinityScoring? || k.TimePrioritization? || k.RateLimit?
  }

  predicate IsResultKind(k: Kind) {
    k.ConfidenceThreshold? || k.HallucinationDetection?
  }

  /** Every step of a run hands on a payload related by `R` to the one it was given. */
  lemma {:induction false} RunKeeps(R: (Payload, Payload) -> bool, steps: seq<Instance>, input: Payload, ctx: Context,
                                    stop: bool, results: seq<HeuristicResult>, afters: seq<InstanceState>)
    requires forall p :: R(p, p)
    requires forall p, q, s :: R(p, q) && R(q, s) ==> R(p, s)
    requires AllReady(steps) && Ran(steps, input, ctx, stop, results, afters)
    requires forall i, p :: 0 <= i < |steps| ==>
      var r := Executed(steps[i].enabled, steps[i].kind, steps[i].state, p, ctx).0;
      r.modifiedInput.Some? ==> R(p, r.modifiedInput.value)
    ensures R(input, Thread(input, results))
  {
    RanIff(steps, input, ctx, stop, results, afters);
    forall i | 0 <= i < |results| && results[i].modifiedInput.Some?
      ensures R(Thread(input, results[..i]), results[i].modifiedInput.value)
    {
      assert ExecutedAt(steps, input, ctx, results, afters, i);
    }
    ThreadKeeps(R, input, results);
  }

  /** A query heuristic hands on a string when given one. */
  lemma QueryStepStaysText(enabled: bool, k: Kind, st: InstanceState, p: Payload, ctx: Context)
    requires IsQueryKind(k) && CheckReady(k, st)
    ensures var r := Executed(enabled, k, st, p, ctx).0;
      r.modifiedInput.Some? ==> StaysText(p, r.modifiedInput.value)
  {
    if enabled {
      match k
      case LengthFilter(cfg) => LengthCheckBounds(cfg, p);
      case PiiRedaction(cfg, m) =>
      case Deduplication(cfg, digest) => DedupCheckOutcome(cfg, digest, DedupCache(st.cache, st.queryHashes), p);
      case Ambiguity(cfg) => AmbiguityVerdict(cfg, p);
      case IntentClassification(intents) => IntentCheckTransparent(intents, p);
    }
  }

  /** A tool heuristic hands on its payload or a reordering of its tool list. */
  lemma ToolStepReorders(enabled: bool, k: Kind, st: InstanceState, p: Payload, ctx: Context)
    requires IsToolKind(k) && CheckReady(k, st)
    ensures var r := Executed(enabled, k, st, p, ctx).0;
      r.modifiedInput.Some? ==> Reorders(p, r.modifiedInput.value)
  {
    if enabled {
      match k
      case AffinityScoring(cfg) => AffinityCheckReranks(cfg, st.affinityScores, ctx, p);
      case TimePrioritization(cfg) => TimeCheckReorders(cfg, st.latencies, ctx, p);
      case RateLimit(cfg) => RateCheckVerdict(cfg, st.usageTracking, ctx, p);
    }
  }

  /** A result heuristic hands on exactly what it was given, if anything. */
  lemma ResultStepKeeps(enabled: bool, k: Kind, st: InstanceState, p: Payload, ctx: Context)
    requires IsResultKind(k) && CheckReady(k, st)
    ensures var r := Executed(enabled, k, st, p, ctx).0;
      r.modifiedInput.Some? ==> r.modifiedInput.value == p
  {
    if enabled {
      match k
      case ConfidenceThreshold(cfg) => ConfidenceVerdict(cfg, ctx, p);
      case HallucinationDetection(cfg, m) => HallucinationVerdict(cfg, m, ctx, p);
    }
  }

  /** A run of query heuristics on a query string ends with a query string. */
  lemma QueryRunStaysText(steps: seq<Instance>, input: Payload, ctx: Context, stop: bool,
                          results: seq<HeuristicResult>, afters: seq<InstanceState>)
    requires AllReady(steps) && Ran(steps, input, ctx, stop, results, afters)
    requires forall i :: 0 <= i < |steps| ==> IsQueryKind(steps[i].kind)
    ensures input.Str? ==> Thread(input, results).Str?
  {
    forall i, p | 0 <= i < |steps|
      ensures var r := Executed(steps[i].enabled, steps[i].kind, steps[i].state, p, ctx).0;
        r.modifiedInput.Some? ==> StaysText(p, r.modifiedInput.value)
    {
      QueryStepStaysText(steps[i].enabled, steps[i].kind, steps[i].state, p, ctx);
    }
    RunKeeps((p, q) => StaysText(p, q), steps, input, ctx, stop, results, afters);
  }

  /** A run of tool heuristics on a tool list ends with the same tools, possibly reordered. */
  lemma ToolRunReorders(steps: seq<Instance>, input: Payload, ctx: Context, stop: bool,
                        results: seq<HeuristicResult>, afters: seq<InstanceState>)
    requires AllReady(steps) && Ran(steps, input, ctx, stop, results, afters)
    requires forall i :: 0 <= i < |steps| ==> IsToolKind(steps[i].kind)
    ensures Reorders(input, Thread(input, results))
  {
    forall i, p | 0 <= i < |steps|
      ensures var r := Executed(steps[i].enabled, steps[i].kind, steps[i].state, p, ctx).0;
        r.modifiedInput.Some? ==> Reorders(p, r.modifiedInput.value)
    {
      ToolStepReorders(steps[i].enabled, steps[i].kind, steps[i].state, p, ctx);
    }
    RunKeeps((p, q) => Reorders(p, q), steps, input, ctx, stop, results, afters);
  }

  /** A run of result heuristics hands back the result it was given. */
  lemma ResultRunKeeps(steps: seq<Instance>, input: Payload, ctx: Context, stop: bool,
                       results: seq<HeuristicResult>, afters: seq<InstanceState>)
    requires AllReady(steps) && Ran(steps, input, ctx, stop, results, afters)
    requires forall i :: 0 <= i < |steps| ==> IsResultKind(steps[i].kind)
    ensures Thread(input, results) == input
  {
    forall i, p | 0 <= i < |steps|
      ensures var r := Executed(steps[i].enabled, steps[i].kind, steps[i].state, p, ctx).0;
        r.modifiedInput.Some? ==> r.modifiedInput.value == p
    {
      ResultStepKeeps(steps[i].enabled, steps[i].kind, steps[i].state, p, ctx);
    }
    RunKeeps((p, q) => p == q, steps, input, ctx, stop, results, afters);
  }

  /** Position `i` of `KindsOf` is the kind of instance `i`. */
  lemma {:induction false} KindsOfAt(hs: seq<Heuristic>, i: nat)
    requires i < |hs|
    ensures KindsOf(hs)[i] == hs[i].kind
  {
    var n := |hs| - 1;
    if i < n {
      KindsOfAt(hs[..n], i);
    }
  }

  /** The query pipeline holds only query heuristics, the tool pipeline only
      tool heuristics and the result pipeline only result heuristics. */
  lemma StageKinds(cfg: ManagerConfig, o: Oracles)
    ensures forall k <- QueryKinds(cfg, o) :: IsQueryKind(k)
    ensures forall k <- ToolKinds(cfg) :: IsToolKind(k)
    ensures forall k <- ResultKinds(cfg, o) :: IsResultKind(k)
  {
    QueryCatalog(cfg, o);
    ToolCatalog(cfg);
    ResultCatalog(cfg, o);
  }

  /** When the kinds of `hs` are those of `ks`, each instance has a kind in `ks`. */
  lemma KindsIn(hs: seq<Heuristic>, ks: seq<Kind>)
    requires KindsOf(hs) == ks
    ensures forall i :: 0 <= i < |hs| ==> hs[i].kind in ks
  {
    forall i | 0 <= i < |hs| ensures hs[i].kind in ks {
      KindsOfAt(hs, i);
    }
  }

  // ------------------------------------------------------------- the manager

  /** `h` is the handle of the instance of kind `k` in `p` when that entry is on, and null otherwise. */
  ghost predicate Handle(h: Heuristic?, p: HeuristicPipeline, on: bool, k: Kind)
    reads p
  {
    (h != null <==> on) && (h != null ==> h in p.heuristics && h.kind == k)
  }

  /** Every instance in `p` is enabled and in its initial state. */
  ghost predicate AllNew(p: HeuristicPipeline)
    reads p, p.heuristics
  {
    forall h <- p.heuristics :: h.enabled && h.State() == InitialState
  }

  /** Creates an enabled instance of `k` and appends it to `p` (`add_heuristic`). */
  method Register(p: HeuristicPipeline, k: Kind) returns (h: Heuristic)
    requires p.Valid() && AllNew(p)
    modifies p
    ensures p.Valid() && AllNew(p) && p.heuristics == old(p.heuristics) + [h]
    ensures KindsOf(p.heuristics) == KindsOf(old(p.heuristics)) + [k]
    ensures fresh(h) && h.kind == k
  {
    hide StateValid;
    h := new Heuristic(true, k);
    p.AddHeuristic(h);
    KindsOfSnoc(old(p.heuristics), h);
  }

  /** One `if <entry>.get("enabled", True): add_heuristic(...)` step of
      `_init_heuristics`: entry `i` is registered, as a new enabled instance,
      exactly when it is on. */
  method AddIfEnabled(p: HeuristicPipeline, slots: seq<(bool, Kind)>, i: nat) returns (h: Heuristic?)
    requires i < |slots| && p.Valid() && AllNew(p) && KindsOf(p.heuristics) == Registered(slots[..i])
    modifies p
    ensures p.Valid() && AllNew(p) && KindsOf(p.heuristics) == Registered(slots[..i + 1])
    ensures h == null <==> !slots[i].0
    ensures h != null ==> h in p.heuristics && h.kind == slots[i].1
    ensures forall x <- old(p.heuristics) :: x in p.heuristics
    ensures forall x <- p.heuristics :: x in old(p.heuristics) || fresh(x)
  {
    hide StateValid;
    RegisteredStep(slots, i + 1);
    if slots[i].0 {
      h := Register(p, slots[i].1);
    } else {
      h := null;
    }
  }

  /** The query block of `_init_heuristics`: length filter, PII redaction,
      deduplication, ambiguity and intent classification, each when its entry is on. */
  method InitQuery(cfg: ManagerConfig, o: Oracles) returns (q: HeuristicPipeline, dedup: Heuristic?, intent: Heuristic?)
    ensures fresh(q) && q.Valid() && AllNew(q) && KindsOf(q.heuristics) == QueryKinds(cfg, o)
    ensures forall h <- q.heuristics :: fresh(h)
    ensures Handle(dedup, q, cfg.enabled && cfg.dedup.enabled, Deduplication(cfg.dedup.config, o.digest))
    ensures Handle(intent, q, cfg.enabled && cfg.intent.enabled, IntentClassification(cfg.intent.config))
  {
    hide StateValid, Registered, KindsOf;
    q := new HeuristicPipeline([]);
    dedup, intent := null, null;
    if cfg.enabled {
      var qs := QuerySlots(cfg, o);
      RegisteredNone(qs);
      var ignored := AddIfEnabled(q, qs, 0);
      ignored := AddIfEnabled(q, qs, 1);
      dedup := AddIfEnabled(q, qs, 2);
      ignored := AddIfEnabled(q, qs, 3);
      intent := AddIfEnabled(q, qs, 4);
      assert qs[..5] == qs;
    }
  }

  /** The tool block of `_init_heuristics`: affinity scoring, time-based
      prioritization and rate limiting, each when its entry is on. */
  method InitTool(cfg: ManagerConfig) returns (t: HeuristicPipeline, affinity: Heuristic?, time: Heuristic?, rate: Heuristic?)
    ensures fresh(t) && t.Valid() && AllNew(t) && KindsOf(t.heuristics) == ToolKinds(cfg)
    ensures forall h <- t.heuristics :: fresh(h)
    ensures Handle(affinity, t, cfg.enabled && cfg.affinity.enabled, AffinityScoring(cfg.affinity.config))
    ensures Handle(time, t, cfg.enabled && cfg.time.enabled, TimePrioritization(cfg.time.config))
    ensures Handle(rate, t, cfg.enabled && cfg.rate.enabled, RateLimit(cfg.rate.config))
  {
    hide StateValid, Registered, KindsOf;
    t := new HeuristicPipeline([]);
    affinity, time, rate := null, null, null;
    if cfg.enabled {
      var ts := ToolSlots(cfg);
      RegisteredNone(ts);
      affinity := AddIfEnabled(t, ts, 0);
      time := AddIfEnabled(t, ts, 1);
      rate := AddIfEnabled(t, ts, 2);
      assert ts[..3] == ts;
    }
  }

  /** The result block of `_init_heuristics`: confidence threshold, then
      hallucination detection, each when its entry is on. */
  method InitResult(cfg: ManagerConfig, o: Oracles) returns (r: HeuristicPipeline)
    ensures fresh(r) && r.Valid() && AllNew(r) && KindsOf(r.heuristics) == ResultKinds(cfg, o)
    ensures forall h <- r.heuristics :: fresh(h)
  {
    hide StateValid;
    r := new HeuristicPipeline([]);
    if cfg.enabled {
      var rs := ResultSlots(cfg, o);
      assert rs[..0] == [];
      var ignored := AddIfEnabled(r, rs, 0);
      ignored := AddIfEnabled(r, rs, 1);
      assert rs[..2] == rs;
    }
  }

  /** `HeuristicManager` */
  class HeuristicManager {
    const config: ManagerConfig
    const oracles: Oracles
    const enabled: bool
    const queryPipeline: HeuristicPipeline
    const toolPipeline: HeuristicPipeline
    const resultPipeline: HeuristicPipeline
    /** The attributes `_init_heuristics` sets only for the heuristics it registers (`hasattr`). */
    const queryDeduplication: Heuristic?
    const queryIntentClassifier: Heuristic?
    const toolAffinity: Heuristic?
    const timePrioritization: Heuristic?
    const rateLimiter: Heuristic?

    /** Three distinct pipelines holding the catalog's kinds for the configuration,
        no instance shared between them, and the handles on the registered
        stateful heuristics. */
    ghost predicate Valid()
      reads this, queryPipeline, toolPipeline, resultPipeline
      reads queryPipeline.heuristics, toolPipeline.heuristics, resultPipeline.heuristics
    {
      && Wired() && Separate()
      && queryPipeline.Valid() && toolPipeline.Valid() && resultPipeline.Valid()
    }

    /** Each pipeline holds the instances its stage's catalog switches on. */
    ghost predicate Wired()
      reads this, queryPipeline, toolPipeline, resultPipeline
    {
      && enabled == config.enabled
      && KindsOf(queryPipeline.heuristics) == QueryKinds(config, oracles)
      && KindsOf(toolPipeline.heuristics) == ToolKinds(config)
      && KindsOf(resultPipeline.heuristics) == ResultKinds(config, oracles)
      && Handle(queryDeduplication, queryPipeline, config.enabled && config.dedup.enabled,
                Deduplication(config.dedup.config, oracles.digest))
      && Handle(queryIntentClassifier, queryPipeline, config.enabled && config.intent.enabled,
                IntentClassification(config.intent.config))
      && Handle(toolAffinity, toolPipeline, config.enabled && config.affinity.enabled, AffinityScoring(config.affinity.config))
      && Handle(timePrioritization, toolPipeline, config.enabled && config.time.enabled, TimePrioritization(config.time.config))
      && Handle(rateLimiter, toolPipeline, config.enabled && config.rate.enabled, RateLimit(config.rate.config))
    }

    /** The three pipelines are distinct and share no instance. */
    ghost predicate Separate()
      reads this, queryPipeline, toolPipeline, resultPipeline
    {
      && queryPipeline != toolPipeline && queryPipeline != resultPipeline && toolPipeline != resultPipeline
      && (forall h :: h in queryPipeline.heuristics ==> h !in toolPipeline.heuristics && h !in resultPipeline.heuristics)
      && (forall h :: h in toolPipeline.heuristics ==> h !in resultPipeline.heuristics)
    }

    /** `__init__` and `_init_heuristics`, with the configuration already loaded:
        each entry that is on gets a new instance, in catalog order. */
    constructor(config: ManagerConfig, oracles: Oracles)
      ensures this.config == config && this.oracles == oracles
      ensures Valid()
      ensures fresh(queryPipeline) && fresh(toolPipeline) && fresh(resultPipeline)
      ensures AllNew(queryPipeline) && AllNew(toolPipeline) && AllNew(resultPipeline)
      ensures forall h <- queryPipeline.heuristics :: fresh(h)
      ensures forall h <- toolPipeline.heuristics :: fresh(h)
      ensures forall h <- resultPipeline.heuristics :: fresh(h)
    {
      hide StateValid, Registered, KindsOf, QueryKinds, ToolKinds, ResultKinds, Handle;
      var q, dedup, intent := InitQuery(config, oracles);
      var t, affinity, time, rate := InitTool(config);
      var r := InitResult(config, oracles);
      this.config := config;
      this.oracles := oracles;
      enabled := config.enabled;
      queryPipeline, toolPipeline, resultPipeline := q, t, r;
      queryDeduplication, queryIntentClassifier := dedup, intent;
      toolAffinity, timePrioritization, rateLimiter := affinity, time, rate;
    }

    /** The instances of a pipeline run on `input` without stopping on failure:
        one result per instance, in order, and the payload they leave. */
    ghost predicate AdvisoryRun(p: HeuristicPipeline, before: seq<Instance>, input: Payload, ctx: Context,
                                results: seq<HeuristicResult>, out: Payload)
      reads p, p.heuristics
    {
      && |results| == |before| == |p.heuristics|
      && AllReady(before)
      && Ran(before, input, ctx, false, results, p.States())
      && out == Thread(input, results)
    }

    /** A pipeline none of whose instances changed is as valid as it was. */
    twostate lemma PipelineFramed(q: HeuristicPipeline)
      requires old(q.Valid()) && unchanged(q)
      requires forall h :: h in q.heuristics ==> unchanged(h)
      ensures q.Valid()
    {
      forall i | 0 <= i < |q.heuristics|
        ensures q.heuristics[i].Valid()
      {
        assert q.heuristics[i] in q.heuristics && old(q.heuristics[i].Valid());
      }
    }

    /** Running one pipeline keeps the manager valid when that pipeline stays
        valid and no other pipeline's instance changed. */
    twostate lemma KeepsValid(p: HeuristicPipeline)
      requires old(Valid()) && (p == queryPipeline || p == toolPipeline || p == resultPipeline)
      requires unchanged(this, queryPipeline, toolPipeline, resultPipeline)
      requires p.Valid()
      requires forall h :: h in old(queryPipeline.heuristics + toolPipeline.heuristics + resultPipeline.heuristics) ==>
                             h in old(p.heuristics) || unchanged(h)
      ensures Valid()
    {
      hide StateValid, KindsOf, QueryKinds, ToolKinds, ResultKinds, Handle, Wired;
      forall q | q in {queryPipeline, toolPipeline, resultPipeline} && q != p
        ensures q.Valid()
      {
        forall h | h in q.heuristics
          ensures unchanged(h)
        {
          assert h in old(queryPipeline.heuristics + toolPipeline.heuristics + resultPipeline.heuristics);
          assert h !in old(p.heuristics);
        }
        PipelineFramed(q);
      }
    }

    /** Runs pipeline `p` in advisory mode; the manager's other pipelines are untouched. */
    method RunAdvisory(p: HeuristicPipeline, input: Payload, ctx: Context)
      returns (out: Payload, md: Metadata, ghost results: seq<HeuristicResult>)
      requires Valid() && (p == queryPipeline || p == toolPipeline || p == resultPipeline)
      modifies set h | h in p.heuristics
      ensures Valid()
      ensures AdvisoryRun(p, old(p.Instances()), input, ctx, results, out)
      ensures md == MetadataOf(results)
    {
      hide StateValid, KindsOf, QueryKinds, ToolKinds, ResultKinds, Handle, Ran, Thread, Executed, MetadataOf;
      hide Wired, HeuristicPipeline.Valid;
      var rs;
      out, rs := p.Run(input, ctx, false);
      KeepsValid(p);
      assert p.States()[..|rs|] == p.States();
      md := ExtractMetadata(rs);
      results := rs;
    }

    /** `process_query`: with the system off the query comes back as it was with
        no metadata; otherwise every query heuristic runs once, in order, failures
        do not stop the chain, and the query stays a string. */
    method ProcessQuery(query: string, ctx: Context) returns (out: Payload, md: Metadata, ghost results: seq<HeuristicResult>)
      requires Valid()
      modifies set h | h in queryPipeline.heuristics
      ensures Valid()
      ensures !enabled ==> out == Str(query) && md == map[]
      ensures enabled ==> AdvisoryRun(queryPipeline, old(queryPipeline.Instances()), Str(query), ctx, results, out)
                          && md == MetadataOf(results) && out.Str?
    {
      if !enabled {
        return Str(query), map[], [];
      }
      ghost var before := queryPipeline.Instances();
      out, md, results := RunAdvisory(queryPipeline, Str(query), ctx);
      StageKinds(config, oracles);
      KindsIn(old(queryPipeline.heuristics), QueryKinds(config, oracles));
      QueryRunStaysText(before, Str(query), ctx, false, results, queryPipeline.States());
    }

    /** `process_tools`: with the system off the tools come back as they were;
        otherwise every tool heuristic runs once, in order, and the tools that
        come out are the tools that went in, possibly reordered. */
    method ProcessTools(tools: seq<Tool>, ctx: Context) returns (out: Payload, md: Metadata, ghost results: seq<HeuristicResult>)
      requires Valid()
      modifies set h | h in toolPipeline.heuristics
      ensures Valid()
      ensures !enabled ==> out == ToolList(tools) && md == map[]
      ensures enabled ==> AdvisoryRun(toolPipeline, old(toolPipeline.Instances()), ToolList(tools), ctx, results, out)
                          && md == MetadataOf(results)
      ensures out.ToolList? && multiset(out.tools) == multiset(tools)
    {
      if !enabled {
        return ToolList(tools), map[], [];
      }
      ghost var before := toolPipeline.Instances();
      out, md, results := RunAdvisory(toolPipeline, ToolList(tools), ctx);
      StageKinds(config, oracles);
      KindsIn(old(toolPipeline.heuristics), ToolKinds(config));
      ToolRunReorders(before, ToolList(tools), ctx, false, results, toolPipeline.States());
    }

    /** `process_result`: every result heuristic runs once, in order, and the
        result comes back exactly as it went in; only the metadata reports. */
    method ProcessResult(result: Payload, ctx: Context) returns (out: Payload, md: Metadata, ghost results: seq<HeuristicResult>)
      requires Valid()
      modifies set h | h in resultPipeline.heuristics
      ensures Valid()
      ensures !enabled ==> md == map[]
      ensures enabled ==> AdvisoryRun(resultPipeline, old(resultPipeline.Instances()), result, ctx, results, out)
                          && md == MetadataOf(results)
      ensures out == result
    {
      if !enabled {
        return result, map[], [];
      }
      ghost var before := resultPipeline.Instances();
      out, md, results := RunAdvisory(resultPipeline, result, ctx);
      StageKinds(config, oracles);
      KindsIn(old(resultPipeline.heuristics), ResultKinds(config, oracles));
      ResultRunKeeps(before, result, ctx, false, results, resultPipeline.States());
    }

    /** `_get_heuristic_name`: the class name of the instance at `index` of the
        named stage's pipeline, or "unknown" for another stage or a position
        past the end. */
    method GetHeuristicName(stage: string, index: nat) returns (name: string)
      ensures stage != "query" && stage != "tool" && stage != "result" ==> name == "unknown"
      ensures stage == "query" ==>
        name == if index < |queryPipeline.heuristics| then ClassName(queryPipeline.heuristics[index].kind) else "unknown"
      ensures stage == "tool" ==>
        name == if index < |toolPipeline.heuristics| then ClassName(toolPipeline.heuristics[index].kind) else "unknown"
      ensures stage == "result" ==>
        name == if index < |resultPipeline.heuristics| then ClassName(resultPipeline.heuristics[index].kind) else "unknown"
    {
      var heuristics: seq<Heuristic>;
      if stage == "query" {
        heuristics := queryPipeline.heuristics;
      } else if stage == "tool" {
        heuristics := toolPipeline.heuristics;
      } else if stage == "result" {
        heuristics := resultPipeline.heuristics;
      } else {
        return "unknown";
      }
      if index < |heuristics| {
        return ClassName(heuristics[index].kind);
      }
      return "unknown";
    }

    /** `get_stats`: the stats of each stage's instances, keyed by class name. */
    method GetStats() returns (query: map<string, Stats>, tool: map<string, Stats>, result: map<string, Stats>)
      ensures query == AllStats(queryPipeline.Instances())
      ensures tool == AllStats(toolPipeline.Instances())
      ensures result == AllStats(resultPipeline.Instances())
    {
      query := queryPipeline.GetAllStats();
      tool := toolPipeline.GetAllStats();
      result := resultPipeline.GetAllStats();
    }

    /** `record_tool_usage`: forwarded to the affinity heuristic when one was registered. */
    method RecordToolUsage(intent: string, toolName: string, success: bool)
      requires Valid()
      modifies if toolAffinity != null then {toolAffinity} else {}
      ensures Valid()
      ensures toolAffinity != null ==>
        toolAffinity.State()
        == old(toolAffinity.State()).(affinityScores := RecordUsage(old(toolAffinity.affinityScores), intent, toolName, success))
    {
      hide StateValid, KindsOf, QueryKinds, ToolKinds, ResultKinds;
      if toolAffinity != null {
        toolAffinity.RecordToolUsage(intent, toolName, success);
      }
    }

    /** `record_tool_latency`: forwarded to the time-based prioritization when one was registered. */
    method RecordToolLatency(toolName: string, latency: real)
      requires Valid()
      modifies if timePrioritization != null then {timePrioritization} else {}
      ensures Valid()
      ensures timePrioritization != null ==>
        timePrioritization.State()
        == old(timePrioritization.State()).(latencies := RecordLatency(old(timePrioritization.latencies), toolName, latency))
    {
      hide StateValid, KindsOf, QueryKinds, ToolKinds, ResultKinds;
      if timePrioritization != null {
        timePrioritization.RecordToolLatency(toolName, latency);
      }
    }

    /** `record_tool_call`: forwarded to the rate limiter when one was registered. */
    method RecordToolCall(sessionId: string, toolName: string, step: int)
      requires Valid()
      modifies if rateLimiter != null then {rateLimiter} else {}
      ensures Valid()
      ensures rateLimiter != null ==>
        rateLimiter.State()
        == old(rateLimiter.State()).(usageTracking := RecordCall(config.rate.config, old(rateLimiter.usageTracking), sessionId, toolName, step))
    {
      hide StateValid, KindsOf, QueryKinds, ToolKinds, ResultKinds;
      if rateLimiter != null {
        rateLimiter.RecordToolCall(sessionId, toolName, step);
      }
    }
  }
}
