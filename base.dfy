/**
 * The values every heuristic works with (modules/heuristics/base.py):
 * the four statuses, a result with its optional replacement payload, the
 * per-instance run counters, and the rule by which a pipeline threads the
 * payload from one heuristic to the next.
 */
module Base {
  import opened Text

  datatype Option<+T> = None | Some(value: T) {
    function GetOr(default: T): T {
      match this
      case Some(v) => v
      case None => default
    }
  }

  /** `HeuristicStatus` */
  datatype Status = Passed | Failed | Modified | Warning

  /** A metadata value: the JSON-like values the heuristics put in their metadata dicts. */
  datatype Value =
    | VNone
    | VBool(b: bool)
    | VInt(i: int)
    | VReal(r: real)
    | VStr(s: string)
    | VList(items: seq<Value>)
    | VDict(entries: map<string, Value>)

  type Metadata = map<string, Value>

  function VStrs(ss: seq<string>): (v: Value)
    ensures v.VList? && |v.items| == |ss|
  {
    VList(seq(|ss|, i requires 0 <= i < |ss| => VStr(ss[i])))
  }

  /** A subset is no larger, and a subset of the same size is the whole set. */
  lemma SubsetCard<T>(x: set<T>, y: set<T>)
    requires x <= y
    ensures |x| <= |y|
    ensures |x| == |y| ==> x == y
  {
    assert y == x + (y - x);
  }

  /** A ratio of a part to its positive whole lies in [0, 1], is 0 only for an
      empty part and 1 only for the whole. */
  lemma RatioBounds(n: real, d: real)
    requires 0.0 <= n <= d && d > 0.0
    ensures 0.0 <= n / d <= 1.0
    ensures n / d == 0.0 <==> n == 0.0
    ensures n / d == 1.0 <==> n == d
  {
  }

  /** A tool as the pipelines see it: `getattr(tool, "name", ...)` reads `name`. */
  datatype Tool = Tool(name: string, description: string)

  /**
   * What flows through a pipeline: a query or result string, a tool list, or
   * a result dict (with its optional "result" entry and the text `str()`
   * gives for it).
   */
  datatype Payload =
    | Str(s: string)
    | ToolList(tools: seq<Tool>)
    | Dict(result: Option<string>, rendered: string)

  function ToolNames(tools: seq<Tool>): (names: seq<string>)
    ensures |names| == |tools|
    ensures forall i :: 0 <= i < |tools| ==> names[i] == tools[i].name
  {
    if tools == [] then [] else [tools[0].name] + ToolNames(tools[1..])
  }

  /** `str(input_data)` */
  function Render(p: Payload): string {
    match p
    case Str(s) => s
    case ToolList(tools) => "[" + Join(ToolNames(tools), ", ") + "]"
    case Dict(_, rendered) => rendered
  }

  /** `HeuristicResult`: `modified_input` is `None` when the heuristic hands no payload on. */
  datatype HeuristicResult = HeuristicResult(
    status: Status,
    modifiedInput: Option<Payload>,
    metadata: Metadata,
    message: Option<string>)

  /**
   * The context dict a caller may pass. Only the keys the heuristics read are
   * modelled; a context with none of them set is the empty dict, which Python
   * treats like `None`.
   */
  datatype Context = Context(
    queryIntent: Option<string>,
    queryComplexity: Option<string>,
    sessionId: Option<string>,
    step: Option<int>,
    confidence: Option<real>,
    toolOutputs: Option<seq<string>>)
  {
    predicate IsEmpty() {
      queryIntent.None? && queryComplexity.None? && sessionId.None?
      && step.None? && confidence.None? && toolOutputs.None?
    }
  }

  const NoContext := Context(None, None, None, None, None, None)

  /** The `self.stats` dict of a heuristic. */
  datatype Stats = Stats(totalRuns: nat, passed: nat, failed: nat, modified: nat, warnings: nat) {
    /** Every run is counted under exactly one status. */
    predicate Balanced() {
      totalRuns == passed + failed + modified + warnings
    }

    function CountOf(s: Status): nat {
      match s
      case Passed => passed
      case Failed => failed
      case Modified => modified
      case Warning => warnings
    }

    /** The counter update `execute` makes after an enabled check returned status `s`. */
    function Record(s: Status): (r: Stats)
      ensures r.totalRuns == totalRuns + 1
      ensures r.CountOf(s) == CountOf(s) + 1
      ensures forall t :: t != s ==> r.CountOf(t) == CountOf(t)
      ensures Balanced() ==> r.Balanced()
    {
      match s
      case Passed => this.(totalRuns := totalRuns + 1, passed := passed + 1)
      case Failed => this.(totalRuns := totalRuns + 1, failed := failed + 1)
      case Modified => this.(totalRuns := totalRuns + 1, modified := modified + 1)
      case Warning => this.(totalRuns := totalRuns + 1, warnings := warnings + 1)
    }
  }

  const ZeroStats := Stats(0, 0, 0, 0, 0)

  /**
   * The payload a pipeline holds after the given results: the replacement
   * payload of the latest result that carries one, or the original input.
   */
  function Thread(input: Payload, results: seq<HeuristicResult>): Payload {
    if results == [] then input
    else
      match results[|results| - 1].modifiedInput
      case Some(p) => p
      case None => Thread(input, results[..|results| - 1])
  }

  /** `Thread` returns the input when no result carries a payload, and otherwise
      the payload of the last result that does. */
  lemma {:induction false} ThreadIsLatestPayload(input: Payload, results: seq<HeuristicResult>)
    ensures (forall i :: 0 <= i < |results| ==> results[i].modifiedInput.None?) ==> Thread(input, results) == input
    ensures forall i :: 0 <= i < |results| && results[i].modifiedInput.Some?
                        && (forall j :: i < j < |results| ==> results[j].modifiedInput.None?)
                        ==> Thread(input, results) == results[i].modifiedInput.value
  {
    if results != [] {
      var n := |results| - 1;
      var front := results[..n];
      ThreadIsLatestPayload(input, front);
      if results[n].modifiedInput.None? {
        assert Thread(input, results) == Thread(input, front);
        forall i | 0 <= i < n
          ensures front[i] == results[i]
        {
        }
      }
    }
  }

  /** No element occurs twice. */
  predicate Distinct<T(==)>(s: seq<T>) {
    forall i, j :: 0 <= i < j < |s| ==> s[i] != s[j]
  }

  /** A relation kept by every step is kept from the input to the pipeline's
      output: if each result's payload is related to the payload it was given,
      the output is related to the input. */
  lemma {:induction false} ThreadKeeps(R: (Payload, Payload) -> bool, input: Payload, results: seq<HeuristicResult>)
    requires forall p :: R(p, p)
    requires forall p, q, s :: R(p, q) && R(q, s) ==> R(p, s)
    requires forall i :: 0 <= i < |results| && results[i].modifiedInput.Some?
                ==> R(Thread(input, results[..i]), results[i].modifiedInput.value)
    ensures R(input, Thread(input, results))
  {
    if results != [] {
      var n := |results| - 1;
      var front := results[..n];
      forall i | 0 <= i < |front| && front[i].modifiedInput.Some?
        ensures R(Thread(input, front[..i]), front[i].modifiedInput.value)
      {
        assert front[..i] == results[..i];
      }
      ThreadKeeps(R, input, front);
      assert results[..n] == front;
    }
  }
}
