/**
 * The plan sandbox (modules/action.py): a plan's `solve()` runs in a fresh
 * module whose `mcp` object forwards tool calls to the real dispatcher, at
 * most five per plan; its return value is turned into text, and any error
 * becomes a "[sandbox error: ...]" result instead of escaping.
 *
 * Executing Python is not modelled: a plan is represented by what running it
 * does (an error while loading it, whether it defines `solve`, the tool
 * calls `solve` makes in order, and how it finishes). The dispatcher is a
 * parameter that answers the n-th dispatched call.
 */
module Action {
  import opened Text
  import opened Base

  const MaxToolCallsPerPlan: nat := 5

  const QuotaMessage: string := "Exceeded max tool calls (" + NatToString(MaxToolCallsPerPlan) + ") in solve() plan."
  const NoSolveMessage: string := "No solve() function found in plan."

  /** A tool call: the tool's name and its input dict. */
  datatype Call = Call(toolName: string, args: seq<(string, string)>)

  /** A dispatcher reply: the `content` items (`None` for an item without a
      `text` attribute) and the reply's `str()`. */
  datatype ToolReply = ToolReply(content: seq<Option<string>>, rendered: string)

  datatype DispatchOutcome = Replied(reply: ToolReply) | DispatchRaised(message: string)

  /** The dispatcher: its answer to the n-th call passed on to it. */
  type Dispatcher = (nat, Call) -> DispatchOutcome

  /** What `mcp.call_tool` gives the plan: a reply, or an exception. */
  datatype CallOutcome = Returned(reply: ToolReply) | Raised(message: string)

  /** One tool call of `solve()`; `caught` when the plan catches an exception
      from it and carries on. */
  datatype Step = Step(call: Call, caught: bool)

  /** What `solve()` returns, by the four cases the result formatting tells
      apart, each with the text Python would print for it. */
  datatype Returned =
    | ResultDict(result: string)     // a dict with a "result" key: str of that value
    | OtherDict(json: string)        // any other dict: its json.dumps
    | ListValue(items: seq<string>)  // a list: str of each element
    | OtherValue(text: string)       // anything else: its str

  datatype Finish = Return(value: Returned) | Raise(message: string)

  datatype Plan = Plan(execError: Option<string>, definesSolve: bool, steps: seq<Step>, finish: Finish)

  /** The returned dict: exactly the keys `result` and `tool_outputs`. */
  datatype SandboxOutput = SandboxOutput(result: string, toolOutputs: seq<string>)

  function ErrorText(message: string): string {
    "[sandbox error: " + message + "]"
  }

  function FormatResult(v: Returned): string {
    match v
    case ResultDict(r) => r
    case OtherDict(j) => j
    case ListValue(xs) => Join(xs, " ")
    case OtherValue(t) => t
  }

  /** A list of words prints so that splitting on whitespace recovers it. */
  lemma FormatListWords(xs: seq<string>)
    requires forall x <- xs :: x != [] && NoSpace(x)
    ensures Split(FormatResult(ListValue(xs))) == xs
  {
    SplitJoin(xs);
  }

  /** The text kept for a reply: the first content item's text, the whole
      reply when there is no content, nothing when the text cannot be read. */
  function Captured(reply: ToolReply): seq<string> {
    if reply.content == [] then [reply.rendered]
    else if reply.content[0].Some? then [reply.content[0].value]
    else []
  }

  // ------------------------------------------------------------ tool calls

  /** The proxy's state: calls made, outputs kept, and the calls passed on
      to the dispatcher. */
  datatype Progress = Progress(count: nat, outputs: seq<string>, dispatched: seq<Call>)

  const Start := Progress(0, [], [])

  /** One `call_tool`: the sixth and later calls raise before reaching the
      dispatcher. */
  function Attempt(dispatch: Dispatcher, p: Progress, c: Call): (CallOutcome, Progress) {
    var n := p.count + 1;
    if n > MaxToolCallsPerPlan then (Raised(QuotaMessage), p.(count := n))
    else match dispatch(p.count, c)
      case DispatchRaised(m) => (Raised(m), Progress(n, p.outputs, p.dispatched + [c]))
      case Replied(reply) => (Returned(reply), Progress(n, p.outputs + Captured(reply), p.dispatched + [c]))
  }

  /** The quota: the dispatcher saw every call up to the fifth and none
      after, and every output kept came from one dispatched call. */
  predicate WithinQuota(p: Progress) {
    && |p.dispatched| == (if p.count <= MaxToolCallsPerPlan then p.count else MaxToolCallsPerPlan)
    && |p.outputs| <= |p.dispatched|
  }

  lemma AttemptKeepsQuota(dispatch: Dispatcher, p: Progress, c: Call)
    requires WithinQuota(p)
    ensures WithinQuota(Attempt(dispatch, p, c).1)
    ensures Attempt(dispatch, p, c).1.count == p.count + 1
  {
  }

  datatype StepsRun = StepsRun(progress: Progress, error: Option<string>)

  /** `solve()`'s calls in order, up to the first exception it does not catch. */
  function Steps(steps: seq<Step>, dispatch: Dispatcher, p: Progress): StepsRun
    decreases |steps|
  {
    if steps == [] then StepsRun(p, None)
    else
      var (r, q) := Attempt(dispatch, p, steps[0].call);
      if r.Raised? && !steps[0].caught then StepsRun(q, Some(r.message))
      else Steps(steps[1..], dispatch, q)
  }

  /** However many calls a plan makes, and whatever it catches, the quota
      holds and at most one call per step was made. */
  lemma {:induction false} StepsKeepQuota(steps: seq<Step>, dispatch: Dispatcher, p: Progress)
    requires WithinQuota(p)
    ensures var run := Steps(steps, dispatch, p);
      WithinQuota(run.progress) && p.count <= run.progress.count <= p.count + |steps|
    decreases |steps|
  {
    if steps != [] {
      AttemptKeepsQuota(dispatch, p, steps[0].call);
      StepsKeepQuota(steps[1..], dispatch, Attempt(dispatch, p, steps[0].call).1);
    }
  }

  /** A plan that does not catch errors and keeps calling a dispatcher that
      always replies is stopped by the quota error at its sixth call, after
      five dispatched calls. */
  lemma {:induction false} QuotaStopsPlan(steps: seq<Step>, dispatch: Dispatcher, p: Progress)
    requires WithinQuota(p) && p.count <= MaxToolCallsPerPlan
    requires |steps| > MaxToolCallsPerPlan - p.count
    requires forall s <- steps :: !s.caught
    requires forall k, c :: dispatch(k, c).Replied?
    ensures var run := Steps(steps, dispatch, p);
      run.error == Some(QuotaMessage) && run.progress.count == MaxToolCallsPerPlan + 1
      && |run.progress.dispatched| == MaxToolCallsPerPlan
    decreases MaxToolCallsPerPlan - p.count
  {
    var q := Attempt(dispatch, p, steps[0].call).1;
    if p.count < MaxToolCallsPerPlan {
      assert forall s <- steps[1..] :: s in steps;
      QuotaStopsPlan(steps[1..], dispatch, q);
    }
  }

  // ---------------------------------------------------------------- sandbox

  /** What `run_python_sandbox` returns for a plan. */
  function SandboxSpec(plan: Plan, dispatch: Dispatcher): SandboxOutput {
    if plan.execError.Some? then SandboxOutput(ErrorText(plan.execError.value), [])
    else if !plan.definesSolve then SandboxOutput(ErrorText(NoSolveMessage), [])
    else
      var run := Steps(plan.steps, dispatch, Start);
      if run.error.Some? then SandboxOutput(ErrorText(run.error.value), run.progress.outputs)
      else match plan.finish
        case Raise(m) => SandboxOutput(ErrorText(m), run.progress.outputs)
        case Return(v) => SandboxOutput(FormatResult(v), run.progress.outputs)
  }

  /** A plan's run fails exactly on a load error, a missing `solve`, an
      uncaught exception from a call, or `solve` raising; a failure reads
      "[sandbox error: ...]", success is the formatted return value, and at
      most five outputs are kept. */
  lemma SandboxOutcome(plan: Plan, dispatch: Dispatcher)
    ensures var out := SandboxSpec(plan, dispatch);
      var run := Steps(plan.steps, dispatch, Start);
      var failed := plan.execError.Some? || !plan.definesSolve || run.error.Some? || plan.finish.Raise?;
      && (failed ==> StartsWith(out.result, "[sandbox error: "))
      && (!failed ==> out.result == FormatResult(plan.finish.value))
      && |out.toolOutputs| <= MaxToolCallsPerPlan
  {
    StepsKeepQuota(plan.steps, dispatch, Start);
  }

  /** A plan without `solve` never reaches the dispatcher. */
  lemma NoSolveNoCalls(plan: Plan, dispatch: Dispatcher)
    requires plan.execError.None? && !plan.definesSolve
    ensures SandboxSpec(plan, dispatch) == SandboxOutput(ErrorText(NoSolveMessage), [])
  {
  }

  /** The `SandboxMCP` proxy the plan calls tools through. */
  class SandboxMCP {
    const dispatch: Dispatcher
    var callCount: nat
    var outputs: seq<string>
    ghost var dispatched: seq<Call>

    ghost predicate Valid()
      reads this
    {
      WithinQuota(Progress(callCount, outputs, dispatched))
    }

    constructor(dispatch: Dispatcher)
      ensures this.dispatch == dispatch && callCount == 0 && outputs == [] && dispatched == []
      ensures Valid()
    {
      this.dispatch := dispatch;
      callCount := 0;
      outputs := [];
      dispatched := [];
    }

    /** `call_tool`: count the call, refuse it past the quota, otherwise pass
        it on and keep the reply's text. */
    method CallTool(c: Call) returns (r: CallOutcome)
      requires Valid()
      modifies this
      ensures Valid()
      ensures (r, Progress(callCount, outputs, dispatched))
           == Attempt(dispatch, Progress(old(callCount), old(outputs), old(dispatched)), c)
    {
      ghost var p := Progress(callCount, outputs, dispatched);
      AttemptKeepsQuota(dispatch, p, c);
      callCount := callCount + 1;
      if callCount > MaxToolCallsPerPlan {
        assert Attempt(dispatch, p, c) == (Raised(QuotaMessage), p.(count := callCount));
        return Raised(QuotaMessage);
      }
      dispatched := dispatched + [c];
      var outcome := dispatch(callCount - 1, c);
      match outcome {
        case DispatchRaised(m) =>
          r := Raised(m);
          assert Attempt(dispatch, p, c) == (r, Progress(callCount, outputs, dispatched));
        case Replied(reply) =>
          if reply.content != [] {
            if reply.content[0].Some? {
              outputs := outputs + [reply.content[0].value];
            }
          } else {
            outputs := outputs + [reply.rendered];
          }
          r := Returned(reply);
          assert outputs == p.outputs + Captured(reply);
          assert Attempt(dispatch, p, c) == (r, Progress(callCount, outputs, dispatched));
      }
    }
  }

  /** `run_python_sandbox`: load the plan, run `solve()`'s calls through a
      fresh proxy, and format the result or the error. */
  method RunPythonSandbox(plan: Plan, dispatch: Dispatcher) returns (out: SandboxOutput)
    ensures out == SandboxSpec(plan, dispatch)
  {
    var mcp := new SandboxMCP(dispatch);
    if plan.execError.Some? {
      return SandboxOutput(ErrorText(plan.execError.value), mcp.outputs);
    }
    if !plan.definesSolve {
      return SandboxOutput(ErrorText(NoSolveMessage), mcp.outputs);
    }
    var i := 0;
    while i < |plan.steps|
      invariant 0 <= i <= |plan.steps|
      invariant mcp.Valid() && mcp.dispatch == dispatch
      invariant Steps(plan.steps[i..], dispatch, Progress(mcp.callCount, mcp.outputs, mcp.dispatched))
             == Steps(plan.steps, dispatch, Start)
    {
      var step := plan.steps[i];
      assert plan.steps[i..][1..] == plan.steps[i + 1..];
      var r := mcp.CallTool(step.call);
      if r.Raised? && !step.caught {
        return SandboxOutput(ErrorText(r.message), mcp.outputs);
      }
      i := i + 1;
    }
    match plan.finish {
      case Raise(m) =>
        out := SandboxOutput(ErrorText(m), mcp.outputs);
      case Return(v) =>
        out := SandboxOutput(FormatResult(v), mcp.outputs);
    }
  }
}
