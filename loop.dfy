/**
 * The agent loop (core/loop.py). A run takes up to `max_steps` steps; a
 * step makes attempts while its lifelines last (`max_lifelines_per_step`
 * of them, so one more attempt than lifelines). An attempt perceives, picks
 * tools, asks for a plan, runs a plan that defines `solve()` in the sandbox
 * and classifies the stripped result:
 *   - "FINAL_ANSWER: ..."                 the run ends with that text;
 *   - "FURTHER_PROCESSING_REQUIRED: ..."  the data is forwarded as the next
 *                                         step's input and the step ends;
 *   - "[sandbox error: ..."               a lifeline is spent;
 *   - anything else                       the run ends with it, unless the
 *                                         text mentions the forwarding
 *                                         marker, which spends a lifeline.
 * A plan without `solve()` spends a lifeline; no tools and nothing forwarded
 * ends the step. After the last step the answer is "[Max steps reached]".
 *
 * Perception, the language model, `exec` of the plan, the tool dispatcher,
 * the clock and the vector index's acceptance of a new turn are the `World`:
 * functions of the attempt's number (its `round`, counted over the whole
 * run). The pure `RunFrom` states what a run does; `AgentLoop.Run` is proved
 * to do exactly that.
 */
module Loop {
  import opened Text
  import opened Base
  import opened Memory
  import opened Action
  import opened Decision
  import opened Manager
  import Pipeline

  const FinalMarker: string := "FINAL_ANSWER:"
  const FurtherMarker: string := "FURTHER_PROCESSING_REQUIRED:"
  const SandboxErrorMarker: string := "[sandbox error:"
  const MaxStepsAnswer: string := "FINAL_ANSWER:" + " [Max steps reached]"
  const ExecutionFailed: string := "FINAL_ANSWER:" + " [Execution failed]"
  const SandboxTool: string := "solve_sandbox"

  /** The strategy settings of the agent profile the loop reads. */
  datatype Strategy = Strategy(maxSteps: int, maxLifelinesPerStep: int, planningMode: string)

  /** What the loop takes from a run: who runs it, on what, how. */
  datatype Config = Config(sessionId: string, userInput: string, strategy: Strategy)

  /** What perception reports: the intent and the tools of the selected servers. */
  datatype Perception = Perception(intent: string, tools: seq<Tool>)

  /** Everything outside the loop, as seen by the attempt numbered `round`. */
  datatype World = World(
    perceive: (nat, string) -> Perception,
    answer: (nat, string) -> Generation,
    compile: string -> Plan,
    dispatch: nat -> Dispatcher,
    clock: (nat, nat) -> real,
    vectorAccepted: bool,
    rebuildOk: bool)

  // ------------------------------------------------------------ one attempt

  /** Data forwarded by an earlier step (`if user_input_override:`). */
  predicate HasPreviousData(override: Option<string>) {
    override.Some? && override.value != ""
  }

  /** `user_input_override or user_input` */
  function EffectiveInput(userInput: string, override: Option<string>): string {
    if HasPreviousData(override) then override.value else userInput
  }

  function ForwardInstructions(): string {
    "IMPORTANT INSTRUCTIONS:\n"
    + "1. If the above data fully answers "
    + "the user's task, synthesize and return:\n"
    + "   async def solve():\n"
    + "       return \"FINAL_ANSWER: "
    + "[your synthesized answer based on "
    + "the data above]\"\n\n"
    + "2. If you need to PROCESS this data "
    + "further (calculate, transform, etc.), "
    + "call a DIFFERENT tool.\n"
    + "3. DO NOT call the same search/fetch "
    + "tool again - you already have the data above.\n"
  }

  const ForwardHead: string := "Original user task: "
  const ForwardLead: string :=
    "\n\nPrevious tool call result (already "
    + "fetched - DO NOT call the same tool again):\n\n"

  /** The next step's input after a FURTHER_PROCESSING_REQUIRED result. */
  function ForwardPrompt(userInput: string, content: string): string {
    ForwardHead + userInput + ForwardLead + content + "\n\n" + ForwardInstructions()
  }

  /** The forwarded input names the original task and carries the data. */
  lemma ForwardCarriesData(userInput: string, content: string)
    ensures StartsWith(ForwardPrompt(userInput, content), ForwardHead + userInput)
    ensures Contains(ForwardPrompt(userInput, content), content)
    ensures HasPreviousData(Some(ForwardPrompt(userInput, content)))
  {
    hide ForwardInstructions;
    var head := ForwardHead + userInput;
    var tail := "\n\n" + ForwardInstructions();
    var p := ForwardPrompt(userInput, content);
    assert p == (head + ForwardLead) + (content + tail);
    PrefixStartsWith(head, ForwardLead + (content + tail));
    assert head + (ForwardLead + (content + tail)) == p;
    assert OccursAt(content + tail, content, 0) by {
      assert (content + tail)[0..|content|] == content;
    }
    ContainsAt(content + tail, content, 0);
    ContainsShift(head + ForwardLead, content + tail, content);
  }

  /** The record of the sandbox run kept for the conversation turn. */
  function SandboxExec(plan: string, result: string, start: real): ToolExecution {
    ToolExecution(SandboxTool, [("plan", Take(plan, 200))], Take(result, 200), true, start)
  }

  /** The memory item `add_tool_output` writes for a sandbox run. */
  function SandboxItem(plan: string, result: string, success: bool, now: real): MemoryItem {
    ToolOutputItem(now, SandboxTool, [("plan", plan)], [("result", result)], success, ["sandbox"])
  }

  /** `_capture_conversation_turn`: the turn recorded when a run answers. */
  function CapturedTurn(cfg: Config, tools: seq<ToolExecution>, step: int, plan: string,
                        answer: string, now: real): ConversationTurn {
    ConversationTurn(
      CreateTurnId(cfg.sessionId, step), cfg.sessionId, now, cfg.userInput,
      if plan != "" then Some(Take(plan, 500)) else None,
      tools, [], answer, step, ["completed"],
      map["max_steps" := VInt(cfg.strategy.maxSteps), "planning_mode" := VStr(cfg.strategy.planningMode)])
  }

  /** How one attempt ends. */
  datatype RoundOutcome =
    | NoTools
    | InvalidPlan(plan: string)
    | Forward(plan: string, result: string, override: string)
    | Retry(plan: string, result: string, finalAnswer: string, item: MemoryItem)
    | Answer(plan: string, result: string, finalAnswer: string, item: MemoryItem, exec: ToolExecution)

  /** The memory items an attempt adds. */
  function ItemsOf(o: RoundOutcome): seq<MemoryItem> {
    if o.Retry? || o.Answer? then [o.item] else []
  }

  /** The override after an attempt: forwarded data replaces it. */
  function OverrideAfter(o: RoundOutcome, override: Option<string>): Option<string> {
    if o.Forward? then Some(o.override) else override
  }

  /** The final answer after an attempt: a retry or an answer records one. */
  function FinalAfter(o: RoundOutcome, final: Option<string>): Option<string> {
    if o.Retry? || o.Answer? then Some(o.finalAnswer) else final
  }

  /** The executions tracked for the turn: an answer adds the sandbox run. */
  function ToolsAfter(o: RoundOutcome, done: seq<ToolExecution>): seq<ToolExecution> {
    if o.Answer? then done + [o.exec] else done
  }

  lemma StartsWithContains(s: string, prefix: string)
    requires StartsWith(s, prefix)
    ensures Contains(s, prefix)
  {
    assert s[0..|prefix|] == s[..|prefix|];
    ContainsAt(s, prefix, 0);
  }

  lemma PrefixStartsWith(a: string, b: string)
    ensures StartsWith(a + b, a)
  {
    assert (a + b)[..|a|] == a;
  }

  /** The sandbox's result for the attempt, stripped. The result heuristics
      hand it back unchanged (`Manager.HeuristicManager.ProcessResult`). */
  function SandboxResult(w: World, plan: string, round: nat): string {
    Strip(SandboxSpec(w.compile(plan), w.dispatch(round)).result)
  }

  /** A retry or an answer writes a sandbox tool output to memory; an answer
      is a FINAL_ANSWER and its output a success. */
  predicate SandboxRecorded(o: RoundOutcome) {
    && (o.Retry? || o.Answer? ==> o.item.kind == ToolOutput && o.item.toolName == Some(SandboxTool))
    && (o.Answer? ==> StartsWith(o.finalAnswer, FinalMarker) && o.item.success == Some(true))
  }

  /** The outcome of running `plan`, which gave `result` between `start` and
      `now`: it forwards, retries or answers, keeps the plan and the result,
      stamps its memory item with `now` and an answer records the execution. */
  predicate FromSandbox(o: RoundOutcome, plan: string, result: string, start: real, now: real) {
    && (o.Forward? || o.Retry? || o.Answer?)
    && o.plan == plan && o.result == result
    && (o.Retry? || o.Answer? ==> o.item.timestamp == now)
    && (o.Answer? ==> o.exec == SandboxExec(plan, result, start))
  }

  /** The classification of a stripped sandbox result for a plan that ran:
      every answer is a FINAL_ANSWER and succeeded, and every memory item is
      the sandbox's tool output. */
  function Classify(userInput: string, plan: string, result: string, start: real, now: real): (o: RoundOutcome)
    ensures SandboxRecorded(o) && FromSandbox(o, plan, result, start, now)
  {
    hide ForwardPrompt, Strip, PieceAfterFirst, Contains, SandboxExec;
    if StartsWith(result, FinalMarker) then
      Answer(plan, result, result, SandboxItem(plan, result, true, now), SandboxExec(plan, result, start))
    else if StartsWith(result, FurtherMarker) then
      StartsWithContains(result, FurtherMarker);
      Forward(plan, result, ForwardPrompt(userInput, Strip(PieceAfterFirst(result, FurtherMarker))))
    else
      var success := !StartsWith(result, SandboxErrorMarker);
      var answer := if success then FinalMarker + " " + result else ExecutionFailed;
      var item := SandboxItem(plan, result, success, now);
      PrefixStartsWith(FinalMarker, " " + result);
      if success && !Contains(result, FurtherMarker) then
        Answer(plan, result, answer, item, SandboxExec(plan, result, start))
      else Retry(plan, result, answer, item)
  }

  /** One pass through the body of the lifeline loop. The tool heuristics
      only reorder the tools, so whether any are left does not depend on them. */
  function Round(w: World, userInput: string, override: Option<string>, round: nat): (o: RoundOutcome)
    ensures SandboxRecorded(o)
  {
    hide GeneratePlan, HasSolveDef, SandboxResult, Classify;
    var input := EffectiveInput(userInput, override);
    if w.perceive(round, input).tools == [] && !HasPreviousData(override) then NoTools
    else
      var plan := GeneratePlan(w.answer(round, input));
      if !HasSolveDef(plan) then InvalidPlan(plan)
      else Classify(userInput, plan, SandboxResult(w, plan, round), w.clock(round, 0), w.clock(round, 1))
  }

  /** Tools were found, or earlier data lets the planner synthesise. */
  predicate CanPlan(w: World, userInput: string, override: Option<string>, round: nat) {
    w.perceive(round, EffectiveInput(userInput, override)).tools != [] || HasPreviousData(override)
  }

  /** An attempt is refused for its plan exactly when planning was possible
      and the model failed or its normalised answer defines no `solve()`;
      the refused plan is then one of the two fallbacks, never run. */
  lemma InvalidPlansAreFallbacks(w: World, userInput: string, override: Option<string>, round: nat)
    ensures var o := Round(w, userInput, override, round);
      var g := w.answer(round, EffectiveInput(userInput, override));
      && (o.InvalidPlan? <==>
            CanPlan(w, userInput, override, round)
            && (g.GenerationFailed? || !HasSolveDef(NormalizePlan(g.text))))
      && (o.InvalidPlan? ==> o.plan == NoSolvePlan || o.plan == UnknownPlan)
  {
    hide Classify;
    FallbacksFailGate();
  }

  /** After a FURTHER_PROCESSING_REQUIRED result the next attempt is never
      abandoned for lack of tools: it may synthesise from the forwarded data. */
  lemma ForwardEnablesSynthesis(w: World, userInput: string, content: string, round: nat)
    ensures Round(w, userInput, Some(ForwardPrompt(userInput, content)), round) != NoTools
  {
    hide Classify, GeneratePlan, HasSolveDef, SandboxResult, ForwardPrompt;
    ForwardCarriesData(userInput, content);
  }

  /** A plan whose sandbox run fails spends a lifeline with
      "[Execution failed]" and records an unsuccessful tool output. */
  lemma SandboxErrorRetries(w: World, userInput: string, override: Option<string>, round: nat, m: string)
    requires CanPlan(w, userInput, override, round)
    requires HasSolveDef(GeneratePlan(w.answer(round, EffectiveInput(userInput, override))))
    requires var plan := GeneratePlan(w.answer(round, EffectiveInput(userInput, override)));
      SandboxSpec(w.compile(plan), w.dispatch(round)).result == ErrorText(m)
    ensures var o := Round(w, userInput, override, round);
      o.Retry? && o.finalAnswer == ExecutionFailed && o.item.success == Some(false)
  {
    hide ForwardPrompt, GeneratePlan, HasSolveDef, SandboxSpec, PieceAfterFirst, Contains;
    hide ErrorText, StartsWith, Strip;
    var plan := GeneratePlan(w.answer(round, EffectiveInput(userInput, override)));
    ErrorTextClassified(m);
    assert SandboxResult(w, plan, round) == ErrorText(m);
    assert Round(w, userInput, override, round)
        == Classify(userInput, plan, ErrorText(m), w.clock(round, 0), w.clock(round, 1));
  }

  lemma ErrorTextClassified(m: string)
    ensures var x := ErrorText(m);
      && Strip(x) == x && StartsWith(x, SandboxErrorMarker)
      && !StartsWith(x, FinalMarker) && !StartsWith(x, FurtherMarker)
  {
    var x := ErrorText(m);
    ErrorTextEnds(m);
    hide ErrorText;
    assert !IsSpace('[') && !IsSpace(']');
    StripUnpadded(x);
    assert FinalMarker[0] == 'F' && FurtherMarker[0] == 'F';
  }

  lemma ErrorTextEnds(m: string)
    ensures var x := ErrorText(m);
      && x != [] && x[0] == '[' && x[|x| - 1] == ']' && StartsWith(x, SandboxErrorMarker)
  {
    var x := ErrorText(m);
    assert x == SandboxErrorMarker + (" " + m + "]");
    PrefixStartsWith(SandboxErrorMarker, " " + m + "]");
  }

  // ---------------------------------------------------------------- a run

  /** What a run returns and leaves behind. */
  datatype RunResult = RunResult(
    answer: string,
    items: seq<MemoryItem>,
    turn: Option<ConversationTurn>,
    override: Option<string>,
    rounds: nat)

  /** The rest of a run from `step` with `lifelines` left, `round` attempts
      made so far, `items` added to memory so far and `done` the tool
      executions already tracked for the turn. */
  function RunFrom(cfg: Config, w: World, done: seq<ToolExecution>, step: int, lifelines: int,
                   override: Option<string>, round: nat, items: seq<MemoryItem>): RunResult
    decreases cfg.strategy.maxSteps - step, lifelines + 1
  {
    var lives := cfg.strategy.maxLifelinesPerStep;
    if step >= cfg.strategy.maxSteps then RunResult(MaxStepsAnswer, items, None, override, round)
    else if lifelines < 0 then RunFrom(cfg, w, done, step + 1, lives, override, round, items)
    else match Round(w, cfg.userInput, override, round)
      case NoTools => RunFrom(cfg, w, done, step + 1, lives, override, round + 1, items)
      case InvalidPlan(_) => RunFrom(cfg, w, done, step, lifelines - 1, override, round + 1, items)
      case Forward(_, _, next) => RunFrom(cfg, w, done, step + 1, lives, Some(next), round + 1, items)
      case Retry(_, _, _, item) => RunFrom(cfg, w, done, step, lifelines - 1, override, round + 1, items + [item])
      case Answer(plan, _, answer, item, exec) =>
        RunResult(answer, items + [item], Some(CapturedTurn(cfg, done + [exec], step, plan, answer, w.clock(round, 2))),
                  override, round + 1)
  }

  /** A whole run, from the first step with a full set of lifelines. */
  function RunSpec(cfg: Config, w: World, done: seq<ToolExecution>, override: Option<string>): RunResult {
    RunFrom(cfg, w, done, 0, cfg.strategy.maxLifelinesPerStep, override, 0, [])
  }

  /** A run from `step` with `done` tracked executions ends in a FINAL_ANSWER;
      without a captured turn it is the max-steps answer, with one the turn
      records that answer for a step of the run and one execution more. */
  predicate Concluded(cfg: Config, done: seq<ToolExecution>, step: int, r: RunResult) {
    && StartsWith(r.answer, FinalMarker)
    && (r.turn.None? ==> r.answer == MaxStepsAnswer)
    && (r.turn.Some? ==>
          && r.turn.value.finalAnswer == r.answer
          && step <= r.turn.value.stepNumber < cfg.strategy.maxSteps
          && r.turn.value.turnId == CreateTurnId(cfg.sessionId, r.turn.value.stepNumber)
          && |r.turn.value.toolsExecuted| == |done| + 1
          && r.turn.value.toolsExecuted[..|done|] == done)
  }

  /** `after` is `before` followed by sandbox tool outputs only. */
  predicate SandboxOutputsAdded(before: seq<MemoryItem>, after: seq<MemoryItem>) {
    && |before| <= |after| && after[..|before|] == before
    && forall i :: |before| <= i < |after| ==>
         after[i].kind == ToolOutput && after[i].toolName == Some(SandboxTool)
  }

  /** Every answer is a FINAL_ANSWER; without a captured turn it is the
      max-steps answer, with one the turn records it for a step of the run. */
  lemma {:induction false} RunAnswers(cfg: Config, w: World, done: seq<ToolExecution>, step: int, lifelines: int,
                                      override: Option<string>, round: nat, items: seq<MemoryItem>)
    ensures Concluded(cfg, done, step, RunFrom(cfg, w, done, step, lifelines, override, round, items))
    decreases cfg.strategy.maxSteps - step, lifelines + 1
  {
    hide Round;
    var lives := cfg.strategy.maxLifelinesPerStep;
    if step >= cfg.strategy.maxSteps {
      PrefixStartsWith("FINAL_ANSWER:", " [Max steps reached]");
    } else if lifelines < 0 {
      RunAnswers(cfg, w, done, step + 1, lives, override, round, items);
    } else {
      match Round(w, cfg.userInput, override, round)
      case NoTools =>
        RunAnswers(cfg, w, done, step + 1, lives, override, round + 1, items);
      case InvalidPlan(_) =>
        RunAnswers(cfg, w, done, step, lifelines - 1, override, round + 1, items);
      case Forward(_, _, next) =>
        RunAnswers(cfg, w, done, step + 1, lives, Some(next), round + 1, items);
      case Retry(_, _, _, item) =>
        RunAnswers(cfg, w, done, step, lifelines - 1, override, round + 1, items + [item]);
      case Answer(plan, result, answer, item, exec) =>
        assert (done + [exec])[..|done|] == done;
    }
  }

  /** Memory only gains items during a run, each a sandbox output, and at
      most one per attempt. */
  lemma {:induction false} RunItems(cfg: Config, w: World, done: seq<ToolExecution>, step: int, lifelines: int,
                                    override: Option<string>, round: nat, items: seq<MemoryItem>)
    ensures var r := RunFrom(cfg, w, done, step, lifelines, override, round, items);
      SandboxOutputsAdded(items, r.items) && |r.items| - |items| <= r.rounds - round
    decreases cfg.strategy.maxSteps - step, lifelines + 1
  {
    hide Round, CapturedTurn;
    var lives := cfg.strategy.maxLifelinesPerStep;
    if step < cfg.strategy.maxSteps {
      if lifelines < 0 {
        RunItems(cfg, w, done, step + 1, lives, override, round, items);
      } else {
        match Round(w, cfg.userInput, override, round)
        case NoTools =>
          RunItems(cfg, w, done, step + 1, lives, override, round + 1, items);
        case InvalidPlan(_) =>
          RunItems(cfg, w, done, step, lifelines - 1, override, round + 1, items);
        case Forward(_, _, next) =>
          RunItems(cfg, w, done, step + 1, lives, Some(next), round + 1, items);
        case Retry(_, _, _, item) =>
          RunItems(cfg, w, done, step, lifelines - 1, override, round + 1, items + [item]);
          var r := RunFrom(cfg, w, done, step, lifelines - 1, override, round + 1, items + [item]);
          assert r.items[..|items| + 1][..|items|] == r.items[..|items|];
        case Answer(_, _, _, _, _) =>
      }
    }
  }

  function Max0(n: int): nat {
    if n < 0 then 0 else n
  }

  /** Attempts a step may make: one per lifeline and one more. */
  function PerStep(cfg: Config): nat {
    Max0(cfg.strategy.maxLifelinesPerStep + 1)
  }

  /** The attempts left from `step` with `lifelines` left: what the current
      step can still make plus a full step's worth for every later step. */
  function Budget(cfg: Config, step: int, lifelines: int): nat {
    var later := cfg.strategy.maxSteps - step - 1;
    if later < 0 then 0 else Max0(lifelines + 1) + later * PerStep(cfg)
  }

  /** Moving on to the next step gives up what the current step had left. */
  lemma BudgetNextStep(cfg: Config, step: int, lifelines: int)
    requires step < cfg.strategy.maxSteps
    ensures Budget(cfg, step + 1, cfg.strategy.maxLifelinesPerStep) + Max0(lifelines + 1) == Budget(cfg, step, lifelines)
  {
    var later := cfg.strategy.maxSteps - step - 1;
    if later > 0 {
      assert later * PerStep(cfg) == PerStep(cfg) + (later - 1) * PerStep(cfg);
    }
  }

  /** The rest of a run makes no more attempts than its budget. */
  lemma {:induction false} RoundsBounded(cfg: Config, w: World, done: seq<ToolExecution>, step: int, lifelines: int,
                                         override: Option<string>, round: nat, items: seq<MemoryItem>)
    ensures RunFrom(cfg, w, done, step, lifelines, override, round, items).rounds <= round + Budget(cfg, step, lifelines)
    decreases cfg.strategy.maxSteps - step, lifelines + 1
  {
    hide Round;
    var lives := cfg.strategy.maxLifelinesPerStep;
    if step < cfg.strategy.maxSteps {
      BudgetNextStep(cfg, step, lifelines);
      if lifelines < 0 {
        RoundsBounded(cfg, w, done, step + 1, lives, override, round, items);
      } else {
        match Round(w, cfg.userInput, override, round)
        case NoTools =>
          RoundsBounded(cfg, w, done, step + 1, lives, override, round + 1, items);
        case InvalidPlan(_) =>
          RoundsBounded(cfg, w, done, step, lifelines - 1, override, round + 1, items);
        case Forward(_, _, next) =>
          RoundsBounded(cfg, w, done, step + 1, lives, Some(next), round + 1, items);
        case Retry(_, _, _, item) =>
          RoundsBounded(cfg, w, done, step, lifelines - 1, override, round + 1, items + [item]);
        case Answer(_, _, _, _, _) =>
      }
    }
  }

  /** A run makes at most `max_steps * (max_lifelines_per_step + 1)`
      attempts, and none when either setting leaves no room. */
  lemma RunWithinBudget(cfg: Config, w: World, done: seq<ToolExecution>, override: Option<string>)
    ensures RunSpec(cfg, w, done, override).rounds <= Max0(cfg.strategy.maxSteps) * PerStep(cfg)
  {
    hide Round, RunFrom;
    RoundsBounded(cfg, w, done, 0, cfg.strategy.maxLifelinesPerStep, override, 0, []);
    var n := cfg.strategy.maxSteps;
    if n > 0 {
      assert n * PerStep(cfg) == PerStep(cfg) + (n - 1) * PerStep(cfg);
    }
  }

  /** Forwarding data on the last step ends the run without an answer. */
  lemma {:induction false} ForwardOnLastStep(cfg: Config, w: World, done: seq<ToolExecution>, lifelines: int,
                                             override: Option<string>, round: nat, items: seq<MemoryItem>)
    requires 0 <= lifelines
    requires Round(w, cfg.userInput, override, round).Forward?
    ensures RunFrom(cfg, w, done, cfg.strategy.maxSteps - 1, lifelines, override, round, items).answer == MaxStepsAnswer
  {
    hide Round;
    var next := Round(w, cfg.userInput, override, round).override;
    var lives := cfg.strategy.maxLifelinesPerStep;
    assert RunFrom(cfg, w, done, cfg.strategy.maxSteps - 1, lifelines, override, round, items)
        == RunFrom(cfg, w, done, cfg.strategy.maxSteps, lives, Some(next), round + 1, items);
  }

  // ------------------------------------------------------ the index effect

  /** The conversation index's state. */
  datatype IndexState = IndexState(
    history: seq<ConversationTurn>,
    vectors: seq<string>,
    metadataFile: Stored<seq<ConversationTurn>>,
    indexFile: Stored<seq<string>>)

  function Snapshot(index: ConversationIndex): IndexState
    reads index
  {
    IndexState(index.history, index.vectors, index.metadataFile, index.indexFile)
  }

  /** The index after `add_conversation_turn` (see
      `Memory.ConversationIndex.AddConversationTurn`). */
  function AfterCapture(useVectors: bool, s: IndexState, turn: ConversationTurn, accepted: bool, ok: bool): IndexState {
    if !useVectors || !accepted then s
    else
      var h := s.history + [turn];
      var v := VectorsAfterAdd(s.history, s.vectors, turn, ok);
      IndexState(h, v, Present(h), Present(v))
  }

  /** The index after an attempt of `step`: an answer captures the turn. */
  function IndexAfter(o: RoundOutcome, cfg: Config, w: World, useVectors: bool, s: IndexState,
                      done: seq<ToolExecution>, step: int, round: nat): IndexState {
    if o.Answer? then
      AfterCapture(useVectors, s, CapturedTurn(cfg, done + [o.exec], step, o.plan, o.finalAnswer, w.clock(round, 2)),
                   w.vectorAccepted, w.rebuildOk)
    else s
  }

  /** The executions tracked once a run ends: those of its captured turn, if any. */
  function TrackedAfterRun(r: RunResult, done: seq<ToolExecution>): seq<ToolExecution> {
    if r.turn.Some? then r.turn.value.toolsExecuted else done
  }

  /** The index once a run ends: its captured turn, if any, is added. */
  function IndexAfterRun(r: RunResult, w: World, useVectors: bool, s: IndexState): IndexState {
    if r.turn.Some? then AfterCapture(useVectors, s, r.turn.value, w.vectorAccepted, w.rebuildOk) else s
  }

  // --------------------------------------------------------- the agent loop

  class AgentLoop {
    const sessionId: string
    const userInput: string
    const strategy: Strategy
    const memory: MemoryManager
    const index: ConversationIndex
    const heuristics: HeuristicManager?
    const world: World
    /** The context's `user_input_override` and `final_answer`, and the
        tool executions tracked for the conversation turn. */
    var userInputOverride: Option<string>
    var finalAnswer: Option<string>
    var currentTurnTools: seq<ToolExecution>

    function Cfg(): Config {
      Config(sessionId, userInput, strategy)
    }

    /** The heuristic instances the tool and result pipelines may update. */
    ghost function Touched(): set<Pipeline.Heuristic>
      reads if heuristics != null then {heuristics.toolPipeline, heuristics.resultPipeline} else {}
    {
      if heuristics == null then {}
      else (set h | h in heuristics.toolPipeline.heuristics) + (set h | h in heuristics.resultPipeline.heuristics)
    }

    ghost predicate Ready()
      reads memory, index
    {
      memory.Valid() && index.Valid()
    }

    constructor(sessionId: string, userInput: string, strategy: Strategy, memory: MemoryManager,
                index: ConversationIndex, heuristics: HeuristicManager?, world: World)
      ensures this.sessionId == sessionId && this.userInput == userInput && this.strategy == strategy
      ensures this.memory == memory && this.index == index && this.heuristics == heuristics && this.world == world
      ensures userInputOverride == None && finalAnswer == None && currentTurnTools == []
    {
      this.sessionId := sessionId;
      this.userInput := userInput;
      this.strategy := strategy;
      this.memory := memory;
      this.index := index;
      this.heuristics := heuristics;
      this.world := world;
      userInputOverride := None;
      finalAnswer := None;
      currentTurnTools := [];
    }

    /** `_capture_conversation_turn` */
    method CaptureConversationTurn(step: int, plan: string, result: string, now: real)
      requires index.Valid()
      modifies index
      ensures index.Valid()
      ensures Snapshot(index) == AfterCapture(index.useVectors, old(Snapshot(index)),
                                              CapturedTurn(Cfg(), currentTurnTools, step, plan, result, now),
                                              world.vectorAccepted, world.rebuildOk)
    {
      var turn := CapturedTurn(Cfg(), currentTurnTools, step, plan, result, now);
      index.AddConversationTurn(turn, world.vectorAccepted, world.rebuildOk);
    }

    /** What happens once the sandbox has answered (`Classify`): the
        answer is recorded, the tool output written to memory, the turn
        captured, or the data forwarded. */
    method Settle(step: int, round: nat, plan: string, result: string, start: real, now: real)
      returns (o: RoundOutcome)
      requires Ready()
      modifies this, memory, index
      ensures Ready()
      ensures memory.items == old(memory.items) + ItemsOf(o)
      ensures userInputOverride == OverrideAfter(o, old(userInputOverride))
      ensures finalAnswer == FinalAfter(o, old(finalAnswer))
      ensures currentTurnTools == ToolsAfter(o, old(currentTurnTools))
      ensures Snapshot(index) == IndexAfter(o, Cfg(), world, index.useVectors, old(Snapshot(index)), old(currentTurnTools), step, round)
      ensures o == Classify(userInput, plan, result, start, now)
    {
      hide ForwardPrompt, CapturedTurn;
      if StartsWith(result, FinalMarker) {
        finalAnswer := Some(result);
        var exec := SandboxExec(plan, result, start);
        currentTurnTools := currentTurnTools + [exec];
        memory.AddToolOutput(SandboxTool, [("plan", plan)], [("result", result)], true, ["sandbox"], now);
        CaptureConversationTurn(step, plan, result, world.clock(round, 2));
        return Answer(plan, result, result, SandboxItem(plan, result, true, now), exec);
      } else if StartsWith(result, FurtherMarker) {
        StartsWithContains(result, FurtherMarker);
        var content := Strip(PieceAfterFirst(result, FurtherMarker));
        userInputOverride := Some(ForwardPrompt(userInput, content));
        return Forward(plan, result, ForwardPrompt(userInput, content));
      }
      var success: bool;
      var answer: string;
      if StartsWith(result, SandboxErrorMarker) {
        success := false;
        answer := ExecutionFailed;
      } else {
        success := true;
        answer := FinalMarker + " " + result;
      }
      finalAnswer := Some(answer);
      memory.AddToolOutput(SandboxTool, [("plan", plan)], [("result", result)], success, ["sandbox"], now);
      var item := SandboxItem(plan, result, success, now);
      if success && !Contains(result, FurtherMarker) {
        var exec := SandboxExec(plan, result, start);
        currentTurnTools := currentTurnTools + [exec];
        CaptureConversationTurn(step, plan, answer, world.clock(round, 2));
        return Answer(plan, result, answer, item, exec);
      }
      return Retry(plan, result, answer, item);
    }

    /** The tool heuristics (`process_tools`), applied when there are
        heuristics and tools: the same tools, possibly reordered. */
    method SelectTools(tools: seq<Tool>, ctx: Context) returns (selected: seq<Tool>)
      requires heuristics != null ==> heuristics.Valid()
      modifies Touched()
      ensures heuristics != null ==> heuristics.Valid()
      ensures multiset(selected) == multiset(tools)
      ensures selected == [] <==> tools == []
    {
      hide HeuristicManager.Valid;
      selected := tools;
      if heuristics != null && tools != [] {
        var processed, md, results := heuristics.ProcessTools(tools, ctx);
        selected := processed.tools;
        assert |multiset(selected)| == |selected|;
      }
    }

    /** The result heuristics (`process_result`), applied when there are
        heuristics: advisory, the result comes back unchanged. */
    method ValidateResult(result: string, ctx: Context) returns (validated: string)
      requires heuristics != null ==> heuristics.Valid()
      modifies Touched()
      ensures heuristics != null ==> heuristics.Valid()
      ensures validated == result
    {
      validated := result;
      if heuristics != null {
        var out, md, results := heuristics.ProcessResult(Str(result), ctx);
        validated := out.s;
      }
    }

    /** A plan that passed the `solve()` gate: run it in the sandbox, let the
        result heuristics see the result, and settle the attempt on it. */
    method RunPlan(step: int, round: nat, plan: string) returns (o: RoundOutcome)
      requires Ready() && (heuristics != null ==> heuristics.Valid())
      modifies this, memory, index, Touched()
      ensures Ready() && (heuristics != null ==> heuristics.Valid())
      ensures memory.items == old(memory.items) + ItemsOf(o)
      ensures userInputOverride == OverrideAfter(o, old(userInputOverride))
      ensures finalAnswer == FinalAfter(o, old(finalAnswer))
      ensures currentTurnTools == ToolsAfter(o, old(currentTurnTools))
      ensures Snapshot(index) == IndexAfter(o, Cfg(), world, index.useVectors, old(Snapshot(index)), old(currentTurnTools), step, round)
      ensures o == Classify(userInput, plan, SandboxResult(world, plan, round), world.clock(round, 0), world.clock(round, 1))
    {
      hide Classify, SandboxSpec, CapturedTurn, AfterCapture, Strip, ItemsOf, ForwardPrompt, SandboxExec, SandboxItem;
      hide HeuristicManager.Valid, Ready, Snapshot, OverrideAfter, FinalAfter, ToolsAfter, IndexAfter;
      var start := world.clock(round, 0);
      var sandbox := RunPythonSandbox(world.compile(plan), world.dispatch(round));
      var result := sandbox.result;
      result := ValidateResult(result, Context(None, None, Some(sessionId), Some(step), None, Some(sandbox.toolOutputs)));
      o := Settle(step, round, plan, Strip(result), start, world.clock(round, 1));
    }

    /** One pass through the body of the lifeline loop of `run`. */
    method Attempt(step: int, round: nat) returns (o: RoundOutcome)
      requires Ready() && (heuristics != null ==> heuristics.Valid())
      modifies this, memory, index, Touched()
      ensures Ready() && (heuristics != null ==> heuristics.Valid())
      ensures memory.items == old(memory.items) + ItemsOf(o)
      ensures userInputOverride == OverrideAfter(o, old(userInputOverride))
      ensures finalAnswer == FinalAfter(o, old(finalAnswer))
      ensures currentTurnTools == ToolsAfter(o, old(currentTurnTools))
      ensures Snapshot(index) == IndexAfter(o, Cfg(), world, index.useVectors, old(Snapshot(index)), old(currentTurnTools), step, round)
      ensures o == Round(world, userInput, old(userInputOverride), round)
    {
      hide Classify, GeneratePlan, HasSolveDef, SandboxSpec, CapturedTurn, AfterCapture, Strip;
      var input := EffectiveInput(userInput, userInputOverride);
      var perception := world.perceive(round, input);
      var tools := perception.tools;
      tools := SelectTools(tools, Context(Some(perception.intent), None, Some(sessionId), Some(step), None, None));
      if tools == [] && !HasPreviousData(userInputOverride) {
        return NoTools;
      }
      var plan := GeneratePlan(world.answer(round, input));
      if !HasSolveDef(plan) {
        return InvalidPlan(plan);
      }
      o := RunPlan(step, round, plan);
    }

    /** `run`: the steps, each with its lifeline loop, then the max-steps
        answer. The run does what `RunSpec` says: the same answer, the same
        memory items, the same forwarded input, and the captured turn added
        to the conversation index when it answers. */
    method Run() returns (status: string, result: string)
      requires Ready() && (heuristics != null ==> heuristics.Valid())
      modifies this, memory, index, Touched()
      ensures Ready() && (heuristics != null ==> heuristics.Valid())
      ensures var r := RunSpec(Cfg(), world, old(currentTurnTools), old(userInputOverride));
        && status == "done" && result == r.answer && finalAnswer == Some(r.answer)
        && memory.items == old(memory.items) + r.items
        && userInputOverride == r.override
        && currentTurnTools == TrackedAfterRun(r, old(currentTurnTools))
        && Snapshot(index) == IndexAfterRun(r, world, index.useVectors, old(Snapshot(index)))
    {
      hide Round, AfterCapture, Ready, HeuristicManager.Valid, Snapshot;
      ghost var whole := RunSpec(Cfg(), world, currentTurnTools, userInputOverride);
      ghost var done := currentTurnTools;
      ghost var added: seq<MemoryItem> := [];
      var lives := strategy.maxLifelinesPerStep;
      var round: nat := 0;
      var step := 0;
      while step < strategy.maxSteps
        invariant Ready() && (heuristics != null ==> heuristics.Valid())
        invariant memory.items == old(memory.items) + added
        invariant currentTurnTools == done && Snapshot(index) == old(Snapshot(index))
        invariant RunFrom(Cfg(), world, done, step, lives, userInputOverride, round, added) == whole
        decreases strategy.maxSteps - step
      {
        var lifelines := lives;
        while lifelines >= 0
          invariant Ready() && (heuristics != null ==> heuristics.Valid())
          invariant memory.items == old(memory.items) + added
          invariant currentTurnTools == done && Snapshot(index) == old(Snapshot(index))
          invariant RunFrom(Cfg(), world, done, step, lifelines, userInputOverride, round, added) == whole
          decreases lifelines + 1
        {
          var o := Attempt(step, round);
          round := round + 1;
          match o
          case NoTools =>
            break;
          case InvalidPlan(_) =>
            lifelines := lifelines - 1;
          case Forward(_, _, _) =>
            break;
          case Retry(_, _, _, item) =>
            added := added + [item];
            lifelines := lifelines - 1;
          case Answer(_, _, answer, _, _) =>
            return "done", answer;
        }
        step := step + 1;
      }
      finalAnswer := Some(MaxStepsAnswer);
      return "done", MaxStepsAnswer;
    }
  }
}
