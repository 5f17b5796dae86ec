/**
 * Planning (modules/decision.py): the text pieces the planning prompt is
 * built from, and the normalisation of the language model's answer into a
 * plan: a fenced code block is unwrapped, and an answer that does not define
 * `solve()` is replaced by a FINAL_ANSWER fallback.
 *
 * The prompt template file and the language model are not modelled; the
 * model's answer (or its failure) is a parameter.
 */
module Decision {
  import opened Text
  import opened Base
  import opened Memory

  // ------------------------------------------------------- prompt pieces

  /** The memory section: one "- text" line per item, or "None". */
  function MemoryTexts(items: seq<MemoryItem>): string {
    var joined := Join(seq(|items|, i requires 0 <= i < |items| => "- " + items[i].text), "\n");
    if joined == "" then "None" else joined
  }

  /** The memory section reads "None" exactly when there are no items. */
  lemma MemoryTextsNone(items: seq<MemoryItem>)
    ensures MemoryTexts(items) == "None" <==> items == []
  {
    if items != [] {
      var lines := seq(|items|, i requires 0 <= i < |items| => "- " + items[i].text);
      JoinHead(lines, "\n");
      assert Join(lines, "\n")[0] == '-';
    }
  }

  const HistoryHeader: seq<string> := [
    "\U{1F4DA} Relevant Past Conversations (for context):",
    "The following past conversations may provide useful context or approaches:",
    ""]

  const HistoryFooter: seq<string> := [
    "\U{1F4A1} Use this context to inform your approach, but always solve the current query directly.",
    ""]

  function ToolsUsed(t: ConversationTurn): string {
    if t.toolsExecuted != [] then Join(ExecNames(t.toolsExecuted), ", ") else "No tools"
  }

  function QueryLine(t: ConversationTurn): string {
    "\U{1F539} Past Query: \"" + t.userQuery + "\""
  }

  /** The five lines for one past turn; `fmt` prints the similarity with two
      decimals. */
  function TurnBlock(t: ConversationTurn, similarity: real, fmt: real -> string): seq<string> {
    [QueryLine(t),
     "   Tools Used: " + ToolsUsed(t),
     "   Result: " + Take(t.finalAnswer, 150) + "...",
     "   (Similarity: " + fmt(similarity) + ")",
     ""]
  }

  function Blocks(relevant: seq<(ConversationTurn, real)>, fmt: real -> string): seq<string>
    decreases |relevant|
  {
    if relevant == [] then []
    else TurnBlock(relevant[0].0, relevant[0].1, fmt) + Blocks(relevant[1..], fmt)
  }

  /** `format_conversation_history`: nothing without relevant turns,
      otherwise a header, one block per turn and a closing hint. */
  function FormatConversationHistory(relevant: seq<(ConversationTurn, real)>, fmt: real -> string): string {
    if relevant == [] then ""
    else Join(HistoryLines(relevant, fmt), "\n")
  }

  /** Each turn takes five lines, the first quoting its query. */
  lemma {:induction false} BlocksAt(relevant: seq<(ConversationTurn, real)>, fmt: real -> string, k: nat)
    requires k < |relevant|
    ensures |Blocks(relevant, fmt)| >= 5 * k + 5
    ensures Blocks(relevant, fmt)[5 * k] == QueryLine(relevant[k].0)
    decreases k
  {
    var b := Blocks(relevant, fmt);
    var head := TurnBlock(relevant[0].0, relevant[0].1, fmt);
    assert b == head + Blocks(relevant[1..], fmt);
    if k > 0 {
      BlocksAt(relevant[1..], fmt, k - 1);
      assert b[5 * k] == Blocks(relevant[1..], fmt)[5 * (k - 1)];
    }
  }

  function HistoryLines(relevant: seq<(ConversationTurn, real)>, fmt: real -> string): seq<string> {
    HistoryHeader + Blocks(relevant, fmt) + HistoryFooter
  }

  lemma HistoryLineAt(relevant: seq<(ConversationTurn, real)>, fmt: real -> string, k: nat)
    requires k < |relevant|
    ensures 3 + 5 * k < |HistoryLines(relevant, fmt)|
    ensures HistoryLines(relevant, fmt)[3 + 5 * k] == QueryLine(relevant[k].0)
  {
    BlocksAt(relevant, fmt, k);
    var b := Blocks(relevant, fmt);
    assert |HistoryHeader| == 3;
    assert (HistoryHeader + b + HistoryFooter)[3 + 5 * k] == b[5 * k];
  }

  /** The history section is empty exactly when no turn is relevant, and
      otherwise quotes the query of every relevant turn. */
  lemma HistoryListsEveryQuery(relevant: seq<(ConversationTurn, real)>, fmt: real -> string)
    ensures FormatConversationHistory(relevant, fmt) == "" <==> relevant == []
    ensures forall k :: 0 <= k < |relevant| ==>
      Contains(FormatConversationHistory(relevant, fmt), QueryLine(relevant[k].0))
  {
    if relevant != [] {
      var lines := HistoryLines(relevant, fmt);
      assert FormatConversationHistory(relevant, fmt) == Join(lines, "\n");
      JoinHead(lines, "\n");
      assert lines[0] == HistoryHeader[0] != "";
      forall k | 0 <= k < |relevant|
        ensures Contains(Join(lines, "\n"), QueryLine(relevant[k].0))
      {
        HistoryLineAt(relevant, fmt, k);
        JoinHasElement(lines, "\n", 3 + 5 * k);
      }
    }
  }

  // ------------------------------------------------------ the solve() gate

  /** The first position at or after `p` that is not whitespace. */
  function SkipSpace(s: string, p: nat): (q: nat)
    requires p <= |s|
    ensures p <= q <= |s|
    ensures q == |s| || !IsSpace(s[q])
    decreases |s| - p
  {
    if p < |s| && IsSpace(s[p]) then SkipSpace(s, p + 1) else p
  }

  /** `\s+solve\s*\(` matches at `p`. */
  predicate SolveCallAt(s: string, p: nat)
    requires p <= |s|
  {
    && p < |s| && IsSpace(s[p])
    && var q := SkipSpace(s, p);
       OccursAt(s, "solve", q)
       && var r := SkipSpace(s, q + 5);
          r < |s| && s[r] == '('
  }

  /** `\s*(async\s+)?def\s+solve\s*\(` matches at `p`. Each whitespace run
      can only match in full, since the next part starts with a letter. */
  predicate SolveDefAt(s: string, p: nat)
    requires p <= |s|
  {
    var q := SkipSpace(s, p);
    || (OccursAt(s, "def", q) && SolveCallAt(s, q + 3))
    || (&& OccursAt(s, "async", q) && q + 5 < |s| && IsSpace(s[q + 5])
        && var r := SkipSpace(s, q + 5);
           OccursAt(s, "def", r) && SolveCallAt(s, r + 3))
  }

  /** Where `^` matches in multi-line mode: the start, or after a newline. */
  predicate LineStart(s: string, p: nat)
    requires p <= |s|
  {
    p == 0 || s[p - 1] == '\n'
  }

  /** The plan defines `solve` (possibly `async`) at the start of some line. */
  predicate HasSolveDef(s: string) {
    exists p | 0 <= p <= |s| :: LineStart(s, p) && SolveDefAt(s, p)
  }

  /** One line that starts with `F` defines nothing. */
  lemma NoSolveOnPlainLine(s: string)
    requires s != [] && s[0] == 'F' && '\n' !in s
    ensures !HasSolveDef(s)
  {
    forall p | 0 <= p <= |s| && LineStart(s, p)
      ensures !SolveDefAt(s, p)
    {
      assert p == 0;
      assert SkipSpace(s, 0) == 0;
    }
  }

  // ------------------------------------------------------------ the plan

  const NoSolvePlan: string := "FINAL_ANSWER:" + " [Could not generate" + " valid solve()]"
  const UnknownPlan: string := "FINAL_ANSWER:" + " [unknown]"

  /** Neither fallback passes the `solve()` gate. */
  lemma FallbacksFailGate()
    ensures !HasSolveDef(NoSolvePlan) && !HasSolveDef(UnknownPlan)
  {
    NoSolveOnPlainLine(NoSolvePlan);
    NoSolveOnPlainLine(UnknownPlan);
  }

  /** The model's answer, or the exception generating it raised. */
  datatype Generation = Generated(text: string) | GenerationFailed(message: string)

  /** Strip the answer; when it opens a code fence, strip the backticks and
      whitespace, then a leading "python" tag in any case. */
  function NormalizePlan(raw: string): string {
    var r := Strip(raw);
    if StartsWith(r, "```") then
      var r1 := Strip(StripChar(r, '`'));
      if StartsWith(Lower(r1), "python") then Strip(r1[6..]) else r1
    else r
  }

  /** `generate_plan` once the model has answered. */
  function GeneratePlan(g: Generation): string {
    match g
    case GenerationFailed(_) => UnknownPlan
    case Generated(raw) =>
      var plan := NormalizePlan(raw);
      if HasSolveDef(plan) then plan else NoSolvePlan
  }

  /** A plan passes the `solve()` gate exactly when the model answered with
      text that defines `solve()` once normalised, and is then that text;
      every other plan is a FINAL_ANSWER fallback. */
  lemma PlanGate(g: Generation)
    ensures var plan := GeneratePlan(g);
      && (HasSolveDef(plan) <==> g.Generated? && HasSolveDef(NormalizePlan(g.text)))
      && (HasSolveDef(plan) ==> plan == NormalizePlan(g.text))
      && (!HasSolveDef(plan) ==> StartsWith(plan, "FINAL_ANSWER:"))
  {
    FallbacksFailGate();
  }

  /** Code fenced as a python block comes out as the code itself. */
  lemma FencedPlanUnwrapped(code: string)
    requires code != [] && !IsSpace(code[0]) && !IsSpace(code[|code| - 1])
    ensures NormalizePlan("```python\n" + code + "\n```") == code
  {
    FenceKept(code);
    FenceRemoved(code);
    PythonTagDropped(code);
  }

  /** Strip leaves the fenced block alone, and it opens a fence. */
  lemma FenceKept(code: string)
    ensures var x := "```python\n" + code + "\n```";
      Strip(x) == x && StartsWith(x, "```")
  {
    var x := "```python\n" + code + "\n```";
    assert x[0] == '`' && x[|x| - 1] == '`' && x[..3] == "```";
    StripUnpadded(x);
  }

  /** Stripping the backticks and then whitespace leaves the tagged code. */
  lemma FenceRemoved(code: string)
    requires code != [] && !IsSpace(code[|code| - 1])
    ensures Strip(StripChar("```python\n" + code + "\n```", '`')) == "python\n" + code
  {
    var fence := "```";
    var y := "python\n" + code + "\n";
    assert "```python\n" + code + "\n```" == fence + (y + fence);
    StripCharLeftRun(fence, y + fence, '`');
    StripCharRightRun(y, fence, '`');
    var z := "python\n" + code;
    StripLeftSpaces([], y);
    assert [] + y == y;
    assert y == z + "\n";
    StripRightSpaces(z, "\n");
  }

  lemma PythonTagDropped(code: string)
    requires code != [] && !IsSpace(code[0]) && !IsSpace(code[|code| - 1])
    ensures var z := "python\n" + code;
      StartsWith(Lower(z), "python") && Strip(z[6..]) == code
  {
    var z := "python\n" + code;
    assert z[..6] == "python";
    assert Lower(z)[..6] == "python";
    assert z[6..] == "\n" + code;
    StripLeftSpaces("\n", code);
    StripRightSpaces(code, []);
    assert code + [] == code;
  }
}
