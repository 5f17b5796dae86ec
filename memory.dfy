/**
 * The agent's memory (modules/memory.py): the list of memory items of one
 * session, kept in a JSON file under a path derived from the session id, and
 * the conversation-history index shared by all sessions, whose vectors are
 * searched for past turns similar to a new query.
 *
 * Time, the embedding service and the vector search are parameters: a
 * timestamp is passed in, a vector is represented by the summary text it was
 * embedded from, and a search is represented by the (position, similarity)
 * pairs it returned.
 */
module Memory {
  import opened Text
  import opened Base

  // ------------------------------------------------------------ records

  /** A dict with string values, in insertion order. */
  type StrDict = seq<(string, string)>

  /** `repr` of a string: the text between single quotes. */
  function StrRepr(s: string): string {
    "'" + s + "'"
  }

  /** `str(d)` for a dict with string keys and values. */
  function DictRepr(d: StrDict): string {
    "{" + Join(seq(|d|, i requires 0 <= i < |d| => StrRepr(d[i].0) + ": " + StrRepr(d[i].1)), ", ") + "}"
  }

  /** The `type` field: the four kinds the agent writes, or any other text a
      stored file may hold. */
  datatype ItemKind = RunMetadata | ToolCall | ToolOutput | FinalAnswer | OtherKind(name: string)

  datatype MemoryItem = MemoryItem(
    timestamp: real,
    kind: ItemKind,
    text: string,
    toolName: Option<string>,
    toolArgs: Option<StrDict>,
    toolResult: Option<StrDict>,
    finalAnswer: Option<string>,
    tags: seq<string>,
    success: Option<bool>,
    metadata: Metadata,
    userQuery: Option<string>)

  datatype ToolExecution = ToolExecution(
    toolName: string,
    toolArgs: StrDict,
    toolResult: string,
    success: bool,
    timestamp: real)

  datatype ConversationTurn = ConversationTurn(
    turnId: string,
    sessionId: string,
    timestamp: real,
    userQuery: string,
    agentReasoning: Option<string>,
    toolsExecuted: seq<ToolExecution>,
    intermediateResults: seq<string>,
    finalAnswer: string,
    stepNumber: int,
    tags: seq<string>,
    metadata: Metadata)

  function ToolCallItem(now: real, toolName: string, toolArgs: StrDict, tags: seq<string>): MemoryItem {
    MemoryItem(now, ToolCall, "Called " + toolName + " with " + DictRepr(toolArgs),
               Some(toolName), Some(toolArgs), None, None, tags, None, map[], None)
  }

  function ToolOutputItem(now: real, toolName: string, toolArgs: StrDict, toolResult: StrDict,
                          success: bool, tags: seq<string>): MemoryItem {
    MemoryItem(now, ToolOutput, "Output of " + toolName + ": " + DictRepr(toolResult),
               Some(toolName), Some(toolArgs), Some(toolResult), None, tags, Some(success), map[], None)
  }

  function FinalAnswerItem(now: real, text: string): MemoryItem {
    MemoryItem(now, FinalAnswer, text, None, None, None, Some(text), [], None, map[], None)
  }

  // ------------------------------------------------- turn summary and id

  /** The tools line of a summary: "No tools" exactly when no tool ran. */
  function ToolsLine(names: seq<string>): (line: string)
    ensures line == "No tools" <==> names == []
  {
    if names == [] then "No tools"
    else
      var line := "Tools: " + Join(names, ", ");
      assert line[0] == 'T';
      line
  }

  function ExecNames(ts: seq<ToolExecution>): seq<string> {
    seq(|ts|, i requires 0 <= i < |ts| => ts[i].toolName)
  }

  /** `ConversationTurn.summarize()`: the text a turn is indexed by. */
  function Summarize(t: ConversationTurn): string {
    "Query: " + t.userQuery + "\n" + ToolsLine(ExecNames(t.toolsExecuted)) + "\nResult: " + Take(t.finalAnswer, 200)
  }

  /** A summary reads back as its three lines when none of its parts holds a
      line break: the query, the tools line and the first 200 characters of
      the answer. */
  lemma SummaryLines(t: ConversationTurn)
    requires '\n' !in t.userQuery
    requires forall e <- t.toolsExecuted :: '\n' !in e.toolName
    requires '\n' !in Take(t.finalAnswer, 200)
    ensures SplitOn(Summarize(t), '\n')
         == ["Query: " + t.userQuery, ToolsLine(ExecNames(t.toolsExecuted)), "Result: " + Take(t.finalAnswer, 200)]
  {
    var names := ExecNames(t.toolsExecuted);
    NoBreakInJoin(names, ", ");
    NoBreakInToolsLine(names);
    NoBreakAfter("Query: ", t.userQuery);
    NoBreakAfter("Result: ", Take(t.finalAnswer, 200));
    SplitThree("Query: " + t.userQuery, ToolsLine(names), "Result: " + Take(t.finalAnswer, 200));
    SummaryAsLines(t);
  }

  lemma SummaryAsLines(t: ConversationTurn)
    ensures Summarize(t) == ("Query: " + t.userQuery) + "\n" + ToolsLine(ExecNames(t.toolsExecuted))
                            + "\n" + ("Result: " + Take(t.finalAnswer, 200))
  {
  }

  lemma NoBreakAfter(prefix: string, s: string)
    requires '\n' !in prefix && '\n' !in s
    ensures '\n' !in prefix + s
  {
  }

  lemma NoBreakInToolsLine(names: seq<string>)
    requires '\n' !in Join(names, ", ")
    ensures '\n' !in ToolsLine(names)
  {
    if names != [] {
      NoBreakAfter("Tools: ", Join(names, ", "));
    }
  }

  lemma SplitThree(a: string, b: string, c: string)
    requires '\n' !in a && '\n' !in b && '\n' !in c
    ensures SplitOn(a + "\n" + b + "\n" + c, '\n') == [a, b, c]
  {
    var bc := b + ['\n'] + c;
    assert a + ['\n'] + bc == a + "\n" + b + "\n" + c;
    SplitTwo(b, c);
    SplitOnFront(a, '\n', bc);
  }

  lemma SplitTwo(b: string, c: string)
    requires '\n' !in b && '\n' !in c
    ensures SplitOn(b + ['\n'] + c, '\n') == [b, c]
  {
    SplitOnNone(c, '\n');
    SplitOnFront(b, '\n', c);
  }

  lemma {:induction false} NoBreakInJoin(ws: seq<string>, sep: string)
    requires '\n' !in sep && forall w <- ws :: '\n' !in w
    ensures '\n' !in Join(ws, sep)
  {
    if |ws| > 1 {
      NoBreakInJoin(ws[1..], sep);
    }
  }

  /** `ConversationTurn.create_turn_id`. */
  function CreateTurnId(sessionId: string, step: int): string {
    sessionId + "-turn-" + IntToString(step)
  }

  /** Two steps of one session never share a turn id. */
  lemma TurnIdInjective(sessionId: string, m: int, n: int)
    requires CreateTurnId(sessionId, m) == CreateTurnId(sessionId, n)
    ensures m == n
  {
    var pre := sessionId + "-turn-";
    var a, b := IntToString(m), IntToString(n);
    assert (pre + a)[|pre|..] == a;
    assert (pre + b)[|pre|..] == b;
    IntToStringInjective(m, n);
  }

  // ------------------------------------------------------ session file path

  /** `os.path.join(a, b)` on POSIX: an absolute `b` replaces `a`, and no
      slash is added after an empty `a` or one that already ends in a slash. */
  function JoinPath(a: string, b: string): string {
    if StartsWith(b, "/") then b
    else if a == [] || a[|a| - 1] == '/' then a + b
    else a + "/" + b
  }

  function JoinAll(a: string, parts: seq<string>): string
    decreases |parts|
  {
    if parts == [] then a else JoinAll(JoinPath(a, parts[0]), parts[1..])
  }

  function SessionFileName(sessionId: string): string {
    "session-" + sessionId + ".json"
  }

  /** The session file's path: `memory/<p0>/<p1>/<p2>/session-<id>.json` where
      p0..p2 are the first three dash-separated pieces of the id; an id with
      fewer than three pieces has no path (the source raises IndexError). */
  function SessionPath(sessionId: string): Option<string> {
    var parts := SplitOn(sessionId, '-');
    if |parts| < 3 then None
    else Some(JoinAll("memory", [parts[0], parts[1], parts[2], SessionFileName(sessionId)]))
  }

  predicate PlainSegment(s: string) {
    s != [] && '/' !in s
  }

  /** For ids whose first three pieces are non-empty and free of slashes, the path
      is the three pieces as nested directories under `memory`. */
  lemma SessionPathShape(sessionId: string)
    requires var parts := SplitOn(sessionId, '-');
      |parts| >= 3 && PlainSegment(parts[0]) && PlainSegment(parts[1]) && PlainSegment(parts[2])
    ensures var parts := SplitOn(sessionId, '-');
      SessionPath(sessionId)
        == Some("memory/" + parts[0] + "/" + parts[1] + "/" + parts[2] + "/" + SessionFileName(sessionId))
  {
    var parts := SplitOn(sessionId, '-');
    var f := SessionFileName(sessionId);
    assert f[0] == 's';
    var p0 := "memory/" + parts[0];
    var p1 := p0 + "/" + parts[1];
    var p2 := p1 + "/" + parts[2];
    assert parts[0][0] != '/' && parts[1][0] != '/' && parts[2][0] != '/';
    assert p0[|p0| - 1] == parts[0][|parts[0]| - 1] != '/';
    assert p1[|p1| - 1] == parts[1][|parts[1]| - 1] != '/';
    assert p2[|p2| - 1] == parts[2][|parts[2]| - 1] != '/';
    var full := p2 + "/" + f;
    assert JoinAll(p2, [f]) == full by {
      var last: seq<string> := [f];
      assert JoinPath(p2, f) == full && last[1..] == [];
    }
    assert JoinAll(p1, [parts[2], f]) == full by {
      assert JoinPath(p1, parts[2]) == p2;
      assert [parts[2], f][1..] == [f];
    }
    assert JoinAll(p0, [parts[1], parts[2], f]) == full by {
      assert JoinPath(p0, parts[1]) == p1;
      assert [parts[1], parts[2], f][1..] == [parts[2], f];
    }
    assert JoinAll("memory", [parts[0], parts[1], parts[2], f]) == full by {
      assert JoinPath("memory", parts[0]) == p0;
      assert [parts[0], parts[1], parts[2], f][1..] == [parts[1], parts[2], f];
    }
  }

  lemma {:induction false} JoinAllNonEmpty(a: string, parts: seq<string>)
    requires a != []
    ensures JoinAll(a, parts) != []
    decreases |parts|
  {
    if parts != [] {
      JoinAllNonEmpty(JoinPath(a, parts[0]), parts[1..]);
    }
  }

  lemma {:induction false} JoinAllSnoc(a: string, parts: seq<string>, x: string)
    ensures JoinAll(a, parts + [x]) == JoinPath(JoinAll(a, parts), x)
    decreases |parts|
  {
    if parts != [] {
      assert (parts + [x])[1..] == parts[1..] + [x];
      JoinAllSnoc(JoinPath(a, parts[0]), parts[1..], x);
    }
  }

  /** Whatever the id, its path names the session's own file after a slash. */
  lemma SessionPathFile(sessionId: string)
    requires SessionPath(sessionId).Some?
    ensures EndsWith(SessionPath(sessionId).value, "/" + SessionFileName(sessionId))
  {
    var parts := SplitOn(sessionId, '-');
    var f := SessionFileName(sessionId);
    assert f[0] == 's';
    var dirs := [parts[0], parts[1], parts[2]];
    assert SessionPath(sessionId).value == JoinAll("memory", dirs + [f]) by {
      assert [parts[0], parts[1], parts[2], f] == dirs + [f];
    }
    hide SessionPath, SessionFileName, SplitOn;
    JoinAllSnoc("memory", dirs, f);
    JoinAllNonEmpty("memory", dirs);
    JoinPathEndsWith(JoinAll("memory", dirs), f);
  }

  /** Joining a relative name onto a non-empty directory puts a slash
      right before the name. */
  lemma JoinPathEndsWith(d: string, f: string)
    requires d != [] && f != [] && f[0] != '/'
    ensures EndsWith(JoinPath(d, f), "/" + f)
  {
    assert !StartsWith(f, "/");
    if d[|d| - 1] == '/' {
      assert d == d[..|d| - 1] + "/";
      assert JoinPath(d, f) == d[..|d| - 1] + ("/" + f);
    } else {
      assert JoinPath(d, f) == d + ("/" + f);
    }
  }

  // ------------------------------------------------- newest tool successes

  /** A tool output that succeeded and names its tool. */
  predicate Successful(it: MemoryItem) {
    it.kind == ToolOutput && it.success == Some(true) && it.toolName.Some? && it.toolName.value != ""
  }

  /** The names of tools that succeeded among the newest `k` items, newest
      first, each once. */
  function NewestNames(items: seq<MemoryItem>, k: nat): seq<string>
    requires k <= |items|
  {
    if k == 0 then []
    else
      var prev := NewestNames(items, k - 1);
      var it := items[|items| - k];
      if Successful(it) && it.toolName.value !in prev then prev + [it.toolName.value] else prev
  }

  /** The last position whose item satisfies `p`, or -1. */
  function LastWhere(items: seq<MemoryItem>, p: MemoryItem -> bool): (i: int)
    ensures -1 <= i < |items|
    ensures i >= 0 ==> p(items[i])
    ensures forall j :: i < j < |items| ==> !p(items[j])
  {
    if items == [] then -1
    else if p(items[|items| - 1]) then |items| - 1
    else LastWhere(items[..|items| - 1], p)
  }

  /** Where the newest successful output of tool `name` is, or -1. */
  function LastSuccess(items: seq<MemoryItem>, name: string): int {
    LastWhere(items, it => Successful(it) && it.toolName.value == name)
  }

  /** The names found among the newest `k` items are distinct, are exactly
      the tools with a successful output there, and are ordered from the most
      recently successful. */
  lemma {:induction false} NewestNamesSpec(items: seq<MemoryItem>, k: nat)
    requires k <= |items|
    ensures var r := NewestNames(items, k);
      && Distinct(r)
      && (forall x :: x in r <==>
            exists j :: |items| - k <= j < |items| && Successful(items[j]) && items[j].toolName.value == x)
      && (forall i, j :: 0 <= i < j < |r| ==> LastSuccess(items, r[i]) > LastSuccess(items, r[j]))
  {
    if k > 0 {
      NewestNamesSpec(items, k - 1);
      var prev := NewestNames(items, k - 1);
      var j0 := |items| - k;
      var it := items[j0];
      forall x | x in prev
        ensures LastSuccess(items, x) > j0
      {
        var j :| |items| - (k - 1) <= j < |items| && Successful(items[j]) && items[j].toolName.value == x;
        var P := (it: MemoryItem) => Successful(it) && it.toolName.value == x;
        assert P(items[j]);
      }
      if Successful(it) && it.toolName.value !in prev {
        var name := it.toolName.value;
        var P := (it: MemoryItem) => Successful(it) && it.toolName.value == name;
        assert P(items[j0]);
        assert LastSuccess(items, name) == j0;
      }
    }
  }

  /** Looking at more items only extends the list found so far. */
  lemma {:induction false} NewestNamesPrefix(items: seq<MemoryItem>, k: nat, m: nat)
    requires k <= m <= |items|
    ensures |NewestNames(items, k)| <= |NewestNames(items, m)|
    ensures NewestNames(items, m)[..|NewestNames(items, k)|] == NewestNames(items, k)
    decreases m - k
  {
    if k < m {
      NewestNamesPrefix(items, k, m - 1);
    }
  }

  // ------------------------------------------------ last tool call or output

  predicate MatchesTool(it: MemoryItem, toolName: string) {
    it.toolName == Some(toolName) && (it.kind == ToolCall || it.kind == ToolOutput)
  }

  /** The position `add_tool_success` patches: the newest call or output of the tool, or -1. */
  function LastMatch(items: seq<MemoryItem>, toolName: string): int {
    LastWhere(items, it => MatchesTool(it, toolName))
  }

  // ------------------------------------------------------- session memory

  /** The `MemoryManager` of one session. `file` is what its JSON file holds. */
  class MemoryManager {
    const sessionId: string
    const memoryPath: string
    var items: seq<MemoryItem>
    var file: Option<seq<MemoryItem>>

    /** The file holds the items, or is absent while there are none. */
    ghost predicate Valid()
      reads this
    {
      file.GetOr([]) == items
    }

    /** Builds the path and loads the items the file holds, if it exists. */
    constructor(sessionId: string, stored: Option<seq<MemoryItem>>)
      requires SessionPath(sessionId).Some?
      ensures this.sessionId == sessionId && memoryPath == SessionPath(sessionId).value
      ensures items == stored.GetOr([]) && file == stored
      ensures Valid()
    {
      this.sessionId := sessionId;
      memoryPath := SessionPath(sessionId).value;
      items := stored.GetOr([]);
      file := stored;
    }

    method Save()
      modifies this
      ensures items == old(items) && file == Some(items)
    {
      file := Some(items);
    }

    /** Appends an item and rewrites the file. */
    method Add(item: MemoryItem)
      requires Valid()
      modifies this
      ensures items == old(items) + [item] && file == Some(items)
      ensures Valid()
    {
      items := items + [item];
      Save();
    }

    method AddToolCall(toolName: string, toolArgs: StrDict, tags: seq<string>, now: real)
      requires Valid()
      modifies this
      ensures items == old(items) + [ToolCallItem(now, toolName, toolArgs, tags)]
      ensures Valid()
    {
      Add(ToolCallItem(now, toolName, toolArgs, tags));
    }

    method AddToolOutput(toolName: string, toolArgs: StrDict, toolResult: StrDict, success: bool,
                         tags: seq<string>, now: real)
      requires Valid()
      modifies this
      ensures items == old(items) + [ToolOutputItem(now, toolName, toolArgs, toolResult, success, tags)]
      ensures Valid()
    {
      Add(ToolOutputItem(now, toolName, toolArgs, toolResult, success, tags));
    }

    method AddFinalAnswer(text: string, now: real)
      requires Valid()
      modifies this
      ensures items == old(items) + [FinalAnswerItem(now, text)]
      ensures Valid()
    {
      Add(FinalAnswerItem(now, text));
    }

    /** Walks the items from the newest, collecting the names of tools that
        succeeded, and stops once `limit` names are collected. For a positive
        limit that is the first `limit` of all such names; otherwise only the
        newest item is looked at. */
    method FindRecentSuccesses(limit: int) returns (names: seq<string>)
      ensures limit >= 1 ==> names == Take(NewestNames(items, |items|), limit)
      ensures limit < 1 ==> names == NewestNames(items, if items == [] then 0 else 1)
    {
      names := [];
      var k := 0;
      while k < |items|
        invariant 0 <= k <= |items|
        invariant names == NewestNames(items, k)
        invariant limit >= 1 ==> |names| < limit
        invariant limit < 1 ==> k == 0
      {
        var item := items[|items| - 1 - k];
        if item.kind == ToolOutput && item.success == Some(true) {
          if item.toolName.Some? && item.toolName.value != "" && item.toolName.value !in names {
            names := names + [item.toolName.value];
          }
        }
        k := k + 1;
        if |names| >= limit {
          if limit >= 1 {
            NewestNamesPrefix(items, k, |items|);
          }
          return;
        }
      }
    }

    /** Marks the newest call or output of `toolName` with `success` and
        rewrites the file; with no such item nothing changes. */
    method AddToolSuccess(toolName: string, success: bool)
      requires Valid()
      modifies this
      ensures var i := LastMatch(old(items), toolName);
        items == (if i < 0 then old(items) else old(items)[i := old(items)[i].(success := Some(success))])
      ensures Valid()
    {
      var k := |items|;
      while k > 0
        invariant 0 <= k <= |items|
        invariant items == old(items) && file == old(file)
        invariant forall j :: k <= j < |items| ==> !MatchesTool(items[j], toolName)
      {
        k := k - 1;
        if items[k].toolName == Some(toolName) && (items[k].kind == ToolCall || items[k].kind == ToolOutput) {
          ghost var P := (it: MemoryItem) => MatchesTool(it, toolName);
          assert P(items[k]);
          items := items[k := items[k].(success := Some(success))];
          Save();
          return;
        }
      }
    }

    method GetSessionItems() returns (r: seq<MemoryItem>)
      ensures r == items
    {
      r := items;
    }
  }

  // ------------------------------------------------- conversation history

  /** What reading one of the index's files gives. */
  datatype Stored<T> = Missing | Unreadable | Present(value: T)

  function Summaries(h: seq<ConversationTurn>): seq<string> {
    seq(|h|, i requires 0 <= i < |h| => Summarize(h[i]))
  }

  /** The vectors after a rebuild: every turn's summary in order, or none
      when embedding them failed. */
  function Rebuilt(h: seq<ConversationTurn>, ok: bool): seq<string> {
    if ok then Summaries(h) else []
  }

  /** The vectors after a turn was appended to history `h` and its summary's
      vector accepted: a count that no longer matches triggers a rebuild. */
  function VectorsAfterAdd(h: seq<ConversationTurn>, vs: seq<string>, t: ConversationTurn, ok: bool): seq<string> {
    if |vs| == |h| then vs + [Summarize(t)] else Rebuilt(h + [t], ok)
  }

  /** An index whose vectors are the summaries of its turns stays so. */
  lemma AddKeepsAlignment(h: seq<ConversationTurn>, vs: seq<string>, t: ConversationTurn, ok: bool)
    requires vs == Summaries(h)
    ensures VectorsAfterAdd(h, vs, t, ok) == Summaries(h + [t])
  {
  }

  /** A misaligned index is repaired by the next add when embedding works. */
  lemma AddRepairsAlignment(h: seq<ConversationTurn>, vs: seq<string>, t: ConversationTurn)
    requires |vs| != |h|
    ensures VectorsAfterAdd(h, vs, t, true) == Summaries(h + [t])
  {
  }

  /** The vectors the index holds after loading. */
  function LoadedVectors(history: seq<ConversationTurn>, indexFile: Stored<seq<string>>, ok: bool): seq<string> {
    match indexFile
    case Present(vs) => if |vs| == |history| then vs else Rebuilt(history, ok)
    case Missing => Rebuilt(history, ok)
    case Unreadable => []
  }

  /** A turn the search kept: a real position, a high enough score and, when
      a non-zero age limit is given, not older than that many days. */
  predicate Kept(history: seq<ConversationTurn>, hit: (int, real), threshold: real, maxAgeDays: Option<int>, now: real) {
    && 0 <= hit.0 < |history|
    && hit.1 >= threshold
    && !(maxAgeDays.Some? && maxAgeDays.value != 0
         && (now - history[hit.0].timestamp) / 86400.0 > maxAgeDays.value as real)
  }

  /** The kept search hits with their turns, in search order. */
  function Relevant(history: seq<ConversationTurn>, hits: seq<(int, real)>, threshold: real,
                    maxAgeDays: Option<int>, now: real): seq<(ConversationTurn, real)>
  {
    if hits == [] then []
    else
      var last := hits[|hits| - 1];
      Relevant(history, hits[..|hits| - 1], threshold, maxAgeDays, now)
        + (if Kept(history, last, threshold, maxAgeDays, now) then [(history[last.0], last.1)] else [])
  }

  /** No more results than hits; a pair is returned exactly when some hit
      was kept and names that turn with that score. */
  lemma {:induction false} RelevantSpec(history: seq<ConversationTurn>, hits: seq<(int, real)>, threshold: real,
                                        maxAgeDays: Option<int>, now: real)
    ensures var r := Relevant(history, hits, threshold, maxAgeDays, now);
      && |r| <= |hits|
      && forall p :: p in r <==>
           exists k :: 0 <= k < |hits| && Kept(history, hits[k], threshold, maxAgeDays, now)
                       && p == (history[hits[k].0], hits[k].1)
  {
    if hits != [] {
      var front := hits[..|hits| - 1];
      RelevantSpec(history, front, threshold, maxAgeDays, now);
      forall k | 0 <= k < |front| ensures front[k] == hits[k] { }
    }
  }

  function MinTimestamp(h: seq<ConversationTurn>): (m: real)
    requires h != []
    ensures forall t <- h :: m <= t.timestamp
    ensures exists t <- h :: m == t.timestamp
  {
    if |h| == 1 then h[0].timestamp
    else
      var rest := MinTimestamp(h[1..]);
      if h[0].timestamp <= rest then h[0].timestamp else rest
  }

  function MaxTimestamp(h: seq<ConversationTurn>): (m: real)
    requires h != []
    ensures forall t <- h :: t.timestamp <= m
    ensures exists t <- h :: m == t.timestamp
  {
    if |h| == 1 then h[0].timestamp
    else
      var rest := MaxTimestamp(h[1..]);
      if h[0].timestamp >= rest then h[0].timestamp else rest
  }

  function SessionIds(h: seq<ConversationTurn>): set<string> {
    set t <- h :: t.sessionId
  }

  /** A non-empty history has at least one and at most one session per turn. */
  lemma {:induction false} SessionIdsBound(h: seq<ConversationTurn>)
    ensures |SessionIds(h)| <= |h|
    ensures h != [] ==> |SessionIds(h)| >= 1
  {
    if h != [] {
      SessionIdsBound(h[1..]);
      assert SessionIds(h) == {h[0].sessionId} + SessionIds(h[1..]);
      assert h[0].sessionId in SessionIds(h);
    }
  }

  /** `get_conversation_history_stats()`: absent fields are `None`. */
  datatype HistoryStats = HistoryStats(
    totalConversations: nat,
    uniqueSessions: Option<nat>,
    oldest: Option<real>,
    newest: Option<real>,
    vectorSearchEnabled: Option<bool>,
    vectorIndexSize: Option<nat>)

  /**
   * The conversation history shared by every `MemoryManager` (the class
   * attributes `_conversation_history` and `_conversation_index`), with the
   * two files it is saved to. A vector is represented by the summary it was
   * embedded from, so the index is aligned when `vectors == Summaries(history)`.
   */
  class ConversationIndex {
    const useVectors: bool
    var history: seq<ConversationTurn>
    var vectors: seq<string>
    var metadataFile: Stored<seq<ConversationTurn>>
    var indexFile: Stored<seq<string>>

    /** Without vector support there is no history and no index. */
    ghost predicate Valid()
      reads this
    {
      !useVectors ==> history == [] && vectors == []
    }

    /** `_load_conversation_index`: read the history, read the index, and
        rebuild the index when its size disagrees with the history or when
        there is history but no index file; an unreadable index file is
        replaced by an empty index without a rebuild. */
    constructor(useVectors: bool, metadataFile: Stored<seq<ConversationTurn>>, indexFile: Stored<seq<string>>,
                rebuildOk: bool)
      ensures this.useVectors == useVectors && this.metadataFile == metadataFile && this.indexFile == indexFile
      ensures useVectors ==> history == (if metadataFile.Present? then metadataFile.value else [])
      ensures useVectors ==> vectors == LoadedVectors(history, indexFile, rebuildOk)
      ensures Valid()
    {
      this.useVectors := useVectors;
      this.metadataFile := metadataFile;
      this.indexFile := indexFile;
      history := if useVectors && metadataFile.Present? then metadataFile.value else [];
      vectors := if useVectors && indexFile.Present? then indexFile.value else [];
      new;
      if useVectors {
        if indexFile.Present? && |history| != |vectors| {
          Rebuild(rebuildOk);
        } else if indexFile.Missing? && history != [] {
          Rebuild(rebuildOk);
        }
      }
    }

    /** `_rebuild_conversation_index`: a fresh index, then every turn's
        vector in order, unless embedding them fails. */
    method Rebuild(ok: bool)
      modifies this
      ensures history == old(history) && metadataFile == old(metadataFile) && indexFile == old(indexFile)
      ensures vectors == (if useVectors then Rebuilt(history, ok) else old(vectors))
    {
      if !useVectors {
        return;
      }
      vectors := [];
      if history == [] {
        return;
      }
      if ok {
        vectors := Summaries(history);
      }
    }

    method Save()
      modifies this
      ensures history == old(history) && vectors == old(vectors)
      ensures metadataFile == Present(history) && indexFile == Present(vectors)
    {
      metadataFile := Present(history);
      indexFile := Present(vectors);
    }

    /** `add_conversation_turn`: append the turn and its vector, rebuild on
        a count mismatch, and save; when the index refuses the vector the turn
        is taken back out and nothing changes. */
    method AddConversationTurn(turn: ConversationTurn, vectorAccepted: bool, rebuildOk: bool)
      requires Valid()
      modifies this
      ensures Valid()
      ensures !useVectors || !vectorAccepted ==>
        history == old(history) && vectors == old(vectors)
        && metadataFile == old(metadataFile) && indexFile == old(indexFile)
      ensures useVectors && vectorAccepted ==>
        && history == old(history) + [turn]
        && vectors == VectorsAfterAdd(old(history), old(vectors), turn, rebuildOk)
        && metadataFile == Present(history) && indexFile == Present(vectors)
    {
      if !useVectors {
        return;
      }
      history := history + [turn];
      if !vectorAccepted {
        if history != [] && history[|history| - 1] == turn {
          history := history[..|history| - 1];
        }
        return;
      }
      vectors := vectors + [Summarize(turn)];
      if |vectors| != |history| {
        Rebuild(rebuildOk);
      }
      Save();
    }

    /** `find_relevant_conversations` given what the search returned: nothing
        without an index or with an empty one, otherwise the kept hits in
        search order. A failed search is the same as one with no hits. */
    method FindRelevantConversations(hits: seq<(int, real)>, threshold: real, maxAgeDays: Option<int>, now: real)
      returns (found: seq<(ConversationTurn, real)>)
      ensures found == (if !useVectors || vectors == [] then []
                        else Relevant(history, hits, threshold, maxAgeDays, now))
    {
      found := [];
      if !useVectors || vectors == [] {
        return;
      }
      var k := 0;
      while k < |hits|
        invariant 0 <= k <= |hits|
        invariant found == Relevant(history, hits[..k], threshold, maxAgeDays, now)
      {
        var (idx, similarity) := hits[k];
        assert hits[..k + 1][..k] == hits[..k];
        if 0 <= idx < |history| && similarity >= threshold {
          var turn := history[idx];
          var skip := false;
          if maxAgeDays.Some? && maxAgeDays.value != 0 {
            var ageDays := (now - turn.timestamp) / 86400.0;
            skip := ageDays > maxAgeDays.value as real;
          }
          if !skip {
            found := found + [(turn, similarity)];
          }
        }
        k := k + 1;
      }
      assert hits[..k] == hits;
    }

    /** Counts, time range and session count of the history; with no history
        only the zero count and empty time range. */
    function HistoryStatistics(): (s: HistoryStats)
      reads this
      ensures s.totalConversations == |history|
      ensures history == [] ==> s == HistoryStats(0, None, None, None, None, None)
      ensures history != [] ==>
        && s.oldest.Some? && s.newest.Some?
        && (forall t <- history :: s.oldest.value <= t.timestamp <= s.newest.value)
        && (exists t <- history :: t.timestamp == s.oldest.value)
        && (exists t <- history :: t.timestamp == s.newest.value)
        && s.uniqueSessions.Some? && 1 <= s.uniqueSessions.value <= |history|
        && s.vectorSearchEnabled == Some(useVectors)
        && s.vectorIndexSize == (if useVectors then Some(|vectors|) else None)
    {
      if history == [] then HistoryStats(0, None, None, None, None, None)
      else
        SessionIdsBound(history);
        HistoryStats(|history|, Some(|SessionIds(history)|), Some(MinTimestamp(history)), Some(MaxTimestamp(history)),
                     Some(useVectors), if useVectors then Some(|vectors|) else None)
    }
  }
}
