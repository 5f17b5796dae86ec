/**
 * Python string behaviour that the agent's code relies on: `str.split()`,
 * `str.split(sep)`, `" ".join`, `strip`, `lower`, `startswith`, `find`,
 * `rfind`, `count`, `in` on strings and `str(int)`.
 */
module Text {

  /** The characters Python's `str.isspace()` accepts; `str.split()` and the
      regular-expression class `\s` both use this set. */
  predicate IsSpace(c: char) {
    || c == ' '
    || ('\t' <= c <= '\r')
    || ('\U{1C}' <= c <= '\U{1F}')
    || c == '\U{85}' || c == '\U{A0}' || c == '\U{1680}'
    || ('\U{2000}' <= c <= '\U{200A}')
    || c == '\U{2028}' || c == '\U{2029}' || c == '\U{202F}' || c == '\U{205F}' || c == '\U{3000}'
  }

  predicate NoSpace(w: string) {
    forall i :: 0 <= i < |w| ==> !IsSpace(w[i])
  }

  predicate StartsWith(s: string, prefix: string) {
    |prefix| <= |s| && s[..|prefix|] == prefix
  }

  /** `s[:n]` for a non-negative `n`. */
  function Take<T>(s: seq<T>, n: nat): (r: seq<T>)
    ensures |r| <= n && |r| <= |s|
    ensures r == s[..|r|]
    ensures |s| <= n ==> r == s
  {
    if n < |s| then s[..n] else s
  }

  // ---------------------------------------------------------------- split()

  /** Length of the run of non-whitespace characters at the front of `s`. */
  function WordLen(s: string): (n: nat)
    ensures n <= |s|
    ensures forall i :: 0 <= i < n ==> !IsSpace(s[i])
    ensures n < |s| ==> IsSpace(s[n])
  {
    if s == [] || IsSpace(s[0]) then 0 else 1 + WordLen(s[1..])
  }

  /** `s.split()`: the maximal runs of non-whitespace characters, in order. */
  function Split(s: string): (ws: seq<string>)
    ensures forall w <- ws :: w != [] && NoSpace(w)
    decreases |s|
  {
    if s == [] then []
    else if IsSpace(s[0]) then Split(s[1..])
    else
      var n := WordLen(s);
      [s[..n]] + Split(s[n..])
  }

  /** `sep.join(ws)` */
  function Join(ws: seq<string>, sep: string): string {
    if ws == [] then ""
    else if |ws| == 1 then ws[0]
    else ws[0] + sep + Join(ws[1..], sep)
  }

  lemma {:induction false} WordLenOfWord(w: string, rest: string)
    requires NoSpace(w)
    requires rest == [] || IsSpace(rest[0])
    ensures WordLen(w + rest) == |w|
    decreases |w|
  {
    if w != [] {
      assert (w + rest)[1..] == w[1..] + rest;
      WordLenOfWord(w[1..], rest);
    }
  }

  /** Splitting words joined by single spaces gives the words back. */
  lemma {:induction false} SplitJoin(ws: seq<string>)
    requires forall w <- ws :: w != [] && NoSpace(w)
    ensures Split(Join(ws, " ")) == ws
  {
    if ws == [] {
    } else if |ws| == 1 {
      var w := ws[0];
      WordLenOfWord(w, []);
      assert w + [] == w;
      assert w[..|w|] == w;
      assert w[|w|..] == [];
    } else {
      assert forall w <- ws[1..] :: w in ws;
      var w, rest := ws[0], Join(ws[1..], " ");
      var s := w + " " + rest;
      assert Join(ws, " ") == s;
      WordLenOfWord(w, " " + rest);
      assert s == w + (" " + rest);
      assert s[..|w|] == w;
      assert s[|w|..] == " " + rest;
      assert (" " + rest)[1..] == rest;
      SplitJoin(ws[1..]);
    }
  }

  lemma {:induction false} WordLenPrefix(s: string, k: nat)
    requires k <= |s|
    ensures WordLen(s[..k]) == if WordLen(s) < k then WordLen(s) else k
  {
    if k > 0 && !IsSpace(s[0]) {
      assert s[..k][1..] == s[1..][..k - 1];
      WordLenPrefix(s[1..], k - 1);
    }
  }

  /** Cutting a string never adds words: `len(s[:k].split()) <= len(s.split())`. */
  lemma {:induction false} SplitPrefixCount(s: string, k: nat)
    requires k <= |s|
    ensures |Split(s[..k])| <= |Split(s)|
    decreases |s|
  {
    if k == 0 {
      assert s[..k] == [];
    } else if IsSpace(s[0]) {
      assert s[..k][1..] == s[1..][..k - 1];
      SplitPrefixCount(s[1..], k - 1);
    } else {
      var n := WordLen(s);
      var p := s[..k];
      WordLenPrefix(s, k);
      if k <= n {
        assert WordLen(p) == k;
        assert p[k..] == [];
      } else {
        assert WordLen(p) == n;
        assert p[n..] == s[n..][..k - n];
        SplitPrefixCount(s[n..], k - n);
      }
    }
  }

  // ------------------------------------------------------------ split(sep)

  function IndexOfChar(s: string, c: char): (i: int)
    ensures -1 <= i < |s|
    ensures i == -1 <==> c !in s
    ensures 0 <= i ==> s[i] == c && c !in s[..i]
  {
    if s == [] then -1
    else if s[0] == c then 0
    else
      var j := IndexOfChar(s[1..], c);
      assert s[1..][..if j < 0 then 0 else j] == s[1..if j < 0 then 1 else j + 1];
      if j < 0 then -1 else j + 1
  }

  /** `s.split(sep)` for a one-character separator: empty pieces are kept. */
  function SplitOn(s: string, sep: char): (parts: seq<string>)
    ensures |parts| >= 1
    ensures forall p <- parts :: sep !in p
    decreases |s|
  {
    var i := IndexOfChar(s, sep);
    if i < 0 then [s] else [s[..i]] + SplitOn(s[i + 1..], sep)
  }

  lemma JoinCons(w: string, ws: seq<string>, sep: string)
    requires ws != []
    ensures Join([w] + ws, sep) == w + sep + Join(ws, sep)
  {
    assert ([w] + ws)[1..] == ws;
  }

  /** Joining the pieces with the separator restores the string. */
  lemma {:induction false} SplitOnJoin(s: string, sep: char)
    ensures Join(SplitOn(s, sep), [sep]) == s
    decreases |s|
  {
    var i := IndexOfChar(s, sep);
    if i < 0 {
      SplitOnNone(s, sep);
    } else {
      var head, rest := s[..i], s[i + 1..];
      assert s == head + [sep] + rest;
      SplitOnFront(head, sep, rest);
      hide SplitOn, Join, IndexOfChar;
      SplitOnJoin(rest, sep);
      JoinCons(head, SplitOn(rest, sep), [sep]);
    }
  }

  /** A piece free of the separator, then the separator: the piece comes off
      the front of the split. */
  lemma SplitOnFront(a: string, sep: char, b: string)
    requires sep !in a
    ensures SplitOn(a + [sep] + b, sep) == [a] + SplitOn(b, sep)
  {
    var s := a + [sep] + b;
    assert s[|a|] == sep;
    assert forall j :: 0 <= j < |a| ==> s[j] == a[j];
    assert s[..|a|] == a && s[|a| + 1..] == b;
  }

  lemma SplitOnNone(a: string, sep: char)
    requires sep !in a
    ensures SplitOn(a, sep) == [a]
  {
  }

  /** A joined list starts with its first element. */
  lemma JoinHead(ws: seq<string>, sep: string)
    requires ws != []
    ensures StartsWith(Join(ws, sep), ws[0])
  {
    if |ws| > 1 {
      assert Join(ws, sep) == ws[0] + (sep + Join(ws[1..], sep));
    }
  }

  lemma ContainsShift(prefix: string, s: string, sub: string)
    requires Contains(s, sub)
    ensures Contains(prefix + s, sub)
  {
    FindSpec(s, sub, 0);
    var j := Find(s, sub, 0);
    assert (prefix + s)[|prefix| + j..|prefix| + j + |sub|] == s[j..j + |sub|];
    ContainsAt(prefix + s, sub, |prefix| + j);
  }

  /** Every element of a joined list occurs in the result. */
  lemma {:induction false} JoinHasElement(ws: seq<string>, sep: string, i: nat)
    requires i < |ws|
    ensures Contains(Join(ws, sep), ws[i])
    decreases i
  {
    if i == 0 {
      JoinHead(ws, sep);
      ContainsAt(Join(ws, sep), ws[0], 0);
    } else {
      JoinHasElement(ws[1..], sep, i - 1);
      ContainsShift(ws[0] + sep, Join(ws[1..], sep), ws[i]);
      assert Join(ws, sep) == (ws[0] + sep) + Join(ws[1..], sep);
    }
  }

  // ------------------------------------------------------- strip and lower

  function StripLeft(s: string): (r: string)
    ensures |r| <= |s| && r == s[|s| - |r|..]
    ensures r == [] || !IsSpace(r[0])
  {
    if s != [] && IsSpace(s[0]) then StripLeft(s[1..]) else s
  }

  function StripRight(s: string): (r: string)
    ensures |r| <= |s| && r == s[..|r|]
    ensures r == [] || !IsSpace(r[|r| - 1])
  {
    if s != [] && IsSpace(s[|s| - 1]) then StripRight(s[..|s| - 1]) else s
  }

  /** `s.strip()` */
  function Strip(s: string): (r: string)
    ensures |r| <= |s|
    ensures r == [] || (!IsSpace(r[0]) && !IsSpace(r[|r| - 1]))
  {
    StripRight(StripLeft(s))
  }

  function StripCharLeft(s: string, c: char): (r: string)
    ensures |r| <= |s|
  {
    if s != [] && s[0] == c then StripCharLeft(s[1..], c) else s
  }

  function StripCharRight(s: string, c: char): (r: string)
    ensures |r| <= |s|
  {
    if s != [] && s[|s| - 1] == c then StripCharRight(s[..|s| - 1], c) else s
  }

  /** `s.strip(c)` for one character `c` */
  function StripChar(s: string, c: char): (r: string)
    ensures |r| <= |s|
  {
    StripCharRight(StripCharLeft(s, c), c)
  }

  /** Whitespace in front of a word is what `lstrip` removes. */
  lemma {:induction false} StripLeftSpaces(w: string, y: string)
    requires forall i :: 0 <= i < |w| ==> IsSpace(w[i])
    requires y == [] || !IsSpace(y[0])
    ensures StripLeft(w + y) == y
    decreases |w|
  {
    if w != [] {
      assert (w + y)[1..] == w[1..] + y;
      StripLeftSpaces(w[1..], y);
    } else {
      assert w + y == y;
    }
  }

  /** Whitespace after a word is what `rstrip` removes. */
  lemma {:induction false} StripRightSpaces(y: string, v: string)
    requires forall i :: 0 <= i < |v| ==> IsSpace(v[i])
    requires y == [] || !IsSpace(y[|y| - 1])
    ensures StripRight(y + v) == y
    decreases |v|
  {
    if v != [] {
      assert (y + v)[..|y + v| - 1] == y + v[..|v| - 1];
      StripRightSpaces(y, v[..|v| - 1]);
    } else {
      assert y + v == y;
    }
  }

  /** A string that neither starts nor ends with whitespace is its own strip. */
  lemma StripUnpadded(x: string)
    requires x != [] && !IsSpace(x[0]) && !IsSpace(x[|x| - 1])
    ensures Strip(x) == x
  {
    StripLeftSpaces([], x);
    assert [] + x == x;
    StripRightSpaces(x, []);
    assert x + [] == x;
  }

  /** A run of `c` in front is what `lstrip(c)` removes. */
  lemma {:induction false} StripCharLeftRun(w: string, y: string, c: char)
    requires forall i :: 0 <= i < |w| ==> w[i] == c
    requires y == [] || y[0] != c
    ensures StripCharLeft(w + y, c) == y
    decreases |w|
  {
    if w != [] {
      assert (w + y)[1..] == w[1..] + y;
      StripCharLeftRun(w[1..], y, c);
    } else {
      assert w + y == y;
    }
  }

  /** A run of `c` at the end is what `rstrip(c)` removes. */
  lemma {:induction false} StripCharRightRun(y: string, v: string, c: char)
    requires forall i :: 0 <= i < |v| ==> v[i] == c
    requires y == [] || y[|y| - 1] != c
    ensures StripCharRight(y + v, c) == y
    decreases |v|
  {
    if v != [] {
      assert (y + v)[..|y + v| - 1] == y + v[..|v| - 1];
      StripCharRightRun(y, v[..|v| - 1], c);
    } else {
      assert y + v == y;
    }
  }

  function LowerChar(c: char): char {
    if 'A' <= c <= 'Z' then (c as int + 32) as char else c
  }

  /** `s.lower()` on the ASCII letters. */
  function Lower(s: string): (r: string)
    ensures |r| == |s|
    ensures forall i :: 0 <= i < |s| ==> r[i] == LowerChar(s[i])
  {
    if s == [] then [] else [LowerChar(s[0])] + Lower(s[1..])
  }

  // ------------------------------------------------ find, rfind, count, in

  /** `sub` occurs in `s` starting at position `j`. */
  predicate OccursAt(s: string, sub: string, j: nat) {
    j + |sub| <= |s| && s[j..j + |sub|] == sub
  }

  predicate EndsWith(s: string, suffix: string) {
    |suffix| <= |s| && s[|s| - |suffix|..] == suffix
  }

  /** `s.find(sub, start)`: the first occurrence at or after `start`, or -1. */
  function Find(s: string, sub: string, start: nat): (i: int)
    ensures i == -1 || start <= i <= |s| - |sub|
    decreases |s| - start
  {
    if start + |sub| > |s| then -1
    else if OccursAt(s, sub, start) then start
    else Find(s, sub, start + 1)
  }

  /** `Find` returns an occurrence, and no occurrence between `start` and it
      (or anywhere from `start` on, when it returns -1). */
  lemma {:induction false} FindSpec(s: string, sub: string, start: nat)
    ensures var i := Find(s, sub, start);
      && (i == -1 || OccursAt(s, sub, i))
      && forall j :: start <= j && (i == -1 || j < i) ==> !OccursAt(s, sub, j)
    decreases |s| - start
  {
    if start + |sub| <= |s| && !OccursAt(s, sub, start) {
      FindSpec(s, sub, start + 1);
    }
  }

  /** `sub in s` */
  predicate Contains(s: string, sub: string) {
    Find(s, sub, 0) >= 0
  }

  lemma ContainsAt(s: string, sub: string, j: nat)
    requires OccursAt(s, sub, j)
    ensures Contains(s, sub)
  {
    FindSpec(s, sub, 0);
  }

  /** `s.rfind(c, 0, end)` for one character: the last occurrence before `end`, or -1. */
  function RFindChar(s: string, c: char, end: nat): (i: int)
    ensures -1 <= i < |s| && i < end
  {
    if end == 0 || s == [] then -1
    else if end > |s| then RFindChar(s, c, |s|)
    else if s[end - 1] == c then end - 1
    else RFindChar(s, c, end - 1)
  }

  /** `RFindChar` returns a position holding `c`, with no `c` after it before `end`. */
  lemma {:induction false} RFindCharSpec(s: string, c: char, end: nat)
    ensures var i := RFindChar(s, c, end);
      && (0 <= i ==> s[i] == c)
      && forall j :: i < j < end && j < |s| ==> s[j] != c
  {
    if end > |s| && s != [] {
      RFindCharSpec(s, c, |s|);
    } else if end != 0 && s != [] && s[end - 1] != c {
      RFindCharSpec(s, c, end - 1);
    }
  }

  /** `s.count(sub)`: non-overlapping occurrences, scanning from the left. */
  function Count(s: string, sub: string): nat
    decreases |s|
  {
    if sub == [] then |s| + 1
    else if |s| < |sub| then 0
    else if s[..|sub|] == sub then 1 + Count(s[|sub|..], sub)
    else Count(s[1..], sub)
  }

  /** The text between the first occurrence of `sep` and the next one:
      `s.split(sep)[1]` when `sep` occurs in `s`. */
  function PieceAfterFirst(s: string, sep: string): (r: string)
    requires sep != [] && Contains(s, sep)
    ensures |r| <= |s| - |sep|
    ensures !Contains(r, sep)
  {
    var i := Find(s, sep, 0);
    var rest := s[i + |sep|..];
    var j := Find(rest, sep, 0);
    FindSpec(rest, sep, 0);
    if j < 0 then rest
    else
      var r := rest[..j];
      assert forall k: nat :: OccursAt(r, sep, k) ==> OccursAt(rest, sep, k) by {
        forall k: nat | OccursAt(r, sep, k) ensures OccursAt(rest, sep, k) {
          assert rest[k..k + |sep|] == r[k..k + |sep|];
        }
      }
      FindSpec(r, sep, 0);
      r
  }

  // ------------------------------------------------------------- str(int)

  function DigitChar(d: nat): char
    requires d < 10
  {
    "0123456789"[d]
  }

  function DigitValue(c: char): int {
    c as int - '0' as int
  }

  /** `str(n)` for a natural number: decimal digits without leading zeros. */
  function NatToString(n: nat): (r: string)
    ensures |r| >= 1
    ensures forall i :: 0 <= i < |r| ==> '0' <= r[i] <= '9'
  {
    if n < 10 then [DigitChar(n)] else NatToString(n / 10) + [DigitChar(n % 10)]
  }

  /** Reads a string of decimal digits back as a number. */
  function ParseNat(s: string): int {
    if s == [] then 0 else 10 * ParseNat(s[..|s| - 1]) + DigitValue(s[|s| - 1])
  }

  lemma {:induction false} ParseNatToString(n: nat)
    ensures ParseNat(NatToString(n)) == n
  {
    if n >= 10 {
      ParseNatToString(n / 10);
      var s := NatToString(n);
      assert s[..|s| - 1] == NatToString(n / 10);
    }
  }

  /** Different numbers print differently. */
  lemma NatToStringInjective(m: nat, n: nat)
    requires NatToString(m) == NatToString(n)
    ensures m == n
  {
    ParseNatToString(m);
    ParseNatToString(n);
  }

  /** `str(i)` for any integer. */
  function IntToString(i: int): string {
    if i < 0 then "-" + NatToString(-i) else NatToString(i)
  }

  /** Different integers print differently. */
  lemma IntToStringInjective(m: int, n: int)
    requires IntToString(m) == IntToString(n)
    ensures m == n
  {
    var a, b := IntToString(m), IntToString(n);
    assert a[0] == '-' <==> m < 0;
    assert b[0] == '-' <==> n < 0;
    if m < 0 {
      assert a[1..] == NatToString(-m) && b[1..] == NatToString(-n);
      NatToStringInjective(-m, -n);
    } else {
      NatToStringInjective(m, n);
    }
  }
}
