/**
 * The query-stage heuristics (modules/heuristics/query_heuristics.py):
 * length filter, PII redaction, deduplication, ambiguity detection and
 * intent classification. Each `check` is a function of its configuration,
 * the payload and, for deduplication, the cache state; the stateful part of
 * deduplication is carried out by `Pipeline.Heuristic`.
 */
module QueryHeuristics {
  import opened Text
  import opened Base

  // ----------------------------------------------------- QueryLengthFilter

  datatype LengthConfig = LengthConfig(maxWords: nat, maxChars: nat, maxSentenceLength: nat, autoTruncate: bool)

  const DefaultLengthConfig := LengthConfig(500, 5000, 100, false)

  predicate IsTerminator(c: char) {
    c == '.' || c == '!' || c == '?'
  }

  predicate NoTerminator(s: string) {
    forall k :: 0 <= k < |s| ==> !IsTerminator(s[k])
  }

  function FirstTerminator(s: string): (i: int)
    ensures -1 <= i < |s|
    ensures i >= 0 ==> IsTerminator(s[i]) && NoTerminator(s[..i])
    ensures i < 0 ==> NoTerminator(s)
  {
    if s == [] then -1
    else if IsTerminator(s[0]) then 0
    else
      var j := FirstTerminator(s[1..]);
      if j < 0 then -1
      else
        assert s[..j + 1] == [s[0]] + s[1..][..j];
        j + 1
  }

  /** Length of the run of `.`, `!` and `?` at the front of `s`. */
  function TerminatorRun(s: string): (n: nat)
    ensures n <= |s|
    ensures n < |s| ==> !IsTerminator(s[n])
    ensures s != [] && IsTerminator(s[0]) ==> n >= 1
  {
    if s == [] || !IsTerminator(s[0]) then 0 else 1 + TerminatorRun(s[1..])
  }

  /** `re.split(r'[.!?]+', s)`: the pieces between maximal runs of terminators. */
  function Sentences(s: string): (parts: seq<string>)
    ensures |parts| >= 1
    ensures forall p <- parts :: NoTerminator(p)
    ensures NoTerminator(s) ==> parts == [s]
    decreases |s|
  {
    var i := FirstTerminator(s);
    if i < 0 then [s]
    else
      var n := TerminatorRun(s[i..]);
      [s[..i]] + Sentences(s[i + n..])
  }

  predicate IsLong(sentence: string, limit: nat) {
    |Split(sentence)| > limit
  }

  /** The number of sentences with more than `limit` words. */
  function LongSentenceCount(sentences: seq<string>, limit: nat): (n: nat)
    ensures n <= |sentences|
    ensures n > 0 <==> exists p <- sentences :: IsLong(p, limit)
  {
    if sentences == [] then 0
    else
      var rest := LongSentenceCount(sentences[1..], limit);
      assert (exists p <- sentences :: IsLong(p, limit))
             <==> (IsLong(sentences[0], limit) || (exists p <- sentences[1..] :: IsLong(p, limit))) by {
        assert sentences == [sentences[0]] + sentences[1..];
      }
      (if IsLong(sentences[0], limit) then 1 else 0) + rest
  }

  predicate TooLong(cfg: LengthConfig, query: string) {
    |Split(query)| > cfg.maxWords || |query| > cfg.maxChars
  }

  /** `" ".join(words[:max_words])[:max_chars]`, which never exceeds either limit. */
  function Truncate(cfg: LengthConfig, words: seq<string>): (t: string)
    requires forall w <- words :: w != [] && NoSpace(w)
    ensures |t| <= cfg.maxChars
    ensures |Split(t)| <= cfg.maxWords
    ensures StartsWith(Join(Take(words, cfg.maxWords), " "), t)
  {
    var kept := Take(words, cfg.maxWords);
    var joined := Join(kept, " ");
    assert forall w <- kept :: w in words;
    SplitJoin(kept);
    var t := Take(joined, cfg.maxChars);
    SplitPrefixCount(joined, |t|);
    t
  }

  function LengthCheck(cfg: LengthConfig, input: Payload): (r: HeuristicResult) {
    var query := Render(input);
    var words := Split(query);
    var wordCount, charCount := |words|, |query|;
    if TooLong(cfg, query) then
      if cfg.autoTruncate then
        HeuristicResult(Modified, Some(Str(Truncate(cfg, words))),
          map["original_word_count" := VInt(wordCount), "original_char_count" := VInt(charCount),
              "truncated" := VBool(true)],
          Some("Query truncated from " + IntToString(wordCount) + " words to " + IntToString(cfg.maxWords)))
      else
        HeuristicResult(Failed, None,
          map["word_count" := VInt(wordCount), "char_count" := VInt(charCount),
              "max_words" := VInt(cfg.maxWords), "max_chars" := VInt(cfg.maxChars)],
          Some("Query too long: " + IntToString(wordCount) + " words (max: " + IntToString(cfg.maxWords) + ")"))
    else
      var long := LongSentenceCount(Sentences(query), cfg.maxSentenceLength);
      if long > 0 then
        HeuristicResult(Warning, Some(Str(query)),
          map["long_sentence_count" := VInt(long), "complexity_warning" := VBool(true)],
          Some("Query contains " + IntToString(long) + " overly complex sentences"))
      else
        HeuristicResult(Passed, Some(Str(query)),
          map["word_count" := VInt(wordCount), "char_count" := VInt(charCount)], None)
  }

  /** The filter fails exactly the over-long queries it may not truncate, and
      whatever text it hands on is within both limits. */
  lemma LengthCheckBounds(cfg: LengthConfig, input: Payload)
    ensures var r := LengthCheck(cfg, input);
      && (r.status == Failed <==> TooLong(cfg, Render(input)) && !cfg.autoTruncate)
      && (r.status == Modified <==> TooLong(cfg, Render(input)) && cfg.autoTruncate)
      && (r.status == Failed <==> r.modifiedInput.None?)
      && (r.modifiedInput.Some? ==>
            && r.modifiedInput.value.Str?
            && |r.modifiedInput.value.s| <= cfg.maxChars
            && |Split(r.modifiedInput.value.s)| <= cfg.maxWords)
  {
  }

  /** A query within the limits passes unless one of its sentences is too long,
      and then it is handed on unchanged. */
  lemma LengthCheckSentences(cfg: LengthConfig, input: Payload)
    requires !TooLong(cfg, Render(input))
    ensures var r := LengthCheck(cfg, input);
      && r.modifiedInput == Some(Str(Render(input)))
      && (r.status == Warning <==> exists p <- Sentences(Render(input)) :: IsLong(p, cfg.maxSentenceLength))
      && (r.status == Passed <==> !(exists p <- Sentences(Render(input)) :: IsLong(p, cfg.maxSentenceLength)))
  {
  }

  // ---------------------------------------------------------- PIIRedaction

  datatype PiiKind = Ssn | CreditCard | Email | Phone

  function PiiKindName(k: PiiKind): string {
    match k
    case Ssn => "ssn"
    case CreditCard => "credit_card"
    case Email => "email"
    case Phone => "phone"
  }

  datatype PiiConfig = PiiConfig(
    redactSsn: bool, redactCreditCard: bool, redactEmail: bool, redactPhone: bool, replacement: string)

  const DefaultPiiConfig := PiiConfig(true, true, true, true, "***REDACTED***")

  predicate PiiEnabled(cfg: PiiConfig, k: PiiKind) {
    match k
    case Ssn => cfg.redactSsn
    case CreditCard => cfg.redactCreditCard
    case Email => cfg.redactEmail
    case Phone => cfg.redactPhone
  }

  /** The order in which the source applies the four patterns. */
  const PiiOrder: seq<PiiKind> := [Ssn, CreditCard, Email, Phone]

  /**
   * The regular-expression engine applied to the four fixed PII patterns:
   * `findAll(k, s)` is `re.findall` of kind `k`'s pattern on `s` and
   * `substitute(k, replacement, s)` is the corresponding `re.sub`.
   */
  datatype PiiMatcher = PiiMatcher(
    findAll: (PiiKind, string) -> seq<string>,
    substitute: (PiiKind, string, string) -> string)

  /** The text so far and the `(kind, match)` pairs redacted so far. */
  datatype Redaction = Redaction(text: string, items: seq<(PiiKind, string)>)

  function Tagged(k: PiiKind, matches: seq<string>): (items: seq<(PiiKind, string)>)
    ensures |items| == |matches|
    ensures forall i :: 0 <= i < |items| ==> items[i] == (k, matches[i])
  {
    seq(|matches|, i requires 0 <= i < |matches| => (k, matches[i]))
  }

  function RedactKind(cfg: PiiConfig, m: PiiMatcher, k: PiiKind, acc: Redaction): Redaction {
    if !PiiEnabled(cfg, k) then acc
    else
      var matches := m.findAll(k, acc.text);
      if matches == [] then acc
      else Redaction(m.substitute(k, cfg.replacement, acc.text), acc.items + Tagged(k, matches))
  }

  function RedactKinds(cfg: PiiConfig, m: PiiMatcher, kinds: seq<PiiKind>, acc: Redaction): Redaction {
    if kinds == [] then acc else RedactKinds(cfg, m, kinds[1..], RedactKind(cfg, m, kinds[0], acc))
  }

  /** The names of the kinds that occur among the redacted items, in pattern order. */
  function KindsFound(items: seq<(PiiKind, string)>): seq<string> {
    seq(|FoundKinds(items, PiiOrder)|, i requires 0 <= i < |FoundKinds(items, PiiOrder)| => PiiKindName(FoundKinds(items, PiiOrder)[i]))
  }

  function FoundKinds(items: seq<(PiiKind, string)>, kinds: seq<PiiKind>): seq<PiiKind> {
    if kinds == [] then []
    else (if exists it <- items :: it.0 == kinds[0] then [kinds[0]] else []) + FoundKinds(items, kinds[1..])
  }

  function PiiCheck(cfg: PiiConfig, m: PiiMatcher, input: Payload): (r: HeuristicResult) {
    var query := Render(input);
    var red := RedactKinds(cfg, m, PiiOrder, Redaction(query, []));
    if red.items != [] then
      HeuristicResult(Modified, Some(Str(red.text)),
        map["redacted_count" := VInt(|red.items|), "redacted_types" := VStrs(KindsFound(red.items))],
        Some("Redacted " + IntToString(|red.items|) + " PII items"))
    else
      HeuristicResult(Passed, Some(Str(red.text)), map[], None)
  }

  lemma {:induction false} RedactKindsUntouched(cfg: PiiConfig, m: PiiMatcher, kinds: seq<PiiKind>, acc: Redaction)
    ensures var r := RedactKinds(cfg, m, kinds, acc);
      && |r.items| >= |acc.items|
      && (|r.items| == |acc.items| ==> r == acc)
  {
    if kinds != [] {
      RedactKindsUntouched(cfg, m, kinds[1..], RedactKind(cfg, m, kinds[0], acc));
    }
  }

  /** Some item is redacted exactly when some enabled pattern matches the
      text as the patterns before it left it. */
  lemma {:induction false} RedactKindsFires(cfg: PiiConfig, m: PiiMatcher, kinds: seq<PiiKind>, acc: Redaction)
    ensures |RedactKinds(cfg, m, kinds, acc).items| > |acc.items| <==>
      exists i :: 0 <= i < |kinds| && PiiEnabled(cfg, kinds[i])
        && m.findAll(kinds[i], RedactKinds(cfg, m, kinds[..i], acc).text) != []
  {
    if kinds != [] {
      var k, rest := kinds[0], kinds[1..];
      var acc1 := RedactKind(cfg, m, k, acc);
      RedactKindsFires(cfg, m, rest, acc1);
      RedactKindsUntouched(cfg, m, rest, acc1);
      assert RedactKinds(cfg, m, kinds[..0], acc) == acc;
      forall i | 0 < i < |kinds|
        ensures RedactKinds(cfg, m, kinds[..i], acc) == RedactKinds(cfg, m, rest[..i - 1], acc1)
      {
        assert kinds[..i][0] == k && kinds[..i][1..] == rest[..i - 1];
      }
      var fires := PiiEnabled(cfg, k) && m.findAll(k, acc.text) != [];
      if !fires {
        assert acc1 == acc;
        if exists i :: 0 <= i < |kinds| && PiiEnabled(cfg, kinds[i])
             && m.findAll(kinds[i], RedactKinds(cfg, m, kinds[..i], acc).text) != [] {
          var i :| 0 <= i < |kinds| && PiiEnabled(cfg, kinds[i])
             && m.findAll(kinds[i], RedactKinds(cfg, m, kinds[..i], acc).text) != [];
          assert i > 0 && rest[i - 1] == kinds[i];
        }
        if exists j :: 0 <= j < |rest| && PiiEnabled(cfg, rest[j])
             && m.findAll(rest[j], RedactKinds(cfg, m, rest[..j], acc1).text) != [] {
          var j :| 0 <= j < |rest| && PiiEnabled(cfg, rest[j])
             && m.findAll(rest[j], RedactKinds(cfg, m, rest[..j], acc1).text) != [];
          assert kinds[j + 1] == rest[j];
        }
      } else {
        assert |acc1.items| > |acc.items|;
      }
    }
  }

  /** Redaction modifies the query exactly when some enabled pattern matched
      the query as the earlier patterns left it; the count reported is the
      number of redacted items. When nothing matched, the query is handed on
      unchanged. */
  lemma PiiCheckOutcome(cfg: PiiConfig, m: PiiMatcher, input: Payload)
    ensures var r := PiiCheck(cfg, m, input);
      var start := Redaction(Render(input), []);
      var red := RedactKinds(cfg, m, PiiOrder, start);
      && (r.status == Modified || r.status == Passed)
      && (r.status == Modified <==>
            exists i :: 0 <= i < |PiiOrder| && PiiEnabled(cfg, PiiOrder[i])
              && m.findAll(PiiOrder[i], RedactKinds(cfg, m, PiiOrder[..i], start).text) != [])
      && r.modifiedInput == Some(Str(red.text))
      && (r.status == Modified ==>
            "redacted_count" in r.metadata && r.metadata["redacted_count"] == VInt(|red.items|) && |red.items| > 0)
      && (r.status == Passed ==> r.modifiedInput == Some(Str(Render(input))))
  {
    RedactKindsUntouched(cfg, m, PiiOrder, Redaction(Render(input), []));
    RedactKindsFires(cfg, m, PiiOrder, Redaction(Render(input), []));
  }

  lemma {:induction false} RedactKindsAgree(cfg: PiiConfig, m1: PiiMatcher, m2: PiiMatcher, kinds: seq<PiiKind>, acc: Redaction)
    requires forall k, s :: PiiEnabled(cfg, k) ==> m1.findAll(k, s) == m2.findAll(k, s)
    requires forall k, repl, s :: PiiEnabled(cfg, k) ==> m1.substitute(k, repl, s) == m2.substitute(k, repl, s)
    ensures RedactKinds(cfg, m1, kinds, acc) == RedactKinds(cfg, m2, kinds, acc)
  {
    if kinds != [] {
      assert RedactKind(cfg, m1, kinds[0], acc) == RedactKind(cfg, m2, kinds[0], acc);
      RedactKindsAgree(cfg, m1, m2, kinds[1..], RedactKind(cfg, m1, kinds[0], acc));
    }
  }

  /** A pattern that is switched off in the configuration has no effect on the outcome. */
  lemma PiiIgnoresDisabledKinds(cfg: PiiConfig, m1: PiiMatcher, m2: PiiMatcher, input: Payload)
    requires forall k, s :: PiiEnabled(cfg, k) ==> m1.findAll(k, s) == m2.findAll(k, s)
    requires forall k, repl, s :: PiiEnabled(cfg, k) ==> m1.substitute(k, repl, s) == m2.substitute(k, repl, s)
    ensures PiiCheck(cfg, m1, input) == PiiCheck(cfg, m2, input)
  {
    RedactKindsAgree(cfg, m1, m2, PiiOrder, Redaction(Render(input), []));
  }

  // ---------------------------------------------------- QueryDeduplication

  type Hash = string

  datatype DedupConfig = DedupConfig(cacheSize: nat, similarityThreshold: real, useExactMatch: bool)

  const DefaultDedupConfig := DedupConfig(100, 0.9, true)

  /** `query.lower().strip()`, the text whose MD5 digest keys the cache. */
  function Normalize(query: string): string {
    Strip(Lower(query))
  }

  function WordSet(q: string): set<string> {
    set w | w in Split(Lower(q))
  }

  /** Jaccard similarity of the two queries' lower-cased word sets, 0 when either is empty. */
  function Similarity(q1: string, q2: string): (sim: real)
    ensures 0.0 <= sim <= 1.0
  {
    var a, b := WordSet(q1), WordSet(q2);
    if a == {} || b == {} then 0.0
    else
      SubsetCard(a * b, a + b);
      SubsetCard(a, a + b);
      RatioBounds(|a * b| as real, |a + b| as real);
      (|a * b| as real) / (|a + b| as real)
  }

  /** Similarity is symmetric, and it is 1 exactly for two queries with the same non-empty word set. */
  lemma SimilarityOneIffSameWords(q1: string, q2: string)
    ensures Similarity(q1, q2) == Similarity(q2, q1)
    ensures Similarity(q1, q2) == 1.0 <==> WordSet(q1) == WordSet(q2) && WordSet(q1) != {}
  {
    var a, b := WordSet(q1), WordSet(q2);
    assert a * b == b * a && a + b == b + a;
    if a != {} && b != {} {
      SubsetCard(a * b, a + b);
      SubsetCard(a, a + b);
      RatioBounds(|a * b| as real, |a + b| as real);
      assert Similarity(q1, q2) == (|a * b| as real) / (|a + b| as real);
      if Similarity(q1, q2) == 1.0 {
        assert |a * b| == |a + b|;
        assert a * b == a + b;
        assert a <= a + b && a * b <= a;
        assert a == b;
      }
      if a == b {
        assert a * b == a + b;
      }
    }
  }

  /** The cache dict (hash to cached query) and the `query_hashes` list. */
  datatype DedupCache = DedupCache(entries: map<Hash, string>, order: seq<Hash>)

  const EmptyCache := DedupCache(map[], [])

  /** The cache holds exactly the listed hashes, each once, and no more than `size` of them. */
  predicate CacheValid(c: DedupCache, size: nat) {
    && c.entries.Keys == (set h | h in c.order)
    && Distinct(c.order)
    && |c.order| <= size
  }

  /** The hash listed at position `j` is cached with a query at least `threshold` similar to `query`. */
  predicate SimilarAt(c: DedupCache, query: string, threshold: real, j: nat)
    requires j < |c.order|
  {
    c.order[j] in c.entries && Similarity(query, c.entries[c.order[j]]) >= threshold
  }

  lemma CachedIffListed(c: DedupCache, size: nat, h: Hash)
    requires CacheValid(c, size)
    ensures h in c.entries <==> h in c.order
  {
    assert c.entries.Keys == set x | x in c.order;
    assert h in c.entries <==> h in c.entries.Keys;
    assert h in c.order <==> h in (set x | x in c.order);
  }

  /** The index of the first listed hash whose cached query is at least
      `threshold` similar to `query`, or -1. */
  function FirstSimilar(c: DedupCache, query: string, threshold: real, from: nat): (i: int)
    requires from <= |c.order|
    ensures i == -1 || (from <= i < |c.order| && SimilarAt(c, query, threshold, i))
    ensures forall j :: from <= j < |c.order| && (i == -1 || j < i) ==> !SimilarAt(c, query, threshold, j)
    decreases |c.order| - from
  {
    if from == |c.order| then -1
    else if SimilarAt(c, query, threshold, from) then from
    else FirstSimilar(c, query, threshold, from + 1)
  }

  datatype DedupOutcome = ExactDuplicate | SimilarTo(index: nat) | Fresh

  function DedupDecision(cfg: DedupConfig, c: DedupCache, h: Hash, query: string): (o: DedupOutcome)
    ensures o.SimilarTo? ==> o.index < |c.order|
  {
    if cfg.useExactMatch && h in c.entries then ExactDuplicate
    else
      var i := FirstSimilar(c, query, cfg.similarityThreshold, 0);
      if i >= 0 then SimilarTo(i) else Fresh
  }

  function DedupWarning(c: DedupCache, o: DedupOutcome, h: Hash, query: string): HeuristicResult
    requires o.SimilarTo? ==> o.index < |c.order| && c.order[o.index] in c.entries
  {
    match o
    case ExactDuplicate =>
      HeuristicResult(Warning, Some(Str(query)),
        map["duplicate" := VBool(true), "match_type" := VStr("exact"), "cached_hash" := VStr(h)],
        Some("Exact duplicate query detected"))
    case SimilarTo(i) =>
      var cached := c.order[i];
      HeuristicResult(Warning, Some(Str(query)),
        map["duplicate" := VBool(true), "match_type" := VStr("similar"),
            "similarity" := VReal(Similarity(query, c.entries[cached])), "cached_hash" := VStr(cached)],
        Some("Similar query detected"))
    case Fresh =>
      HeuristicResult(Passed, Some(Str(query)),
        map["duplicate" := VBool(false), "query_hash" := VStr(h)], None)
  }

  /**
   * The bookkeeping for a fresh query as the source writes it: store it,
   * append its hash, and when the list is over size pop the oldest hash and
   * delete its entry. `None` stands for the `KeyError` that `del` raises when
   * that entry is already gone.
   */
  function AdmitAsWritten(c: DedupCache, h: Hash, query: string, size: nat): Option<DedupCache> {
    var entries := c.entries[h := query];
    var order := c.order + [h];
    if |order| > size then
      var oldest := order[0];
      if oldest in entries then Some(DedupCache(entries - {oldest}, order[1..])) else None
    else Some(DedupCache(entries, order))
  }

  /** For a hash not yet cached, the bookkeeping as written keeps the cache valid. */
  lemma AppendFresh(c: DedupCache, h: Hash, query: string, size: nat)
    requires CacheValid(c, size) && h !in c.entries
    ensures Distinct(c.order + [h])
    ensures c.entries[h := query].Keys == (set x | x in c.order + [h])
  {
    var order := c.order + [h];
    CachedIffListed(c, size, h);
    forall i, j | 0 <= i < j < |order| ensures order[i] != order[j] {
      assert order[i] == c.order[i];
      if j == |c.order| {
        assert c.order[i] in c.order;
      } else {
        assert order[j] == c.order[j];
      }
    }
    forall x ensures x in c.entries[h := query].Keys <==> x in order {
      CachedIffListed(c, size, x);
      assert x in order <==> x in c.order || x == h;
    }
  }

  lemma DropOldest(entries: map<Hash, string>, order: seq<Hash>)
    requires order != [] && Distinct(order) && entries.Keys == (set x | x in order)
    ensures Distinct(order[1..])
    ensures (entries - {order[0]}).Keys == (set x | x in order[1..])
  {
    var rest := order[1..];
    forall x ensures x in rest <==> x in order && x != order[0] {
      if x in rest {
        var k :| 0 <= k < |rest| && rest[k] == x;
        assert order[k + 1] == x;
      }
      if x in order && x != order[0] {
        var k :| 0 <= k < |order| && order[k] == x;
        assert rest[k - 1] == x;
      }
    }
  }

  lemma AdmitFreshKeepsValid(c: DedupCache, h: Hash, query: string, size: nat)
    requires CacheValid(c, size) && h !in c.entries
    ensures AdmitAsWritten(c, h, query, size).Some?
    ensures CacheValid(AdmitAsWritten(c, h, query, size).value, size)
  {
    AppendFresh(c, h, query, size);
    var order := c.order + [h];
    if |order| > size {
      assert order[0] in order;
      DropOldest(c.entries[h := query], order);
    }
  }

  /**
   * The hash list after caching `h`: a listed hash keeps its place; a new
   * one goes to the back, and when the list is then over size the oldest
   * (front) hash is evicted.
   */
  function FifoOrder(order: seq<Hash>, h: Hash, size: nat): seq<Hash> {
    if h in order then order
    else if |order| + 1 > size then (order + [h])[1..]
    else order + [h]
  }

  /**
   * The corrected bookkeeping: a hash that is already cached (possible when
   * exact matching is off) only has its entry refreshed, and is not listed a
   * second time.
   */
  function Admit(c: DedupCache, h: Hash, query: string, size: nat): (r: DedupCache)
    requires CacheValid(c, size)
    ensures CacheValid(r, size)
    ensures r.entries.Keys <= c.entries.Keys + {h}
    ensures size > 0 ==> h in r.entries && r.entries[h] == query
    ensures r.order == FifoOrder(c.order, h, size)
    ensures forall x :: x in r.entries && x != h ==> x in c.entries && r.entries[x] == c.entries[x]
  {
    if h in c.entries then DedupCache(c.entries[h := query], c.order)
    else
      AdmitFreshKeepsValid(c, h, query, size);
      var r := AdmitAsWritten(c, h, query, size).value;
      CachedIffListed(c, size, h);
      assert c.order != [] ==> c.order[0] in c.order;
      r
  }

  /** One deduplication check as the source writes it; `None` is the `KeyError`. */
  function DedupCheckAsWritten(cfg: DedupConfig, digest: string -> Hash, c: DedupCache, input: Payload)
    : Option<(HeuristicResult, DedupCache)>
  {
    var query := Render(input);
    var h := digest(Normalize(query));
    var o := DedupDecision(cfg, c, h, query);
    if !o.Fresh? then Some((DedupWarning(c, o, h, query), c))
    else
      match AdmitAsWritten(c, h, query, cfg.cacheSize)
      case Some(c') => Some((DedupWarning(c, o, h, query), c'))
      case None => None
  }

  /** One deduplication check with the corrected bookkeeping: the result and the new cache. */
  function DedupCheck(cfg: DedupConfig, digest: string -> Hash, c: DedupCache, input: Payload)
    : (out: (HeuristicResult, DedupCache))
    requires CacheValid(c, cfg.cacheSize)
    ensures CacheValid(out.1, cfg.cacheSize)
  {
    var query := Render(input);
    var h := digest(Normalize(query));
    var o := DedupDecision(cfg, c, h, query);
    if !o.Fresh? then (DedupWarning(c, o, h, query), c)
    else (DedupWarning(c, o, h, query), Admit(c, h, query, cfg.cacheSize))
  }

  /** A query is flagged exactly when its hash is cached (with exact matching on)
      or some cached query is similar enough; a flagged query leaves the cache
      alone, a fresh one is cached under its hash. */
  lemma DedupCheckOutcome(cfg: DedupConfig, digest: string -> Hash, c: DedupCache, input: Payload)
    requires CacheValid(c, cfg.cacheSize)
    ensures var (r, c') := DedupCheck(cfg, digest, c, input);
      var query := Render(input);
      var h := digest(Normalize(query));
      && r.modifiedInput == Some(Str(query))
      && (r.status == Warning <==>
            (cfg.useExactMatch && h in c.entries)
            || exists j :: 0 <= j < |c.order| && SimilarAt(c, query, cfg.similarityThreshold, j))
      && (r.status == Warning || r.status == Passed)
      && (r.status == Warning ==> c' == c)
      && (r.status == Passed && cfg.cacheSize > 0 ==> h in c'.entries && c'.entries[h] == query)
      && (r.status == Passed ==> c'.order == FifoOrder(c.order, h, cfg.cacheSize))
      && (r.status == Passed ==>
            forall x :: x in c'.entries && x != h ==> x in c.entries && c'.entries[x] == c.entries[x])
  {
  }

  /** With exact matching on (the default) the source's own bookkeeping never
      fails and agrees with the corrected one. */
  lemma DedupAsWrittenSafeWithExactMatch(cfg: DedupConfig, digest: string -> Hash, c: DedupCache, input: Payload)
    requires cfg.useExactMatch && CacheValid(c, cfg.cacheSize)
    ensures DedupCheckAsWritten(cfg, digest, c, input) == Some(DedupCheck(cfg, digest, c, input))
  {
    var query := Render(input);
    var h := digest(Normalize(query));
    if DedupDecision(cfg, c, h, query).Fresh? {
      AdmitFreshKeepsValid(c, h, query, cfg.cacheSize);
    }
  }

  /** With exact matching off and a cache of one entry, the queries "", "" and
      "x" in a row make the source delete a hash that is no longer cached. */
  lemma DedupAsWrittenKeyError(digest: string -> Hash)
    requires digest("") != digest("x")
    ensures var cfg := DedupConfig(1, 0.9, false);
      var first := DedupCheckAsWritten(cfg, digest, EmptyCache, Str(""));
      && first.Some?
      && var second := DedupCheckAsWritten(cfg, digest, first.value.1, Str(""));
      && second.Some?
      && DedupCheckAsWritten(cfg, digest, second.value.1, Str("x")) == None
  {
    KeyErrorFirstQuery(digest);
    KeyErrorRepeatedQuery(digest);
    KeyErrorThirdQuery(digest);
  }

  /** The first "" is cached. */
  lemma KeyErrorFirstQuery(digest: string -> Hash)
    ensures var r := DedupCheckAsWritten(DedupConfig(1, 0.9, false), digest, EmptyCache, Str(""));
      r.Some? && r.value.1 == DedupCache(map[digest("") := ""], [digest("")])
  {
    NormalizedProbes();
    hide DedupWarning, Similarity, Normalize;
    var h0 := digest("");
    assert Render(Str("")) == "";
    assert FirstSimilar(EmptyCache, "", 0.9, 0) == -1;
    assert EmptyCache.order + [h0] == [h0];
    assert EmptyCache.entries[h0 := ""] == map[h0 := ""];
  }

  /** The repeated "" is not similar to the cached one (no words), so it is
      admitted again: its hash is listed twice, and evicting the older copy
      drops the only cache entry. */
  lemma KeyErrorRepeatedQuery(digest: string -> Hash)
    ensures var h0 := digest("");
      var r := DedupCheckAsWritten(DedupConfig(1, 0.9, false), digest, DedupCache(map[h0 := ""], [h0]), Str(""));
      r.Some? && r.value.1 == DedupCache(map[], [h0])
  {
    NormalizedProbes();
    hide DedupWarning, Normalize, WordSet;
    var h0 := digest("");
    var c1 := DedupCache(map[h0 := ""], [h0]);
    assert Render(Str("")) == "";
    assert Similarity("", "") == 0.0;
    assert !SimilarAt(c1, "", 0.9, 0);
    assert FirstSimilar(c1, "", 0.9, 0) == -1;
    assert (c1.order + [h0])[1..] == [h0];
    assert c1.entries[h0 := ""] - {h0} == map[];
  }

  lemma NormalizedProbes()
    ensures Normalize("") == "" && WordSet("") == {}
    ensures Normalize("x") == "x"
  {
    assert Lower("x") == "x";
  }

  /** "x" is fresh; admitting it evicts the listed hash of "", which is no
      longer in the cache: the `KeyError`. */
  lemma KeyErrorThirdQuery(digest: string -> Hash)
    requires digest("") != digest("x")
    ensures var h0 := digest("");
      DedupCheckAsWritten(DedupConfig(1, 0.9, false), digest, DedupCache(map[], [h0]), Str("x")) == None
  {
    NormalizedProbes();
    hide DedupWarning, Similarity, Normalize;
    var h0 := digest("");
    var c2 := DedupCache(map[], [h0]);
    var x := "x";
    assert Render(Str(x)) == x;
    assert !SimilarAt(c2, x, 0.9, 0);
    assert FirstSimilar(c2, x, 0.9, 0) == -1;
    assert (c2.order + [digest(x)])[0] == h0;
  }

  // ---------------------------------------------------- AmbiguityDetection

  datatype AmbiguityConfig = AmbiguityConfig(minQueryLength: int, vagueWords: seq<string>, pronounThreshold: real)

  const DefaultAmbiguityConfig :=
    AmbiguityConfig(3, ["this", "that", "it", "something", "stuff", "thing", "things"], 0.3)

  const QuestionWords: seq<string> := ["what", "when", "where", "who", "why", "how", "which"]

  /** The words of `words` that are in `vocabulary`, in order. */
  function WordsIn(words: seq<string>, vocabulary: seq<string>): (found: seq<string>)
    ensures |found| <= |words|
    ensures forall w <- found :: w in words && w in vocabulary
    ensures (exists w <- words :: w in vocabulary) <==> found != []
  {
    if words == [] then []
    else (if words[0] in vocabulary then [words[0]] else []) + WordsIn(words[1..], vocabulary)
  }

  /** `vague_count / len(words)`, 0 for no words. */
  function VagueRatio(cfg: AmbiguityConfig, words: seq<string>): (ratio: real)
    ensures 0.0 <= ratio <= 1.0
    ensures ratio == 0.0 <==> (forall w <- words :: w !in cfg.vagueWords)
  {
    if words == [] then 0.0
    else
      var found := WordsIn(words, cfg.vagueWords);
      RatioBounds(|found| as real, |words| as real);
      (|found| as real) / (|words| as real)
  }

  function AmbiguityCheck(cfg: AmbiguityConfig, input: Payload): (r: HeuristicResult) {
    var query := Render(input);
    var words := Split(Lower(query));
    if |words| < cfg.minQueryLength then
      HeuristicResult(Warning, Some(Str(query)),
        map["ambiguous" := VBool(true), "reason" := VStr("too_short"), "word_count" := VInt(|words|)],
        Some("Query too short - may be ambiguous"))
    else
      var ratio := VagueRatio(cfg, words);
      if ratio > cfg.pronounThreshold then
        HeuristicResult(Warning, Some(Str(query)),
          map["ambiguous" := VBool(true), "reason" := VStr("too_vague"), "vague_word_ratio" := VReal(ratio),
              "vague_words_found" := VStrs(WordsIn(words, cfg.vagueWords))],
          Some("Query contains too many vague words"))
      else
        HeuristicResult(Passed, Some(Str(query)),
          map["ambiguous" := VBool(false),
              "has_question_word" := VBool(exists q <- QuestionWords :: q in words),
              "clarity_score" := VReal(1.0 - ratio)],
          None)
  }

  /** A query passes exactly when it has enough words and few enough vague ones;
      otherwise it is only warned about, never failed, and is always handed on;
      the clarity score of a passing query lies between 0 and 1. */
  lemma AmbiguityVerdict(cfg: AmbiguityConfig, input: Payload)
    ensures var r := AmbiguityCheck(cfg, input);
      var words := Split(Lower(Render(input)));
      && (r.status == Passed || r.status == Warning)
      && (r.status == Passed <==> |words| >= cfg.minQueryLength && VagueRatio(cfg, words) <= cfg.pronounThreshold)
      && r.modifiedInput == Some(Str(Render(input)))
      && (r.status == Passed ==> 0.0 <= r.metadata["clarity_score"].r <= 1.0)
  {
  }

  // ----------------------------------------------- QueryIntentClassification

  /** One entry of the ordered `intents` dict: a name and its keywords. */
  datatype Intent = Intent(name: string, keywords: seq<string>)

  const DefaultIntents: seq<Intent> := [
    Intent("search", ["find", "search", "look for", "show me", "get"]),
    Intent("calculation", ["calculate", "compute", "sum", "total", "average", "mean"]),
    Intent("summarization", ["summarize", "summary", "overview", "explain", "describe"]),
    Intent("comparison", ["compare", "difference", "versus", "vs", "better", "worse"]),
    Intent("question", ["what", "when", "where", "who", "why", "how", "which"])
  ]

  predicate Matches(intent: Intent, query: string) {
    exists k <- intent.keywords :: Contains(query, k)
  }

  /** The names of the intents with a keyword in `query`, in configuration order. */
  function DetectedIntents(intents: seq<Intent>, query: string): seq<string> {
    if intents == [] then []
    else (if Matches(intents[0], query) then [intents[0].name] else []) + DetectedIntents(intents[1..], query)
  }

  function PrimaryIntent(detected: seq<string>): string {
    if detected == [] then "general" else detected[0]
  }

  /** The classification loop: for each intent, stop at its first keyword found in the query. */
  method ClassifyIntents(intents: seq<Intent>, query: string) returns (detected: seq<string>)
    ensures detected == DetectedIntents(intents, query)
  {
    hide Contains;
    detected := [];
    var i := 0;
    while i < |intents|
      invariant 0 <= i <= |intents|
      invariant detected + DetectedIntents(intents[i..], query) == DetectedIntents(intents, query)
    {
      var keywords := intents[i].keywords;
      var j := 0;
      var found := false;
      while j < |keywords| && !found
        invariant 0 <= j <= |keywords|
        invariant found <==> exists k <- keywords[..j] :: Contains(query, k)
      {
        found := Contains(query, keywords[j]);
        assert keywords[..j + 1] == keywords[..j] + [keywords[j]];
        j := j + 1;
      }
      assert found <==> Matches(intents[i], query) by {
        if !found {
          assert j == |keywords|;
          assert keywords[..j] == keywords;
        }
      }
      if found {
        detected := detected + [intents[i].name];
      }
      assert intents[i..][1..] == intents[i + 1..];
      i := i + 1;
    }
  }

  function IntentCheck(intents: seq<Intent>, input: Payload): (r: HeuristicResult) {
    var detected := DetectedIntents(intents, Lower(Render(input)));
    var primary := PrimaryIntent(detected);
    HeuristicResult(Passed, Some(input),
      map["primary_intent" := VStr(primary), "all_intents" := VStrs(detected),
          "intent_count" := VInt(|detected|)],
      Some("Classified as '" + primary + "' intent"))
  }

  /** An intent is detected exactly when one of its keywords occurs in the query. */
  lemma {:induction false} DetectedIntentsIff(intents: seq<Intent>, query: string, name: string)
    ensures name in DetectedIntents(intents, query)
            <==> exists j :: 0 <= j < |intents| && intents[j].name == name && Matches(intents[j], query)
  {
    if intents != [] {
      DetectedIntentsIff(intents[1..], query, name);
      if name in DetectedIntents(intents[1..], query) {
        var j :| 0 <= j < |intents[1..]| && intents[1..][j].name == name && Matches(intents[1..][j], query);
        assert intents[j + 1] == intents[1..][j];
      }
      if exists j :: 0 <= j < |intents| && intents[j].name == name && Matches(intents[j], query) {
        var j :| 0 <= j < |intents| && intents[j].name == name && Matches(intents[j], query);
        if j > 0 {
          assert intents[1..][j - 1] == intents[j];
        }
      }
    }
  }

  /** The primary intent is the first configured intent that matches, and
      "general" when none does. */
  lemma {:induction false} PrimaryIsFirstMatch(intents: seq<Intent>, query: string)
    ensures var p := PrimaryIntent(DetectedIntents(intents, query));
      && ((forall j :: 0 <= j < |intents| ==> !Matches(intents[j], query)) ==> p == "general")
      && (forall j :: 0 <= j < |intents| && Matches(intents[j], query)
                      && (forall k :: 0 <= k < j ==> !Matches(intents[k], query))
                      ==> p == intents[j].name)
  {
    if intents != [] {
      PrimaryIsFirstMatch(intents[1..], query);
      if !Matches(intents[0], query) {
        forall j | 0 <= j < |intents| - 1 ensures intents[1..][j] == intents[j + 1] {}
      }
    }
  }

  /** Classification always passes and hands on its input unchanged. */
  lemma IntentCheckTransparent(intents: seq<Intent>, input: Payload)
    ensures IntentCheck(intents, input).status == Passed
    ensures IntentCheck(intents, input).modifiedInput == Some(input)
  {
  }
}
