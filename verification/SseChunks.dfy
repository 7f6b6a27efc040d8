/** The parser against a line-by-line reading of the whole stream, for every way of cutting it. */
module SseChunks {
  import opened Prelude
  import opened SseParser

  // ---- The reference: lines first, then events ---------------------------

  /** The terminated lines of a complete stream; CR, LF and CRLF each end a line. */
  function Lines(s: Bytes): seq<Bytes>
    decreases |s|
  {
    var i := EolPos(s);
    if i == |s| then [] else [s[..i]] + Lines(s[Consumed(s, i)..])
  }

  function Run(max: nat, a: Acc, lines: seq<Bytes>): Acc
    decreases |lines|
  {
    if lines == [] then a else Run(max, ProcessLine(max, a, lines[0]), lines[1..])
  }

  function Reference(max: nat, stream: Bytes): seq<Callback> { Run(max, FRESH, Lines(stream)).out }

  lemma {:induction false} RunConcat(max: nat, a: Acc, l: seq<Bytes>, m: seq<Bytes>)
    ensures Run(max, a, l + m) == Run(max, Run(max, a, l), m)
    decreases |l|
  {
    if l == [] {
      assert [] + m == m;
    } else {
      assert (l + m)[1..] == l[1..] + m;
      RunConcat(max, ProcessLine(max, a, l[0]), l[1..], m);
    }
  }

  // ---- What a partial stream already decides -----------------------------

  function Decided(s: Bytes): seq<Bytes>
    decreases |s|
  {
    match NextLine(s)
    case Some((line, rest)) => [line] + Decided(rest)
    case None => []
  }

  function Tail(s: Bytes): Bytes
    decreases |s|
  {
    match NextLine(s)
    case Some((line, rest)) => Tail(rest)
    case None => s
  }

  lemma {:induction false} TailRests(s: Bytes)
    ensures NextLine(Tail(s)).None?
    decreases |s|
  {
    if NextLine(s).Some? { TailRests(NextLine(s).value.1); }
  }

  lemma {:induction false} DecidedRun(max: nat, pending: Bytes, a: Acc)
    ensures Drain(max, pending, a) ==
      var b := Run(max, a, Decided(pending));
      if Undecided(Tail(pending)) then State(Tail(pending), b) else Clip(max, Tail(pending), b)
    decreases |pending|
  {
    match NextLine(pending)
    case Some((line, rest)) =>
      DecidedRun(max, rest, ProcessLine(max, a, line));
      assert ([line] + Decided(rest))[1..] == Decided(rest);
    case None =>
  }

  /** Closing the stream decides one more line when it ends in a CR. */
  function LastLine(tail: Bytes): seq<Bytes> { if Undecided(tail) then [tail[..|tail| - 1]] else [] }

  lemma {:induction false} LinesSplit(s: Bytes)
    ensures Lines(s) == Decided(s) + LastLine(Tail(s))
    decreases |s|
  {
    var i := EolPos(s);
    if i < |s| {
      LinesSplit(s[Consumed(s, i)..]);
      if Undecided(s) {
        assert s[Consumed(s, i)..] == [];
      }
    }
  }

  lemma EolPosIs(s: Bytes, i: nat)
    requires i <= |s| && (i < |s| ==> IsEol(s[i]))
    requires forall k :: 0 <= k < i ==> !IsEol(s[k])
    ensures EolPos(s) == i
  {}

  lemma EolPosConcat(s: Bytes, d: Bytes)
    ensures EolPos(s + d) == if EolPos(s) < |s| then EolPos(s) else |s| + EolPos(d)
  {
    EolPosIs(s + d, if EolPos(s) < |s| then EolPos(s) else |s| + EolPos(d));
  }

  lemma NextLineExtends(s: Bytes, d: Bytes)
    requires NextLine(s).Some?
    ensures NextLine(s + d) == Some((NextLine(s).value.0, NextLine(s).value.1 + d))
  {
    EolPosConcat(s, d);
    var i := EolPos(s);
    assert (s + d)[..i] == s[..i];
    assert (s + d)[Consumed(s, i)..] == s[Consumed(s, i)..] + d;
  }

  lemma {:induction false} TailExtends(s: Bytes, d: Bytes)
    ensures Decided(s + d) == Decided(s) + Decided(Tail(s) + d)
    ensures Tail(s + d) == Tail(Tail(s) + d)
    decreases |s|
  {
    if NextLine(s).Some? {
      NextLineExtends(s, d);
      TailExtends(NextLine(s).value.1, d);
    }
  }

  // ---- Fed in one piece --------------------------------------------------

  lemma CloseExact(max: nat, tail: Bytes, a: Acc, s: State)
    requires NextLine(tail).None?
    requires s == if Undecided(tail) then State(tail, a) else Clip(max, tail, a)
    ensures Close(max, s).acc.out == Run(max, a, LastLine(tail)).out
  {
    if Undecided(tail) {
      var x := tail + [LF];
      var i := EolPos(tail);
      EolPosConcat(tail, [LF]);
      assert x[..i] == tail[..|tail| - 1] && Consumed(x, i) == |x|;
      assert x[Consumed(x, i)..] == [];
      assert Drain(max, x, a) == Drain(max, [], ProcessLine(max, a, tail[..|tail| - 1]));
      assert Run(max, a, [tail[..|tail| - 1]]) == ProcessLine(max, a, tail[..|tail| - 1]);
    }
  }

  /** A stream fed in one call gives the callbacks of its lines, however long they are. */
  lemma WholeFeed(max: nat, stream: Bytes)
    ensures Output(max, [stream]) == Reference(max, stream)
  {
    var before := FeedAll(max, State([], FRESH), []);
    assert [stream][..0] == [];
    assert [] + stream == stream;
    var s := FeedAll(max, State([], FRESH), [stream]);
    DecidedRun(max, stream, FRESH);
    TailRests(stream);
    if stream == [] {
      assert s == Drain(max, stream, FRESH);
    }
    CloseExact(max, Tail(stream), Run(max, FRESH, Decided(stream)), s);
    LinesSplit(stream);
    RunConcat(max, FRESH, Decided(stream), LastLine(Tail(stream)));
  }

  // ---- Fed in pieces -----------------------------------------------------

  const DATA_FIELD: Bytes := [100, 97, 116, 97, 58]  // "data:"

  predicate DataLine(first: bool, line: Bytes) { DATA_FIELD <= Text(first, line) }

  /** A line that survives being cut: short enough to be kept whole, or a data field. */
  predicate LineFits(max: nat, first: bool, line: Bytes) { |line| <= max + SLACK || DataLine(first, line) }

  /** What is left of an overlong line when it is clipped and goes on at c. */
  function Clipped(max: nat, line: Bytes, c: nat): Bytes
    requires max + SLACK <= c <= |line|
  {
    line[..max + SLACK] + line[c..]
  }

  /** Whatever the line loses past the limit, it leaves the parser as it would whole. */
  predicate SaysTheSame(max: nat, a: Acc, line: Bytes) {
    forall c :: max + SLACK < c <= |line| ==> ProcessLine(max, a, Clipped(max, line, c)) == ProcessLine(max, a, line)
  }

  /** Clipping flags no event that is not flagged already. */
  predicate FlagsNothing(a: Acc, line: Bytes) { a.truncated || (a.data == [] && !(DATA <= line)) }

  /** A line that can be cut anywhere when it comes after a: it fits, or its loss makes no difference. */
  predicate LineSafe(max: nat, a: Acc, line: Bytes) {
    LineFits(max, a.firstLine, line) || (SaysTheSame(max, a, line) && FlagsNothing(a, line))
  }

  /** Each of the lines, where it stands. */
  predicate Safe(max: nat, a: Acc, lines: seq<Bytes>)
    decreases |lines|
  {
    lines == [] || (LineSafe(max, a, lines[0]) && Safe(max, ProcessLine(max, a, lines[0]), lines[1..]))
  }

  lemma {:induction false} SafeConcat(max: nat, a: Acc, l: seq<Bytes>, m: seq<Bytes>)
    ensures Safe(max, a, l + m) <==> Safe(max, a, l) && Safe(max, Run(max, a, l), m)
    decreases |l|
  {
    if l == [] {
      assert [] + m == m;
    } else {
      assert (l + m)[1..] == l[1..] + m;
      SafeConcat(max, ProcessLine(max, a, l[0]), l[1..], m);
    }
  }

  lemma SafeOne(max: nat, a: Acc, line: Bytes)
    ensures Safe(max, a, [line]) <==> LineSafe(max, a, line)
  {
    assert [line][1..] == [];
  }

  lemma ProcessedFirst(max: nat, a: Acc, line: Bytes)
    ensures !ProcessLine(max, a, line).firstLine
  {}

  /** Short lines and data fields are safe wherever they stand; a byte-order mark may precede the first line. */
  lemma {:induction false} FittingIsSafe(max: nat, a: Acc, lines: seq<Bytes>)
    requires forall k :: 0 <= k < |lines| ==> LineFits(max, a.firstLine && k == 0, lines[k])
    ensures Safe(max, a, lines)
    decreases |lines|
  {
    if lines != [] {
      var rest := lines[1..];
      ProcessedFirst(max, a, lines[0]);
      assert forall k :: 0 <= k < |rest| ==> rest[k] == lines[k + 1];
      FittingIsSafe(max, ProcessLine(max, a, lines[0]), rest);
    }
  }

  /** Equal but for the byte counter once it has passed the maximum. */
  predicate Alike(max: nat, p: Acc, q: Acc) {
    && p == q.(eventBytes := p.eventBytes)
    && (p.eventBytes == q.eventBytes || (p.eventBytes > max && q.eventBytes > max))
  }

  /** `pending` is x without some bytes of its first line past the limit. */
  predicate Skips(max: nat, pending: Bytes, x: Bytes) {
    exists c :: max + SLACK < c <= EolPos(x) && pending == x[..max + SLACK] + x[c..]
  }

  /** The pending line x was clipped to `pending`: same first bytes and same ending. The event may have been
      flagged on the way, if one is open or the line begins with "data". */
  predicate Lossy(max: nat, pending: Bytes, p: Acc, x: Bytes, q: Acc) {
    var (j, i, limit) := (EolPos(pending), EolPos(x), max + SLACK);
    && i > limit && j >= limit
    && pending[..limit] == x[..limit]
    && pending[j..] == x[i..]
    && Skips(max, pending, x)
    && Alike(max, p.(truncated := q.truncated), q)
    && (q.truncated ==> p.truncated)
    && (p.truncated ==> q.truncated || q.data != [] || DATA <= x)
  }

  predicate Near(max: nat, s: State, x: Bytes, q: Acc) {
    (s.pending == x && Alike(max, s.acc, q)) || Lossy(max, s.pending, s.acc, x, q)
  }

  lemma DispatchAlike(max: nat, p: Acc, q: Acc)
    requires Alike(max, p, q)
    ensures Dispatch(p) == Dispatch(q)
  {}

  lemma FieldAlike(max: nat, p: Acc, q: Acc, field: Bytes, value: Bytes)
    requires Alike(max, p, q)
    ensures Alike(max, ApplyField(max, p, field, value), ApplyField(max, q, field, value))
  {}

  lemma ProcessAlike(max: nat, p: Acc, q: Acc, line: Bytes)
    requires Alike(max, p, q)
    ensures Alike(max, ProcessLine(max, p, line), ProcessLine(max, q, line))
  {
    var (p', q', text) := (p.(firstLine := false), q.(firstLine := false), Text(p.firstLine, line));
    DispatchAlike(max, p', q');
    FieldAlike(max, p', q', Field(text), Value(text));
  }

  lemma DataLinePrefix(max: nat, first: bool, a: Bytes, b: Bytes)
    requires |a| >= SLACK && |b| >= SLACK && a[..SLACK] == b[..SLACK]
    ensures DataLine(first, a) == DataLine(first, b)
  {
    assert forall k :: 0 <= k < SLACK ==> a[k] == a[..SLACK][k] && b[k] == b[..SLACK][k];
    assert BOM <= a <==> BOM <= b;
  }

  lemma IndexIs(s: Bytes, b: byte, i: nat)
    requires i < |s| && s[i] == b && forall k :: 0 <= k < i ==> s[k] != b
    ensures IndexOf(s, b) == i
  {}

  /** A data field longer than the limit only marks the event truncated. */
  lemma LongData(max: nat, a: Acc, line: Bytes)
    requires DataLine(a.firstLine, line) && |line| >= max + SLACK
    ensures var b := ProcessLine(max, a, line);
      b == a.(firstLine := false, truncated := true, eventBytes := b.eventBytes) && b.eventBytes > max
  {
    var text := Text(a.firstLine, line);
    assert |text| >= |line| - 3;
    assert text[0] == 100 && text[1] == 97 && text[2] == 116 && text[3] == 97 && text[4] == COLON;
    assert IndexOf(text, COLON) == 4 by { IndexIs(text, COLON, 4); }
    assert Field(text) == DATA;
  }

  lemma DropConcat(s: Bytes, d: Bytes, k: nat)
    ensures k <= |s| ==> (s + d)[k..] == s[k..] + d && (s + d)[..k] == s[..k]
    ensures k <= |d| ==> (s + d)[|s| + k..] == d[k..]
  {}

  /** Equal endings have equal lengths and begin alike. */
  lemma SameEnding(a: Bytes, j: nat, b: Bytes, i: nat)
    requires j <= |a| && i <= |b| && a[j..] == b[i..]
    ensures |a| - j == |b| - i
    ensures i < |b| ==> a[j] == b[i]
    ensures i + 1 < |b| ==> a[j + 1] == b[i + 1]
  {
    assert |a[j..]| == |b[i..]|;
    if i < |b| { assert a[j..][0] == b[i..][0]; }
    if i + 1 < |b| { assert a[j..][1] == b[i..][1]; }
  }

  lemma SameEndingDrop(a: Bytes, j: nat, b: Bytes, i: nat, n: nat)
    requires j <= |a| && i <= |b| && a[j..] == b[i..] && i + n <= |b|
    ensures j + n <= |a| && a[j + n..] == b[i + n..]
  {
    SameEnding(a, j, b, i);
    assert a[j..][n..] == b[i..][n..];
  }

  /** The two clipped lines are the same data field as far as the parser can tell. */
  lemma LossyData(max: nat, a: Bytes, p: Acc, b: Bytes, q: Acc)
    requires |a| >= max + SLACK && |b| >= max + SLACK && a[..max + SLACK] == b[..max + SLACK]
    requires DataLine(q.firstLine, b) && Alike(max, p.(truncated := q.truncated), q)
    ensures Alike(max, ProcessLine(max, p, a), ProcessLine(max, q, b))
  {
    assert a[..SLACK] == a[..max + SLACK][..SLACK] && b[..SLACK] == b[..max + SLACK][..SLACK];
    DataLinePrefix(max, q.firstLine, a, b);
    LongData(max, p, a);
    LongData(max, q, b);
  }

  /** A clipped line whose loss makes no difference. */
  lemma LossySafe(max: nat, p: Acc, q: Acc, line: Bytes, c: nat)
    requires max + SLACK < c <= |line| && SaysTheSame(max, q, line) && FlagsNothing(q, line)
    requires Alike(max, p.(truncated := q.truncated), q) && (q.truncated ==> p.truncated)
    requires p.truncated ==> q.truncated || q.data != [] || DATA <= line
    ensures Alike(max, ProcessLine(max, p, Clipped(max, line, c)), ProcessLine(max, q, line))
  {
    assert p.(truncated := q.truncated) == p;
    ProcessAlike(max, p, q, Clipped(max, line, c));
  }

  lemma ClippedPrefix(max: nat, line: Bytes, c: nat)
    requires max + SLACK <= c <= |line|
    ensures |Clipped(max, line, c)| >= max + SLACK && Clipped(max, line, c)[..max + SLACK] == line[..max + SLACK]
  {}

  lemma LossyAlike(max: nat, p: Acc, q: Acc, line: Bytes, c: nat)
    requires max + SLACK < c <= |line| && LineSafe(max, q, line)
    requires Alike(max, p.(truncated := q.truncated), q) && (q.truncated ==> p.truncated)
    requires p.truncated ==> q.truncated || q.data != [] || DATA <= line
    ensures Alike(max, ProcessLine(max, p, Clipped(max, line, c)), ProcessLine(max, q, line))
  {
    if DataLine(q.firstLine, line) {
      ClippedPrefix(max, line, c);
      LossyData(max, Clipped(max, line, c), p, line, q);
    } else {
      LossySafe(max, p, q, line, c);
    }
  }

  lemma GapSlices(x: Bytes, limit: nat, c: nat, i: nat, y: Bytes)
    requires limit <= c <= i <= |x| && y == x[..limit] + x[c..]
    ensures |y| == limit + |x| - c && y[..limit + i - c] == x[..i][..limit] + x[..i][c..]
  {}

  lemma GapBytes(x: Bytes, limit: nat, c: nat, y: Bytes)
    requires limit <= c <= |x| && y == x[..limit] + x[c..]
    ensures |y| == limit + |x| - c
    ensures forall k :: 0 <= k < limit ==> y[k] == x[k]
    ensures forall k :: limit <= k < |y| ==> y[k] == x[k - limit + c]
  {}

  lemma GapEol(x: Bytes, limit: nat, c: nat, y: Bytes)
    requires limit <= c <= EolPos(x) && y == x[..limit] + x[c..]
    ensures EolPos(y) == limit + EolPos(x) - c
  {
    GapBytes(x, limit, c, y);
    EolPosIs(y, limit + EolPos(x) - c);
  }

  /** Where the clipped line ends. */
  lemma SkipsLine(max: nat, pending: Bytes, x: Bytes, c: nat)
    requires max + SLACK < c <= EolPos(x) && pending == x[..max + SLACK] + x[c..]
    ensures pending[..EolPos(pending)] == Clipped(max, x[..EolPos(x)], c)
  {
    GapEol(x, max + SLACK, c, pending);
    GapSlices(x, max + SLACK, c, EolPos(x), pending);
  }

  lemma LineStarts(x: Bytes, i: nat)
    requires SLACK <= i <= |x|
    ensures DATA <= x <==> DATA <= x[..i]
  {
    assert DATA <= x <==> DATA == x[..4];
    assert DATA <= x[..i] <==> DATA == x[..i][..4];
    assert x[..4] == x[..i][..4];
  }

  lemma LossyLine(max: nat, pending: Bytes, p: Acc, x: Bytes, q: Acc)
    requires Lossy(max, pending, p, x, q) && LineSafe(max, q, x[..EolPos(x)])
    ensures Alike(max, ProcessLine(max, p, pending[..EolPos(pending)]), ProcessLine(max, q, x[..EolPos(x)]))
  {
    var c :| max + SLACK < c <= EolPos(x) && pending == x[..max + SLACK] + x[c..];
    SkipsLine(max, pending, x, c);
    LineStarts(x, EolPos(x));
    LossyAlike(max, p, q, x[..EolPos(x)], c);
  }

  lemma LossyNext(max: nat, pending: Bytes, p: Acc, x: Bytes, q: Acc)
    requires Lossy(max, pending, p, x, q) && Safe(max, q, Decided(x))
    ensures Undecided(pending) == Undecided(x)
    ensures NextLine(pending).Some? == NextLine(x).Some?
    ensures NextLine(x).Some? ==>
      && NextLine(pending).value.1 == NextLine(x).value.1
      && Alike(max, ProcessLine(max, p, NextLine(pending).value.0), ProcessLine(max, q, NextLine(x).value.0))
  {
    var (j, i) := (EolPos(pending), EolPos(x));
    SameEnding(pending, j, x, i);
    if NextLine(x).Some? {
      assert Consumed(pending, j) - j == Consumed(x, i) - i;
      SameEndingDrop(pending, j, x, i, Consumed(x, i) - i);
      LossyLine(max, pending, p, x, q);
    }
  }

  lemma EndingGrows(a: Bytes, d: Bytes)
    ensures (a + d)[EolPos(a + d)..] == if EolPos(a) < |a| then a[EolPos(a)..] + d else d[EolPos(d)..]
    ensures EolPos(a + d) >= EolPos(a)
  {
    EolPosConcat(a, d);
    if EolPos(a) < |a| {
      DropConcat(a, d, EolPos(a));
    } else {
      DropConcat(a, d, EolPos(d));
    }
  }

  /** Streams that end alike from their next line break on still do when both grow. */
  lemma EndingsGrow(a: Bytes, b: Bytes, d: Bytes)
    requires a[EolPos(a)..] == b[EolPos(b)..]
    ensures (a + d)[EolPos(a + d)..] == (b + d)[EolPos(b + d)..]
    ensures EolPos(a + d) >= EolPos(a)
  {
    assert |a[EolPos(a)..]| == |b[EolPos(b)..]|;
    EndingGrows(a, d);
    EndingGrows(b, d);
  }

  lemma SkipsExtends(max: nat, pending: Bytes, x: Bytes, d: Bytes)
    requires Skips(max, pending, x)
    ensures Skips(max, pending + d, x + d)
  {
    var limit := max + SLACK;
    var c :| limit < c <= EolPos(x) && pending == x[..limit] + x[c..];
    EndingGrows(x, d);
    DropConcat(x, d, limit);
    DropConcat(x, d, c);
    Prelude.Regroup(x[..limit], x[c..], d);
  }

  lemma LossyExtends(max: nat, pending: Bytes, p: Acc, x: Bytes, q: Acc, d: Bytes)
    requires Lossy(max, pending, p, x, q)
    ensures Lossy(max, pending + d, p, x + d, q)
  {
    EndingsGrow(pending, x, d);
    EndingsGrow(x, x, d);
    DropConcat(pending, d, max + SLACK);
    DropConcat(x, d, max + SLACK);
    SkipsExtends(max, pending, x, d);
    assert DATA <= x ==> DATA <= x + d;
  }

  lemma NearNext(max: nat, pending: Bytes, p: Acc, x: Bytes, q: Acc)
    requires Near(max, State(pending, p), x, q) && Safe(max, q, Decided(x))
    ensures Undecided(pending) == Undecided(x)
    ensures NextLine(pending).Some? == NextLine(x).Some?
    ensures NextLine(x).Some? ==>
      && NextLine(pending).value.1 == NextLine(x).value.1
      && Alike(max, ProcessLine(max, p, NextLine(pending).value.0), ProcessLine(max, q, NextLine(x).value.0))
  {
    if Lossy(max, pending, p, x, q) {
      LossyNext(max, pending, p, x, q);
    } else if NextLine(x).Some? {
      ProcessAlike(max, p, q, NextLine(x).value.0);
    }
  }

  /** Processing the complete lines of both. */
  lemma {:induction false} NearRun(max: nat, pending: Bytes, p: Acc, x: Bytes, q: Acc)
    requires Near(max, State(pending, p), x, q) && Safe(max, q, Decided(x))
    ensures Near(max, State(Tail(pending), Run(max, p, Decided(pending))), Tail(x), Run(max, q, Decided(x)))
    ensures Undecided(Tail(pending)) == Undecided(Tail(x))
    decreases |x|
  {
    NearNext(max, pending, p, x, q);
    match NextLine(x)
    case Some((line, rest)) =>
      var cut := NextLine(pending).value.0;
      var (p', q') := (ProcessLine(max, p, cut), ProcessLine(max, q, line));
      assert ([line] + Decided(rest))[1..] == Decided(rest) && ([cut] + Decided(rest))[1..] == Decided(rest);
      assert Near(max, State(rest, p'), rest, q');
      NearRun(max, rest, p', rest, q');
    case None =>
  }

  lemma CutStarts(pending: Bytes, x: Bytes, limit: nat)
    requires |DATA| <= limit < |pending| && limit < |x| && (pending == x || pending[..limit] == x[..limit])
    ensures pending[..limit] == x[..limit] && pending[..limit][limit..] == [] == x[|x|..]
    ensures DATA <= pending <==> DATA <= x
  {
    assert DATA <= pending <==> DATA == pending[..limit][..4];
    assert DATA <= x <==> DATA == x[..limit][..4];
  }

  lemma ClipNear(max: nat, pending: Bytes, p: Acc, x: Bytes, q: Acc)
    requires Near(max, State(pending, p), x, q) && EolPos(x) == |x| && EolPos(pending) == |pending|
    ensures Near(max, Clip(max, pending, p), x, q)
  {
    var limit := max + SLACK;
    if |pending| > limit {
      var cut := pending[..limit];
      EolPosIs(cut, limit);
      CutStarts(pending, x, limit);
      assert cut == x[..limit] + x[|x|..];
      assert Lossy(max, cut, Clip(max, pending, p).acc, x, q);
    }
  }

  lemma DrainNear(max: nat, pending: Bytes, p: Acc, x: Bytes, q: Acc)
    requires Near(max, State(pending, p), x, q) && Safe(max, q, Decided(x))
    ensures Near(max, Drain(max, pending, p), Tail(x), Run(max, q, Decided(x)))
  {
    NearRun(max, pending, p, x, q);
    DecidedRun(max, pending, p);
    TailRests(x);
    TailRests(pending);
    if !Undecided(Tail(x)) {
      ClipNear(max, Tail(pending), Run(max, p, Decided(pending)), Tail(x), Run(max, q, Decided(x)));
    }
  }

  lemma FeedNear(max: nat, s: State, x: Bytes, q: Acc, d: Bytes)
    requires Near(max, s, x, q) && NextLine(x).None? && Safe(max, q, Decided(x + d))
    ensures Near(max, Feed(max, s, d), Tail(x + d), Run(max, q, Decided(x + d)))
  {
    if d == [] {
      assert x + d == x;
    } else {
      if Lossy(max, s.pending, s.acc, x, q) { LossyExtends(max, s.pending, s.acc, x, q, d); }
      DrainNear(max, s.pending + d, s.acc, x + d, q);
    }
  }

  /** However the parts are cut, what has been processed is as good as the decided lines, and what is
      pending is the open line or what clipping has left of it. */
  lemma {:induction false} FeedAllNear(max: nat, parts: seq<Bytes>)
    requires Safe(max, FRESH, Decided(Concat(parts)))
    ensures Near(max, FeedAll(max, State([], FRESH), parts),
      Tail(Concat(parts)), Run(max, FRESH, Decided(Concat(parts))))
    decreases |parts|
  {
    if parts != [] {
      var (init, d) := (parts[..|parts| - 1], parts[|parts| - 1]);
      var s := Concat(init);
      var q := Run(max, FRESH, Decided(s));
      TailExtends(s, d);
      SafeConcat(max, FRESH, Decided(s), Decided(Tail(s) + d));
      FeedAllNear(max, init);
      TailRests(s);
      FeedNear(max, FeedAll(max, State([], FRESH), init), Tail(s), q, d);
      RunConcat(max, FRESH, Decided(s), Decided(Tail(s) + d));
    }
  }

  lemma LastDecided(x: Bytes)
    requires Undecided(x)
    ensures Decided(x + [LF]) == LastLine(x)
  {
    var (i, y) := (EolPos(x), x + [LF]);
    EolPosConcat(x, [LF]);
    assert y[..i] == x[..|x| - 1] && y[Consumed(y, i)..] == [];
  }

  lemma CloseNear(max: nat, s: State, x: Bytes, q: Acc)
    requires Near(max, s, x, q) && NextLine(x).None? && Safe(max, q, LastLine(x))
    ensures Close(max, s).acc.out == Run(max, q, LastLine(x)).out
  {
    NearNext(max, s.pending, s.acc, x, q);
    if Undecided(x) {
      LastDecided(x);
      FeedNear(max, s, x, q, [LF]);
    } else {
      assert NextLine(s.pending).None?;
    }
  }

  /** Cutting a stream anywhere, inside a CRLF too, changes no callback as long as every terminated line is safe
      where it stands: short enough to be kept, a data field, or one whose loss makes no difference. */
  lemma ChunksDoNotMatter(max: nat, parts: seq<Bytes>)
    requires Safe(max, FRESH, Lines(Concat(parts)))
    ensures Output(max, parts) == Reference(max, Concat(parts))
    ensures Output(max, parts) == Output(max, [Concat(parts)])
  {
    var stream := Concat(parts);
    var q := Run(max, FRESH, Decided(stream));
    LinesSplit(stream);
    SafeConcat(max, FRESH, Decided(stream), LastLine(Tail(stream)));
    FeedAllNear(max, parts);
    TailRests(stream);
    CloseNear(max, FeedAll(max, State([], FRESH), parts), Tail(stream), q);
    RunConcat(max, FRESH, Decided(stream), LastLine(Tail(stream)));
    WholeFeed(max, stream);
  }
}
