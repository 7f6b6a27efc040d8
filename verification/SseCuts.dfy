/** The exact limit of cut-independence: which lines, after any stream that can be cut anywhere, keep that property
    however the stream goes on. */
module SseCutSensitivity {
  import opened Prelude
  import opened SseParser
  import opened SseChunks
  import opened SseLongLines

  /** A stream of whole lines. */
  predicate Whole(before: Bytes) { Tail(before) == [] }

  /** What has been processed when a stream of whole lines has been read. */
  function Reached(max: nat, before: Bytes): Acc { Run(max, FRESH, Decided(before)) }

  /** The stream, a further line and whatever follows it. */
  function Then(before: Bytes, line: Bytes, rest: Bytes): Bytes { before + (line + [LF] + rest) }

  /** Every way of cutting the stream gives the callbacks of its lines. */
  ghost predicate CutProof(max: nat, stream: Bytes) {
    forall parts :: Concat(parts) == stream ==> Output(max, parts) == Reference(max, stream)
  }

  /** An empty data field and the end of its event. */
  const PROBE: Bytes := DATA_FIELD + [LF] + [LF]

  function Probed(max: nat, a: Acc): Acc { ProcessLine(max, ProcessLine(max, a, DATA_FIELD), []) }

  // ---- Following the stream ----------------------------------------------

  lemma OpenLine(line: Bytes)
    requires EolPos(line) == |line|
    ensures Tail(line) == line && Decided(line) == [] && Lines(line) == []
  {}

  lemma Closes(line: Bytes, rest: Bytes)
    requires EolPos(line) == |line|
    ensures Decided(line + [LF] + rest) == [line] + Decided(rest) && Tail(line + [LF] + rest) == Tail(rest)
  {
    var x := line + [LF] + rest;
    EolPosIs(x, |line|);
    assert x[..|line|] == line && x[|line| + 1..] == rest;
  }

  lemma NoMoreLines(lines: seq<Bytes>)
    ensures lines + [] == lines && [] + lines == lines
  {}

  lemma RunFirst(max: nat, a: Acc, line: Bytes, rest: seq<Bytes>)
    ensures Run(max, a, [line] + rest) == Run(max, ProcessLine(max, a, line), rest)
    ensures Safe(max, a, [line] + rest) <==> LineSafe(max, a, line) && Safe(max, ProcessLine(max, a, line), rest)
  {
    assert ([line] + rest)[1..] == rest;
  }

  /** The terminator of the open line x ends with. */
  lemma LineEnds(x: Bytes, rest: Bytes, line: Bytes)
    requires Tail(x) == line && EolPos(line) == |line|
    ensures Decided(x + ([LF] + rest)) == Decided(x) + ([line] + Decided(rest))
    ensures Tail(x + ([LF] + rest)) == Tail(rest)
  {
    TailExtends(x, [LF] + rest);
    Prelude.Regroup(line, [LF], rest);
    Closes(line, rest);
  }

  lemma WholeLines(before: Bytes)
    requires Whole(before)
    ensures Lines(before) == Decided(before)
  {
    LinesSplit(before);
    NoMoreLines(Decided(before));
  }

  lemma DecidedFollow(before: Bytes, rest: Bytes)
    requires Whole(before)
    ensures Decided(before + rest) == Decided(before) + Decided(rest) && Tail(before + rest) == Tail(rest)
  {
    TailExtends(before, rest);
    NoMoreBytes(rest);
  }

  lemma RegroupLines(a: seq<Bytes>, b: seq<Bytes>, c: seq<Bytes>)
    ensures a + (b + c) == (a + b) + c
  {}

  lemma LinesFollow(before: Bytes, rest: Bytes)
    requires Whole(before)
    ensures Lines(before + rest) == Decided(before) + Lines(rest)
  {
    DecidedFollow(before, rest);
    LinesSplit(before + rest);
    LinesSplit(rest);
    RegroupLines(Decided(before), Decided(rest), LastLine(Tail(rest)));
  }

  lemma LinesClose(line: Bytes, rest: Bytes)
    requires EolPos(line) == |line|
    ensures Lines(line + [LF] + rest) == [line] + Lines(rest)
  {
    Closes(line, rest);
    LinesSplit(line + [LF] + rest);
    LinesSplit(rest);
  }

  /** The lines of a stream that goes on with a further line. */
  lemma ThenLines(before: Bytes, line: Bytes, rest: Bytes)
    requires Whole(before) && EolPos(line) == |line|
    ensures Lines(Then(before, line, rest)) == Decided(before) + ([line] + Lines(rest))
    ensures Decided(Then(before, line, rest)) == Decided(before) + ([line] + Decided(rest))
    ensures Tail(Then(before, line, rest)) == Tail(rest)
  {
    LinesFollow(before, line + [LF] + rest);
    DecidedFollow(before, line + [LF] + rest);
    LinesClose(line, rest);
    Closes(line, rest);
  }

  lemma ThenReference(max: nat, before: Bytes, line: Bytes, rest: Bytes)
    requires Whole(before) && EolPos(line) == |line|
    ensures Reference(max, Then(before, line, rest)) ==
      Run(max, ProcessLine(max, Reached(max, before), line), Lines(rest)).out
  {
    ThenLines(before, line, rest);
    RunConcat(max, FRESH, Decided(before), [line] + Lines(rest));
    RunFirst(max, Reached(max, before), line, Lines(rest));
  }

  lemma ThenSafe(max: nat, before: Bytes, line: Bytes, rest: Bytes)
    requires Whole(before) && Safe(max, FRESH, Lines(before)) && EolPos(line) == |line|
    ensures var a := Reached(max, before);
      Safe(max, FRESH, Lines(Then(before, line, rest))) <==>
        LineSafe(max, a, line) && Safe(max, ProcessLine(max, a, line), Lines(rest))
  {
    WholeLines(before);
    ThenLines(before, line, rest);
    SafeConcat(max, FRESH, Decided(before), [line] + Lines(rest));
    RunFirst(max, Reached(max, before), line, Lines(rest));
  }

  lemma EmptyLine()
    ensures EolPos([]) == 0 && Lines([LF]) == [[]] && Decided([LF]) == [[]] && Tail([LF]) == [] && Lines([]) == []
    ensures Decided([]) == [] && Tail([]) == []
  {
    OpenLine([]);
    Closes([], []);
    LinesSplit([LF]);
    NoMoreLines([[]]);
    assert [] + [LF] + [] == [LF];
  }

  lemma ProbeField()
    ensures EolPos(DATA_FIELD) == |DATA_FIELD| && Field(DATA_FIELD) == DATA && Value(DATA_FIELD) == []
  {
    EolPosIs(DATA_FIELD, 5);
    IndexIs(DATA_FIELD, COLON, 4);
  }

  lemma ProbeLines()
    ensures Lines(PROBE) == [DATA_FIELD] + [[]] && Whole(PROBE) && Decided(PROBE) == [DATA_FIELD] + [[]]
  {
    ProbeField();
    EmptyLine();
    Closes(DATA_FIELD, [LF]);
    LinesClose(DATA_FIELD, [LF]);
  }

  lemma ProbeRuns(max: nat, a: Acc)
    ensures Run(max, a, Lines(PROBE)) == Probed(max, a) && Safe(max, a, Lines(PROBE))
  {
    ProbeLines();
    RunFirst(max, a, DATA_FIELD, [[]]);
    NoMoreLines([[]]);
    RunFirst(max, ProcessLine(max, a, DATA_FIELD), [], []);
  }

  lemma SafeIsCutProof(max: nat, stream: Bytes)
    requires Safe(max, FRESH, Lines(stream))
    ensures CutProof(max, stream)
  {
    forall parts | Concat(parts) == stream ensures Output(max, parts) == Reference(max, stream) {
      ChunksDoNotMatter(max, parts);
    }
  }

  // ---- A stream cut inside or right after the line -----------------------

  /** What is processed when the stream is cut inside the overlong line. */
  function Flagged(a: Acc, line: Bytes): Acc {
    a.(truncated := a.truncated || DATA <= line || |a.data| > 0)
  }

  lemma OutputOfTwo(max: nat, x: Bytes, y: Bytes, s: State)
    requires s == Feed(max, State([], FRESH), x)
    ensures Output(max, [x, y]) == Close(max, Feed(max, s, y)).acc.out
  {
    var t := State([], FRESH);
    assert [x, y][..1] == [x] && [x][..0] == [];
    assert FeedAll(max, t, [x]) == Feed(max, FeedAll(max, t, []), x);
    assert FeedAll(max, t, [x, y]) == Feed(max, FeedAll(max, t, [x]), y);
  }

  lemma ConcatTwo(x: Bytes, y: Bytes)
    ensures Concat([x, y]) == x + y
  {
    assert [x, y] == [x] + [y] && [y] == [y] + [];
    ConcatFront(x, [y]);
    ConcatFront(y, []);
  }

  lemma LineFollows(before: Bytes, line: Bytes)
    requires Whole(before) && EolPos(line) == |line|
    ensures Tail(before + line) == line && Decided(before + line) == Decided(before)
  {
    DecidedFollow(before, line);
    OpenLine(line);
    NoMoreLines(Decided(before));
  }

  lemma CutFeeds(max: nat, before: Bytes, line: Bytes, stem: Bytes)
    requires Whole(before) && EolPos(line) == |line| && |line| > max + SLACK && stem == before + line
    ensures Feed(max, State([], FRESH), stem) == State(line[..max + SLACK], Flagged(Reached(max, before), line))
  {
    NoMoreBytes(stem);
    DecidedRun(max, stem, FRESH);
    LineFollows(before, line);
  }

  lemma CutEnds(max: nat, s: State, more: Bytes, cut: Bytes, rest: Bytes)
    requires cut == s.pending + more && EolPos(cut) == |cut| && Whole(rest)
    ensures Feed(max, s, more + ([LF] + rest)) == State([], Run(max, ProcessLine(max, s.acc, cut), Decided(rest)))
  {
    Prelude.Regroup(s.pending, more, [LF] + rest);
    DecidedRun(max, cut + ([LF] + rest), s.acc);
    OpenLine(cut);
    LineEnds(cut, rest, cut);
    NoMoreLines([cut] + Decided(rest));
    RunFirst(max, s.acc, cut, Decided(rest));
  }

  lemma ClippedIsOpen(max: nat, line: Bytes, c: nat)
    requires EolPos(line) == |line| && max + SLACK < c <= |line|
    ensures EolPos(line[..c]) == c && EolPos(Clipped(max, line, c)) == |Clipped(max, line, c)|
    ensures line[..c][..max + SLACK] == line[..max + SLACK] && (DATA <= line[..c] <==> DATA <= line)
  {
    EolPosIs(line[..c], c);
    EolPosIs(Clipped(max, line, c), |Clipped(max, line, c)|);
    assert DATA <= line[..c] <==> DATA == line[..c][..4];
    assert DATA <= line <==> DATA == line[..c][..4];
  }

  lemma CutTail(line: Bytes, c: nat, rest: Bytes, end: Bytes)
    requires c <= |line| && end == line[c..] + ([LF] + rest)
    ensures line[..c] + end == line + [LF] + rest
  {
    Prelude.Regroup(line[..c], line[c..], [LF] + rest);
    assert line[..c] + line[c..] == line;
    Prelude.Regroup(line, [LF], rest);
  }

  /** Cut inside or right after the overlong line, the parser processes the clipped one. */
  lemma CutOutput(max: nat, before: Bytes, line: Bytes, c: nat, rest: Bytes, stem: Bytes, end: Bytes, cut: Bytes)
    requires Whole(before) && EolPos(line) == |line| && max + SLACK < c <= |line| && Whole(rest)
    requires stem == before + line[..c] && end == line[c..] + ([LF] + rest) && cut == Clipped(max, line, c)
    ensures Concat([stem, end]) == Then(before, line, rest)
    ensures Output(max, [stem, end]) ==
      Run(max, ProcessLine(max, Flagged(Reached(max, before), line), cut), Decided(rest)).out
  {
    var s := State(line[..max + SLACK], Flagged(Reached(max, before), line));
    ClippedIsOpen(max, line, c);
    CutFeeds(max, before, line[..c], stem);
    CutEnds(max, s, line[c..], cut, rest);
    OutputOfTwo(max, stem, end, s);
    ConcatTwo(stem, end);
    CutTail(line, c, rest, end);
    Prelude.Regroup(before, line[..c], end);
  }

  // ---- Unsafe lines are noticed ------------------------------------------

  /** The counter passes the maximum only in flagged events. */
  predicate Within(max: nat, a: Acc) { a.truncated || a.eventBytes <= max }

  lemma ProcessWithin(max: nat, a: Acc, line: Bytes)
    requires Within(max, a)
    ensures Within(max, ProcessLine(max, a, line))
  {}

  lemma {:induction false} RunWithin(max: nat, a: Acc, lines: seq<Bytes>)
    requires Within(max, a)
    ensures Within(max, Run(max, a, lines))
    decreases |lines|
  {
    if lines != [] {
      ProcessWithin(max, a, lines[0]);
      RunWithin(max, ProcessLine(max, a, lines[0]), lines[1..]);
    }
  }

  lemma BlankDispatches(max: nat, a: Acc)
    requires !a.firstLine
    ensures ProcessLine(max, a, []) == Dispatch(a)
  {
    assert a.(firstLine := false) == a;
  }

  /** The probe reports one event, with the flag and the words of the event in progress. */
  lemma ProbeFires(max: nat, a: Acc)
    requires !a.firstLine
    ensures var out := Probed(max, a).out;
      && |out| == |a.out| + 1 && a.out <= out && out[|a.out|].OnEvent?
      && (out[|a.out|].event.kind, out[|a.out|].event.id, out[|a.out|].event.retry) == Shown(a)
      && (Within(max, a) ==> out[|a.out|].event.truncated == a.truncated)
  {
    ProbeField();
    assert a.(firstLine := false) == a;
    BlankDispatches(max, AppendData(max, a, []));
  }

  /** Two states that differ in the flag of their event, or in what it shows, are told apart. */
  lemma Distinguished(max: nat, a: Acc, b: Acc)
    requires !a.firstLine && !b.firstLine && |a.out| == |b.out|
    requires Shown(a) != Shown(b) || (a.truncated != b.truncated && Within(max, a) && Within(max, b))
    ensures Probed(max, a).out != Probed(max, b).out
  {
    ProbeFires(max, a);
    ProbeFires(max, b);
  }

  lemma CommentStays(max: nat, a: Acc, line: Bytes)
    requires IsComment(a.firstLine, line)
    ensures var out := Probed(max, ProcessLine(max, a, line)).out;
      |out| > |a.out| && out[|a.out|] == OnComment(Text(a.firstLine, line)[1..])
  {
    ProbeFires(max, ProcessLine(max, a, line));
  }

  /** A comment is reported clipped. */
  lemma CommentNoticed(max: nat, a: Acc, b: Acc, line: Bytes, c: nat)
    requires max + SLACK < c <= |line| && IsComment(a.firstLine, line)
    requires b.out == a.out && b.firstLine == a.firstLine
    ensures Probed(max, ProcessLine(max, b, Clipped(max, line, c))).out != Probed(max, ProcessLine(max, a, line)).out
  {
    CommentsDiffer(max, a.firstLine, line, c);
    CommentStays(max, a, line);
    CommentStays(max, b, Clipped(max, line, c));
  }

  /** An event is flagged that is not. */
  lemma FlagNoticed(max: nat, a: Acc, line: Bytes, c: nat)
    requires max + SLACK < c <= |line| && !DataLine(a.firstLine, line) && !IsComment(a.firstLine, line)
    requires Within(max, a) && !FlagsNothing(a, line)
    ensures Probed(max, ProcessLine(max, Flagged(a, line), Clipped(max, line, c))).out !=
      Probed(max, ProcessLine(max, a, line)).out
  {
    var (b, cut) := (Flagged(a, line), Clipped(max, line, c));
    ClippedStarts(max, a.firstLine, line, c);
    NoData(max, a, line);
    NoData(max, b, cut);
    Distinguished(max, ProcessLine(max, b, cut), ProcessLine(max, a, line));
  }

  /** The line does something else clipped. */
  lemma WordsNoticed(max: nat, a: Acc, line: Bytes, c: nat)
    requires max + SLACK < c <= |line| && !DataLine(a.firstLine, line) && !IsComment(a.firstLine, line)
    requires ProcessLine(max, a, Clipped(max, line, c)) != ProcessLine(max, a, line)
    ensures Probed(max, ProcessLine(max, a, Clipped(max, line, c))).out != Probed(max, ProcessLine(max, a, line)).out
  {
    var (first, cut) := (a.firstLine, Clipped(max, line, c));
    var (b, d) := (ProcessLine(max, a, cut), ProcessLine(max, a, line));
    ClippedStarts(max, first, line, c);
    NoData(max, a, line);
    NoData(max, a, cut);
    SameKind(first, cut, line);
    if Field(Text(first, line)) == EVENT {
      TypesDiffer(max, a, line, c);
    } else {
      assert b.lastId != d.lastId || b.retry != d.retry;
    }
    Distinguished(max, b, d);
  }

  /** Where the cut of an unsafe line is noticed. */
  lemma WhereNoticed(max: nat, a: Acc, line: Bytes) returns (c: nat)
    requires !LineSafe(max, a, line) && Within(max, a)
    ensures max + SLACK < c <= |line|
    ensures Probed(max, ProcessLine(max, Flagged(a, line), Clipped(max, line, c))).out !=
      Probed(max, ProcessLine(max, a, line)).out
  {
    c := |line|;
    if IsComment(a.firstLine, line) {
      CommentNoticed(max, a, Flagged(a, line), line, c);
    } else if FlagsNothing(a, line) {
      c :| max + SLACK < c <= |line| && ProcessLine(max, a, Clipped(max, line, c)) != ProcessLine(max, a, line);
      assert Flagged(a, line) == a;
      WordsNoticed(max, a, line, c);
    } else {
      FlagNoticed(max, a, line, c);
    }
  }

  lemma OneBadCut(max: nat, parts: seq<Bytes>, stream: Bytes)
    requires Concat(parts) == stream && Output(max, parts) != Reference(max, stream)
    ensures !CutProof(max, stream)
  {}

  lemma UnsafeIsNotCutProof(max: nat, before: Bytes, line: Bytes)
    requires Whole(before) && EolPos(line) == |line| && !LineSafe(max, Reached(max, before), line)
    ensures !CutProof(max, Then(before, line, PROBE))
  {
    var a := Reached(max, before);
    RunWithin(max, FRESH, Decided(before));
    var c := WhereNoticed(max, a, line);
    var (stem, end, cut) := (before + line[..c], line[c..] + ([LF] + PROBE), Clipped(max, line, c));
    ProbeLines();
    CutOutput(max, before, line, c, PROBE, stem, end, cut);
    ThenReference(max, before, line, PROBE);
    ProbeRuns(max, ProcessLine(max, Flagged(a, line), cut));
    ProbeRuns(max, ProcessLine(max, a, line));
    OneBadCut(max, [stem, end], Then(before, line, PROBE));
  }

  // ---- Results -----------------------------------------------------------

  /** After any whole lines that are safe, in whatever state they leave the event: however the stream goes on after
      a further line, as long as what follows is safe, it can be cut anywhere if and only if the line is safe.
      One continuation decides: an empty data field and the end of its event. */
  lemma CutSafety(max: nat, before: Bytes, line: Bytes)
    requires Whole(before) && Safe(max, FRESH, Lines(before)) && EolPos(line) == |line|
    ensures var a := Reached(max, before);
      LineSafe(max, a, line) <==> forall rest :: Safe(max, ProcessLine(max, a, line), Lines(rest)) ==>
        CutProof(max, Then(before, line, rest))
    ensures LineSafe(max, Reached(max, before), line) <==> CutProof(max, Then(before, line, PROBE))
  {
    var a := Reached(max, before);
    ProbeRuns(max, ProcessLine(max, a, line));
    if LineSafe(max, a, line) {
      forall rest | Safe(max, ProcessLine(max, a, line), Lines(rest)) ensures CutProof(max, Then(before, line, rest)) {
        ThenSafe(max, before, line, rest);
        SafeIsCutProof(max, Then(before, line, rest));
      }
    } else {
      UnsafeIsNotCutProof(max, before, line);
    }
  }

  /** Lines put back into a stream. */
  function Terminated(lines: seq<Bytes>): Bytes
    decreases |lines|
  {
    if lines == [] then [] else Terminated(lines[..|lines| - 1]) + (lines[|lines| - 1] + [LF])
  }

  predicate Unbroken(lines: seq<Bytes>) { forall k :: 0 <= k < |lines| ==> EolPos(lines[k]) == |lines[k]| }

  lemma {:induction false} LinesAreUnbroken(s: Bytes)
    ensures Unbroken(Lines(s))
    decreases |s|
  {
    var i := EolPos(s);
    if i < |s| {
      EolPosIs(s[..i], i);
      LinesAreUnbroken(s[Consumed(s, i)..]);
    }
  }

  lemma TerminatedThen(lines: seq<Bytes>, k: nat, rest: Bytes)
    requires k < |lines|
    ensures Terminated(lines[..k + 1]) + rest == Then(Terminated(lines[..k]), lines[k], rest)
  {
    assert lines[..k + 1][..k] == lines[..k];
    Prelude.Regroup(Terminated(lines[..k]), lines[k] + [LF], rest);
  }

  lemma TakeNext(lines: seq<Bytes>, k: nat)
    requires k < |lines|
    ensures lines[..k + 1] == lines[..k] + [lines[k]]
  {}

  lemma NextTerminated(before: Bytes, line: Bytes, whole: Bytes)
    requires Whole(before) && EolPos(line) == |line| && whole == Then(before, line, [])
    ensures Whole(whole) && Decided(whole) == Decided(before) + [line]
  {
    EmptyLine();
    ThenLines(before, line, []);
    NoMoreLines([line]);
  }

  lemma {:induction false} TerminatedLines(lines: seq<Bytes>, k: nat)
    requires Unbroken(lines) && k <= |lines|
    ensures Whole(Terminated(lines[..k])) && Decided(Terminated(lines[..k])) == lines[..k]
    decreases k
  {
    if k == 0 {
      EmptyLine();
    } else {
      TerminatedLines(lines, k - 1);
      TerminatedThen(lines, k - 1, []);
      NoMoreBytes(Terminated(lines[..k]));
      NextTerminated(Terminated(lines[..k - 1]), lines[k - 1], Terminated(lines[..k]));
      TakeNext(lines, k - 1);
    }
  }

  lemma NextIsSafe(max: nat, lines: seq<Bytes>, k: nat, a: Acc)
    requires k < |lines| && Safe(max, FRESH, lines[..k]) && a == Run(max, FRESH, lines[..k])
    ensures Safe(max, FRESH, lines[..k + 1]) <==> LineSafe(max, a, lines[k])
  {
    TakeNext(lines, k);
    SafeConcat(max, FRESH, lines[..k], [lines[k]]);
    SafeOne(max, a, lines[k]);
  }

  /** If the lines before are safe, the probe tells whether the next one is. */
  lemma ProbeDecides(max: nat, lines: seq<Bytes>, k: nat)
    requires Unbroken(lines) && k < |lines| && Safe(max, FRESH, lines[..k])
    ensures Safe(max, FRESH, lines[..k + 1]) <==> CutProof(max, Terminated(lines[..k + 1]) + PROBE)
  {
    var before := Terminated(lines[..k]);
    TerminatedLines(lines, k);
    WholeLines(before);
    TerminatedThen(lines, k, PROBE);
    CutSafety(max, before, lines[k]);
    NextIsSafe(max, lines, k, Reached(max, before));
  }

  lemma {:induction false} ProbesDecide(max: nat, lines: seq<Bytes>, k: nat)
    requires Unbroken(lines) && k <= |lines|
    requires forall j :: 0 <= j <= |lines| ==> CutProof(max, Terminated(lines[..j]) + PROBE)
    ensures Safe(max, FRESH, lines[..k])
    decreases k
  {
    if k > 0 {
      ProbesDecide(max, lines, k - 1);
      ProbeDecides(max, lines, k - 1);
    }
  }

  lemma ProbeHolds(max: nat, lines: seq<Bytes>, k: nat)
    requires Unbroken(lines) && k <= |lines| && Safe(max, FRESH, lines)
    ensures CutProof(max, Terminated(lines[..k]) + PROBE)
  {
    var before := Terminated(lines[..k]);
    assert lines == lines[..k] + lines[k..];
    SafeConcat(max, FRESH, lines[..k], lines[k..]);
    TerminatedLines(lines, k);
    LinesFollow(before, PROBE);
    ProbeRuns(max, Reached(max, before));
    SafeConcat(max, FRESH, lines[..k], Lines(PROBE));
    SafeIsCutProof(max, before + PROBE);
  }

  /** For whole streams, with any number of overlong lines: the lines of a stream are safe if and only if after each
      number of them, the probe can follow and the stream still be cut anywhere. */
  lemma StreamSafety(max: nat, stream: Bytes)
    ensures var lines := Lines(stream);
      Safe(max, FRESH, lines) <==>
        forall k :: 0 <= k <= |lines| ==> CutProof(max, Terminated(lines[..k]) + PROBE)
  {
    var lines := Lines(stream);
    LinesAreUnbroken(stream);
    if Safe(max, FRESH, lines) {
      forall k | 0 <= k <= |lines| ensures CutProof(max, Terminated(lines[..k]) + PROBE) {
        ProbeHolds(max, lines, k);
      }
    }
    if forall k :: 0 <= k <= |lines| ==> CutProof(max, Terminated(lines[..k]) + PROBE) {
      ProbesDecide(max, lines, |lines|);
      assert lines[..|lines|] == lines;
    }
  }

  // ---- Examples ----------------------------------------------------------

  lemma NotKnown(line: Bytes)
    requires |line| >= SLACK && DATA <= line
    ensures Text(true, line) == line && !IsComment(true, line) && Field(line) !in {EVENT, ID, RETRY}
  {
    assert line[0] == DATA[0] && DATA[0] != BOM[0] && DATA[0] != COLON;
    FieldIs(line, EVENT);
    FieldIs(line, ID);
    FieldIs(line, RETRY);
    assert line[..6][0] == line[..3][0] == line[0];
    assert DATA[0] != EVENT[0] && DATA[0] != ID[0] && DATA[0] != RETRY[0];
  }

  /** The line before anything else, cut right behind it or not at all. */
  lemma CutBehind(max: nat, line: Bytes, rest: Bytes, b: Acc)
    requires EolPos(line) == |line| && |line| > max + SLACK && Whole(rest) && b == Flagged(FRESH, line)
    ensures Reference(max, line + [LF] + rest) == Run(max, ProcessLine(max, FRESH, line), Decided(rest)).out
    ensures Output(max, [line, [LF] + rest]) ==
      Run(max, ProcessLine(max, b, Clipped(max, line, |line|)), Decided(rest)).out
  {
    EmptyLine();
    WholeLines(rest);
    ThenReference(max, [], line, rest);
    NoMoreBytes(line);
    NoMoreBytes(line + [LF] + rest);
    NoMoreBytes([LF] + rest);
    assert line[..|line|] == line && line[|line|..] == [];
    CutOutput(max, [], line, |line|, rest, line, [LF] + rest, Clipped(max, line, |line|));
  }

  lemma RunBlank(max: nat, a: Acc)
    requires !a.firstLine
    ensures Run(max, a, [[]]) == Dispatch(a)
  {
    BlankDispatches(max, a);
    NoMoreLines([[]]);
    RunFirst(max, a, [], []);
  }

  /** An event out of nothing: a single overlong line that begins with "data" but is no data field means no
      callback at all; cut before its terminator it is reported as a truncated, empty event. */
  lemma PhantomEvent(max: nat, line: Bytes)
    requires EolPos(line) == |line| && |line| > max + SLACK && DATA <= line && !(DATA_FIELD <= line)
    ensures Reference(max, line + [LF] + [LF]) == []
    ensures Output(max, [line, [LF] + [LF]]) == [OnEvent(Event(1, MESSAGE, [], [], None, true))]
  {
    var (b, cut) := (Flagged(FRESH, line), Clipped(max, line, |line|));
    EmptyLine();
    CutBehind(max, line, [LF], b);
    NotKnown(line);
    ClippedStarts(max, true, line, |line|);
    SameKind(true, cut, line);
    NoField(max, FRESH, line);
    NoField(max, b, cut);
    RunBlank(max, FRESH.(firstLine := false));
    RunBlank(max, b.(firstLine := false));
    assert b.out == [] && Dispatch(b).out == [] + [OnEvent(Event(1, MESSAGE, [], [], None, true))];
  }

  /** The event of a block with one field before an empty data line. */
  function Worded(name: Bytes, value: Bytes): Event {
    Event(1, if name == EVENT && value != [] then value else MESSAGE, [], if name == ID then IdAfter([], value) else [],
      if name == RETRY then RetryAfter(None, value) else None, false)
  }

  lemma FirstProbe(max: nat, a: Acc)
    requires a == FRESH.(firstLine := false, kind := a.kind, lastId := a.lastId, retry := a.retry)
    ensures Probed(max, a).out == [OnEvent(Event(1, Shown(a).0, [], a.lastId, a.retry, false))]
  {
    ProbeField();
    assert a.(firstLine := false) == a;
    BlankDispatches(max, AppendData(max, a, []));
    assert AppendData(max, a, []).data == [] + [[]] == [[]] && Join([[]]) == [];
    assert a.out == [];
  }

  lemma ProbeShows(max: nat, name: Bytes, value: Bytes)
    requires name in {EVENT, ID, RETRY}
    ensures Probed(max, ApplyField(max, FRESH.(firstLine := false), name, value)).out == [OnEvent(Worded(name, value))]
  {
    assert EVENT[0] != ID[0] && EVENT[0] != RETRY[0] && ID[0] != RETRY[0] && name[0] != DATA[0];
    FirstProbe(max, ApplyField(max, FRESH.(firstLine := false), name, value));
  }

  lemma FieldLine(line: Bytes, name: Bytes)
    requires |line| >= SLACK && name in {EVENT, ID, RETRY} && name + [COLON] <= line
    ensures Text(true, line) == line && Field(line) == name && !IsComment(true, line) && !(DATA <= line)
  {
    assert line[0] == (name + [COLON])[0] == name[0];
    assert name[0] != BOM[0] && name[0] != COLON && name[0] != DATA[0];
    FieldIs(line, name);
  }

  lemma FieldSet(max: nat, line: Bytes, name: Bytes, value: Bytes)
    requires line != [] && !IsComment(true, line) && Text(true, line) != []
    requires Field(Text(true, line)) == name && Value(Text(true, line)) == value
    ensures ProcessLine(max, FRESH, line) == ApplyField(max, FRESH.(firstLine := false), name, value)
  {}

  lemma WholeField(max: nat, line: Bytes, name: Bytes)
    requires |line| > max + SLACK && name in {EVENT, ID, RETRY} && name + [COLON] <= line
    ensures ProcessLine(max, FRESH, line) ==
      ApplyField(max, FRESH.(firstLine := false), name, KeptValue(max, true, line) + Lost(max, line))
  {
    FieldLine(line, name);
    WholeClipped(max, line);
    ClippedValue(max, true, line, max + SLACK, name);
    FieldSet(max, line, name, KeptValue(max, true, line) + Lost(max, line));
  }

  lemma ClippedField(max: nat, line: Bytes, name: Bytes)
    requires |line| > max + SLACK && name in {EVENT, ID, RETRY} && name + [COLON] <= line
    ensures ProcessLine(max, FRESH, Clipped(max, line, |line|)) ==
      ApplyField(max, FRESH.(firstLine := false), name, KeptValue(max, true, line))
  {
    var cut := Clipped(max, line, |line|);
    FieldLine(line, name);
    ClippedStarts(max, true, line, |line|);
    LongText(true, cut);
    ClippedValue(max, true, line, |line|, name);
    NoMoreBytes(KeptValue(max, true, line));
    FieldSet(max, cut, name, KeptValue(max, true, line));
  }

  /** A loss in silence: an overlong type, id or retry time before the data is reported whole if the stream comes in
      one piece, and clipped, with no flag to tell, if it is cut behind the line. */
  lemma SilentLoss(max: nat, line: Bytes, name: Bytes)
    requires EolPos(line) == |line| && |line| > max + SLACK && name in {EVENT, ID, RETRY} && name + [COLON] <= line
    ensures var (kept, lost) := (KeptValue(max, true, line), Lost(max, line));
      && Reference(max, line + [LF] + PROBE) == [OnEvent(Worded(name, kept + lost))]
      && Output(max, [line, [LF] + PROBE]) == [OnEvent(Worded(name, kept))]
      && kept != [] && lost != []
  {
    var (kept, lost) := (KeptValue(max, true, line), Lost(max, line));
    FieldLine(line, name);
    ProbeLines();
    WholeLines(PROBE);
    CutBehind(max, line, PROBE, FRESH);
    WholeField(max, line, name);
    ClippedField(max, line, name);
    ProbeRuns(max, ProcessLine(max, FRESH, line));
    ProbeRuns(max, ProcessLine(max, FRESH, Clipped(max, line, |line|)));
    ProbeShows(max, name, kept);
    ProbeShows(max, name, kept + lost);
    ClippedValue(max, true, line, |line|, name);
  }

  /** A data field whose value is one byte longer than the maximum. */
  function LongField(max: nat): Bytes { DATA_FIELD + seq(max + 1, k => DATA[0]) }

  lemma LongFieldFlags(max: nat)
    ensures EolPos(LongField(max)) == |LongField(max)| && LineFits(max, true, LongField(max))
    ensures ProcessLine(max, FRESH, LongField(max)).truncated
  {
    var line := LongField(max);
    EolPosIs(line, |line|);
    IndexIs(line, COLON, 4);
    assert line[0] == DATA[0] && Field(line) == DATA;
    assert line[5..][0] == DATA[0] && Value(line) == line[5..];
  }

  lemma EmptyFieldOpens(max: nat)
    ensures ProcessLine(max, FRESH, DATA_FIELD).data == [[]] && !ProcessLine(max, FRESH, DATA_FIELD).truncated
  {
    ProbeField();
  }

  lemma OneSafeLine(max: nat, line: Bytes)
    requires EolPos(line) == |line| && LineFits(max, true, line)
    ensures var before := line + [LF];
      && Whole(before) && Safe(max, FRESH, Lines(before)) && Reached(max, before) == ProcessLine(max, FRESH, line)
  {
    EmptyLine();
    Closes(line, []);
    LinesClose(line, []);
    NoMoreBytes(line + [LF]);
    NoMoreLines([line]);
    RunFirst(max, FRESH, line, []);
  }

  /** Safe lines lead to all states of an event: none, begun, and begun and flagged. */
  lemma StatesArise(max: nat)
    ensures Whole([]) && Safe(max, FRESH, Lines([])) && Reached(max, []) == FRESH
    ensures var open := DATA_FIELD + [LF];
      && Whole(open) && Safe(max, FRESH, Lines(open))
      && Reached(max, open).data != [] && !Reached(max, open).truncated
    ensures var flagged := LongField(max) + [LF];
      Whole(flagged) && Safe(max, FRESH, Lines(flagged)) && Reached(max, flagged).truncated
  {
    EmptyLine();
    ProbeField();
    EmptyFieldOpens(max);
    OneSafeLine(max, DATA_FIELD);
    LongFieldFlags(max);
    OneSafeLine(max, LongField(max));
  }
}
