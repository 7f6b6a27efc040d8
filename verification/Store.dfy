/** Store and Reader as objects: fields updated in place, each method body one
    critical section (or, for Ingest, the whole undisturbed goroutine). */
module StoreImpl {
  import opened Prelude
  import opened ReplayLog

  // ---- Ingest -----------------------------------------------------------

  /** One turn of the ingest loop: what the context, the source and the observer answered. */
  datatype Turn = Turn(canceled: bool, data: seq<byte>, refused: bool, end: Option<Option<Error>>)

  /** Whether a turn's bytes are taken over, and the terminal error if the loop ends with it. */
  function Judge(expected: int, maxBody: int, total: nat, t: Turn): (bool, Option<Option<Error>>) {
    var now := total + |t.data|;
    if t.canceled then (false, Some(Some(Canceled)))
    else if t.data != [] && expected >= 0 && now > expected then (false, Some(Some(UnexpectedEOF)))
    else if t.data != [] && now > maxBody then (false, Some(Some(TooLarge)))
    else if t.data != [] && t.refused then (false, Some(Some(Observer)))
    else (t.data != [],
          if t.end == Some(None) && expected >= 0 && now != expected then Some(Some(UnexpectedEOF)) else t.end)
  }

  /** The ingest loop as a recursion over a finite script; a source that never ends leaves no verdict. */
  function IngestAll(expected: int, maxBody: int, l: Log, total: nat, script: seq<Turn>): (Log, nat,
                     Option<Option<Error>>)
    decreases |script|
  {
    if script == [] then (l, total, None)
    else
      var (taken, verdict) := Judge(expected, maxBody, total, script[0]);
      var m := if taken then Append(l, script[0].data) else l;
      var now := if taken then total + |script[0].data| else total;
      if verdict.Some? then (m, now, verdict)
      else IngestAll(expected, maxBody, m, now, script[1..])
  }

  function Delivered(script: seq<Turn>): seq<byte> {
    if script == [] then [] else script[0].data + Delivered(script[1..])
  }

  /** The bytes ingest accepts from a script. */
  function Kept(expected: int, maxBody: int, total: nat, script: seq<Turn>): seq<byte>
    decreases |script|
  {
    if script == [] then []
    else
      var (taken, verdict) := Judge(expected, maxBody, total, script[0]);
      var data := if taken then script[0].data else [];
      if verdict.Some? then data
      else data + Kept(expected, maxBody, total + |data|, script[1..])
  }

  lemma PrefixAfter(a: seq<byte>, b: seq<byte>, c: seq<byte>)
    requires b <= c
    ensures a + b <= a + c
  {}

  lemma {:induction false} KeptDelivered(expected: int, maxBody: int, total: nat, script: seq<Turn>)
    ensures Kept(expected, maxBody, total, script) <= Delivered(script)
    decreases |script|
  {
    if script != [] {
      var t := script[0];
      var (taken, verdict) := Judge(expected, maxBody, total, t);
      if verdict.None? {
        KeptDelivered(expected, maxBody, total + |t.data|, script[1..]);
        PrefixAfter(t.data, Kept(expected, maxBody, total + |t.data|, script[1..]), Delivered(script[1..]));
      }
    }
  }

  lemma {:induction false} KeptFits(expected: int, maxBody: int, l: Log, total: nat, script: seq<Turn>)
    requires total <= maxBody && (expected >= 0 ==> total <= expected)
    ensures var (_, now, verdict) := IngestAll(expected, maxBody, l, total, script);
      && now == total + |Kept(expected, maxBody, total, script)| <= maxBody
      && (expected >= 0 ==> now <= expected)
      && (verdict == Some(None) && expected >= 0 ==> now == expected)
    decreases |script|
  {
    if script != [] {
      var t := script[0];
      var (taken, verdict) := Judge(expected, maxBody, total, t);
      if verdict.None? {
        KeptFits(expected, maxBody, if taken then Append(l, t.data) else l, total + |t.data|, script[1..]);
      }
    }
  }

  /** Whatever the source does, ingest keeps a prefix of what it delivered, within both limits,
      and reports success only for a body of the declared length. */
  lemma KeptIsPrefix(expected: int, maxBody: int, l: Log, total: nat, script: seq<Turn>)
    requires total <= maxBody && (expected >= 0 ==> total <= expected)
    ensures Kept(expected, maxBody, total, script) <= Delivered(script)
    ensures var (_, now, verdict) := IngestAll(expected, maxBody, l, total, script);
      && now == total + |Kept(expected, maxBody, total, script)| <= maxBody
      && (expected >= 0 ==> now <= expected)
      && (verdict == Some(None) && expected >= 0 ==> now == expected)
  {
    KeptDelivered(expected, maxBody, total, script);
    KeptFits(expected, maxBody, l, total, script);
  }

  /** A turn that delivers bytes, or nothing, and lets the loop go on. */
  predicate Plain(t: Turn) { !t.canceled && (t.data == [] || !t.refused) && t.end.None? }

  lemma PlainSlices(script: seq<Turn>, k: nat, rest: seq<Turn>)
    requires 0 < k <= |script| && rest == script[1..]
    ensures Delivered(script[..k]) == script[0].data + Delivered(rest[..k - 1]) && rest[k - 1..] == script[k..]
  {
    assert script[..k][1..] == rest[..k - 1] && script[..k][0] == script[0];
  }

  lemma PlainTurn(expected: int, maxBody: int, l: Log, total: nat, script: seq<Turn>, t: Turn, rest: seq<Turn>)
    requires script == [t] + rest && Plain(t)
    requires total + |t.data| <= maxBody && (expected < 0 || total + |t.data| <= expected)
    ensures Kept(expected, maxBody, total, script) == t.data + Kept(expected, maxBody, total + |t.data|, rest)
    ensures IngestAll(expected, maxBody, l, total, script) ==
      IngestAll(expected, maxBody, if t.data != [] then Append(l, t.data) else l, total + |t.data|, rest)
  {
    assert script[1..] == rest;
    assert t.data == [] ==> t.data + Kept(expected, maxBody, total, rest) == Kept(expected, maxBody, total, rest);
  }

  /** The first k turns let the loop go on, with `now` bytes taken over. */
  predicate AllPlain(expected: int, maxBody: int, total: nat, script: seq<Turn>, k: nat, now: nat) {
    && k <= |script| && (forall i :: 0 <= i < k ==> Plain(script[i]))
    && now == total + |Delivered(script[..k])| <= maxBody && (expected < 0 || now <= expected)
  }

  lemma NextIsPlain(expected: int, maxBody: int, total: nat, script: seq<Turn>, k: nat, now: nat)
    requires AllPlain(expected, maxBody, total, script, k, now) && k > 0
    ensures AllPlain(expected, maxBody, total + |script[0].data|, script[1..], k - 1, now)
    ensures script == [script[0]] + script[1..] && total + |script[0].data| <= now
  {
    PlainSlices(script, k, script[1..]);
  }

  lemma {:induction false} KeptTurn(expected: int, maxBody: int, total: nat, script: seq<Turn>, t: Turn,
                                    rest: seq<Turn>, kept: seq<byte>)
    requires script == [t] + rest && Plain(t) && kept == Kept(expected, maxBody, total + |t.data|, rest)
    requires total + |t.data| <= maxBody && (expected < 0 || total + |t.data| <= expected)
    ensures Kept(expected, maxBody, total, script) == t.data + kept
  {
    PlainTurn(expected, maxBody, Streaming(expected, maxBody).log, total, script, t, rest);
  }

  lemma {:induction false} PlainTurnsAreKept(expected: int, maxBody: int, total: nat, script: seq<Turn>, k: nat,
                                             now: nat, tail: seq<byte>)
    returns (kept: seq<byte>)
    requires AllPlain(expected, maxBody, total, script, k, now) && tail == Kept(expected, maxBody, now, script[k..])
    ensures kept == Kept(expected, maxBody, total, script) == Delivered(script[..k]) + tail
    decreases k
  {
    if k == 0 {
      assert script[..0] == [] && script[0..] == script;
      kept := tail;
    } else {
      var (t, rest) := (script[0], script[1..]);
      PlainSlices(script, k, rest);
      NextIsPlain(expected, maxBody, total, script, k, now);
      kept := PlainTurnsAreKept(expected, maxBody, total + |t.data|, rest, k - 1, now, tail);
      KeptTurn(expected, maxBody, total, script, t, rest, kept);
      Prelude.Regroup(t.data, Delivered(rest[..k - 1]), tail);
      kept := t.data + kept;
    }
  }

  lemma {:induction false} PlainTurnsPass(expected: int, maxBody: int, l: Log, total: nat, script: seq<Turn>, k: nat,
                                          now: nat)
    returns (m: Log)
    requires AllPlain(expected, maxBody, total, script, k, now)
    ensures IngestAll(expected, maxBody, l, total, script) == IngestAll(expected, maxBody, m, now, script[k..])
    decreases k
  {
    if k == 0 {
      m := l;
      assert script[..0] == [] && script[0..] == script;
    } else {
      var (t, rest) := (script[0], script[1..]);
      PlainSlices(script, k, rest);
      NextIsPlain(expected, maxBody, total, script, k, now);
      PlainTurn(expected, maxBody, l, total, script, t, rest);
      var next := if t.data != [] then Append(l, t.data) else l;
      m := PlainTurnsPass(expected, maxBody, next, total + |t.data|, rest, k - 1, now);
    }
  }

  /** Ingest keeps everything up to the first turn that stops it, and stops for the reason that turn gives: the end
      of its context, a body longer than declared, or longer than allowed, the observer, or the source's own end,
      which is an error if the declared length was not reached. */
  lemma IngestStopsWhere(expected: int, maxBody: int, l: Log, script: seq<Turn>, k: nat)
    requires k < |script| && (forall i :: 0 <= i < k ==> Plain(script[i])) && !Plain(script[k])
    requires |Delivered(script[..k])| <= maxBody && (expected < 0 || |Delivered(script[..k])| <= expected)
    ensures var (t, before) := (script[k], Delivered(script[..k]));
      var total := |before| + |t.data|;
      var (kept, verdict) := (Kept(expected, maxBody, 0, script), IngestAll(expected, maxBody, l, 0, script).2);
      if t.canceled then
        kept == before && verdict == Some(Some(Canceled))
      else if expected >= 0 && total > expected then
        kept == before && verdict == Some(Some(UnexpectedEOF))
      else if total > maxBody then
        kept == before && verdict == Some(Some(TooLarge))
      else if t.refused && t.data != [] then
        kept == before && verdict == Some(Some(Observer))
      else
        && kept == before + t.data
        && verdict == if t.end == Some(None) && expected >= 0 && total != expected then Some(Some(UnexpectedEOF))
                      else t.end
  {
    var tail := Kept(expected, maxBody, |Delivered(script[..k])|, script[k..]);
    var kept := PlainTurnsAreKept(expected, maxBody, 0, script, k, |Delivered(script[..k])|, tail);
    var m := PlainTurnsPass(expected, maxBody, l, 0, script, k, |Delivered(script[..k])|);
    assert script[k..][0] == script[k];
    var before := Delivered(script[..k]);
    assert before + [] == before;
  }

  /** The log holds `more` beyond what it held before, unless it takes nothing any more. */
  predicate Gained(l: Log, more: seq<byte>, m: Log) {
    && m == l.(chunks := m.chunks, size := m.size)
    && if l.cleaned || l.discarding then m == l else Concat(m.chunks) == Concat(l.chunks) + more
  }

  lemma AppendGains(l: Log, data: seq<byte>, taken: bool)
    ensures Gained(l, if taken then data else [], if taken then Append(l, data) else l)
  {
    ConcatAppend(l.chunks, data);
    assert Concat(l.chunks) + [] == Concat(l.chunks);
  }

  lemma GainedMore(l: Log, x: seq<byte>, m: Log, y: seq<byte>, n: Log)
    requires Gained(l, x, m) && Gained(m, y, n)
    ensures Gained(l, x + y, n)
  {
    assert Concat(l.chunks) + (x + y) == (Concat(l.chunks) + x) + y;
  }

  /** One turn of both recursions. */
  lemma TurnUnfolds(expected: int, maxBody: int, l: Log, total: nat, script: seq<Turn>, data: seq<byte>, m: Log)
    requires script != []
    requires var taken := Judge(expected, maxBody, total, script[0]).0;
      data == (if taken then script[0].data else []) && m == if taken then Append(l, script[0].data) else l
    ensures var verdict := Judge(expected, maxBody, total, script[0]).1;
      if verdict.Some? then
        Kept(expected, maxBody, total, script) == data && IngestAll(expected, maxBody, l, total, script).0 == m
      else
        && Kept(expected, maxBody, total, script) == data + Kept(expected, maxBody, total + |data|, script[1..])
        && IngestAll(expected, maxBody, l, total, script) ==
             IngestAll(expected, maxBody, m, total + |data|, script[1..])
  {}

  /** Unless the bytes are being discarded, the store holds exactly what ingest kept. */
  lemma {:induction false} IngestStoresKept(expected: int, maxBody: int, l: Log, total: nat, script: seq<Turn>)
    ensures Gained(l, Kept(expected, maxBody, total, script), IngestAll(expected, maxBody, l, total, script).0)
    decreases |script|
  {
    if script == [] {
      AppendGains(l, [], false);
    } else {
      var (taken, verdict) := Judge(expected, maxBody, total, script[0]);
      var data := if taken then script[0].data else [];
      var m := if taken then Append(l, script[0].data) else l;
      TurnUnfolds(expected, maxBody, l, total, script, data, m);
      AppendGains(l, script[0].data, taken);
      if verdict.None? {
        IngestStoresKept(expected, maxBody, m, total + |data|, script[1..]);
        GainedMore(l, data, m, Kept(expected, maxBody, total + |data|, script[1..]),
                   IngestAll(expected, maxBody, m, total + |data|, script[1..]).0);
      }
    }
  }

  // ---- The loop is a run of the log's steps -------------------------------

  /** The steps one turn takes in the replay log. */
  function TurnSteps(s: Replay, t: Turn): seq<Event>
    requires s.ingest.Reading?
  {
    if t.canceled then [SourceFail(Canceled)]
    else
      var chunk := if t.data == [] then [] else [Chunk(t.data, t.refused)];
      var stopped := t.data != [] && Step(s, Chunk(t.data, t.refused)).ingest.Stopped?;
      chunk + if stopped || t.end.None? then []
              else [if t.end == Some(None) then SourceEnd else SourceFail(t.end.value.value)]
  }

  /** Where ingest stands with this verdict. */
  function Standing(verdict: Option<Option<Error>>): Ingest {
    if verdict.Some? then Stopped(verdict.value) else Reading
  }

  /** The steps of a turn as a state: its chunk, and its end unless the chunk already stopped ingest. */
  function Turned(s: Replay, t: Turn): Replay
    requires s.ingest.Reading?
  {
    if t.canceled then Step(s, SourceFail(Canceled))
    else
      var m := if t.data == [] then s else Step(s, Chunk(t.data, t.refused));
      if m.ingest.Stopped? || t.end.None? then m
      else Step(m, if t.end == Some(None) then SourceEnd else SourceFail(t.end.value.value))
  }

  lemma TurnedIsJudged(s: Replay, t: Turn)
    requires s.ingest.Reading?
    ensures var (m, taken, verdict) := (Turned(s, t), Judge(s.expected, s.maxBody, |s.stream|, t).0,
                                        Judge(s.expected, s.maxBody, |s.stream|, t).1);
      && m.ingest == Standing(verdict) && m.expected == s.expected && m.maxBody == s.maxBody
      && m.log == (if taken then Append(s.log, t.data) else s.log)
      && m.stream == s.stream + (if taken then t.data else [])
  {
    assert s.stream + [] == s.stream;
    if t.canceled { return; }
    if t.data != [] { IngestJudges(s, t.data, t.refused); }
    var m := if t.data == [] then s else Step(s, Chunk(t.data, t.refused));
    if m.ingest.Reading? && t.end == Some(None) {
      assert Turned(s, t) == Step(m, SourceEnd);
    } else if m.ingest.Reading? && t.end.Some? {
      assert Turned(s, t) == Step(m, SourceFail(t.end.value.value));
    } else {
      assert Turned(s, t) == m;
    }
  }

  lemma TurnIsRun(s: Replay, t: Turn)
    requires s.ingest.Reading?
    ensures Reaches(s, TurnSteps(s, t), Turned(s, t))
  {
    var m := Turned(s, t);
    var chunk := if t.canceled || t.data == [] then [] else [Chunk(t.data, t.refused)];
    var end := TurnSteps(s, t)[|chunk|..];
    var fed := if chunk == [] then s else Step(s, chunk[0]);
    assert TurnSteps(s, t) == chunk + end;
    assert Reaches(fed, end, m) by { assert end == [] || end[1..] == []; }
    assert Reaches(s, chunk, fed) by { assert chunk == [] || chunk[1..] == []; }
    RunsJoin(s, chunk, fed, end, m);
  }

  /** Whatever the source does, the loop takes the log through a run of ingest's own critical sections: it stores,
      counts and concludes what they do. */
  lemma {:induction false} ScriptIsRun(s: Replay, script: seq<Turn>) returns (events: seq<Event>, t: Replay)
    requires s.ingest.Reading?
    ensures Reaches(s, events, t)
    ensures var (log, total, verdict) := IngestAll(s.expected, s.maxBody, s.log, |s.stream|, script);
      t.log == log && |t.stream| == total && t.ingest == Standing(verdict)
    ensures t.stream == s.stream + Kept(s.expected, s.maxBody, |s.stream|, script)
    decreases |script|
  {
    if script == [] {
      events, t := [], s;
      assert s.stream + [] == s.stream;
    } else {
      var (taken, verdict) := Judge(s.expected, s.maxBody, |s.stream|, script[0]);
      var data := if taken then script[0].data else [];
      var m := Turned(s, script[0]);
      TurnedIsJudged(s, script[0]);
      TurnIsRun(s, script[0]);
      TurnUnfolds(s.expected, s.maxBody, s.log, |s.stream|, script, data, m.log);
      events, t := TurnSteps(s, script[0]), m;
      if verdict.None? {
        var more;
        more, t := ScriptIsRun(m, script[1..]);
        RunsJoin(s, events, m, more, t);
        events := events + more;
        Prelude.Regroup(s.stream, data, Kept(s.expected, s.maxBody, |m.stream|, script[1..]));
      }
    }
  }

  // ---- Copying out ------------------------------------------------------

  lemma WindowStep(p: seq<byte>, chunk: seq<byte>, offset: nat, want: nat)
    requires |Window(p, offset, want)| < want
    ensures var from := if offset <= |p| then 0 else offset - |p|;
      Window(p + chunk, offset, want) ==
        if from >= |chunk| then Window(p, offset, want)
        else Window(p, offset, want) + chunk[from..from + Min(want - |Window(p, offset, want)|, |chunk| - from)]
  {}

  lemma WindowFull(p: seq<byte>, rest: seq<byte>, offset: nat, want: nat)
    requires |Window(p, offset, want)| == want || rest == []
    ensures Window(p + rest, offset, want) == Window(p, offset, want)
  {
    assert rest == [] ==> p + rest == p;
  }

  /** Where readAtLocked stands after the chunks that make up p. */
  ghost predicate Copied(now: seq<byte>, was: seq<byte>, p: seq<byte>, offset: nat, want: nat, written: nat,
                         remaining: nat) {
    && want <= |was|
    && remaining == (if offset <= |p| then 0 else offset - |p|)
    && written == |Window(p, offset, want)|
    && now == Window(p, offset, want) + was[written..]
  }

  lemma Overwrite(w: seq<byte>, was: seq<byte>, bytes: seq<byte>, now: seq<byte>)
    requires |w| + |bytes| <= |was| && now == w + was[|w|..]
    ensures now[..|w|] + bytes + now[|w| + |bytes|..] == (w + bytes) + was[|w| + |bytes|..]
  {}

  lemma CopiedSkip(now: seq<byte>, was: seq<byte>, p: seq<byte>, chunk: seq<byte>, offset: nat, want: nat,
                   written: nat, remaining: nat)
    requires Copied(now, was, p, offset, want, written, remaining) && written < want && remaining >= |chunk|
    ensures Copied(now, was, p + chunk, offset, want, written, remaining - |chunk|)
  {
    WindowStep(p, chunk, offset, want);
  }

  lemma CopiedSize(now: seq<byte>, was: seq<byte>, p: seq<byte>, offset: nat, want: nat, written: nat, remaining: nat)
    requires Copied(now, was, p, offset, want, written, remaining)
    ensures |now| == |was| && written <= want
  {}

  lemma CopiedStep(now: seq<byte>, after: seq<byte>, was: seq<byte>, p: seq<byte>, chunk: seq<byte>, offset: nat,
                   want: nat,
                   written: nat, remaining: nat, n: nat)
    requires Copied(now, was, p, offset, want, written, remaining) && written < want && remaining < |chunk|
    requires |now| == |was| && n == Min(want - written, |chunk| - remaining)
    requires after == now[..written] + chunk[remaining..remaining + n] + now[written + n..]
    ensures Copied(after, was, p + chunk, offset, want, written + n, 0)
  {
    var w, bytes := Window(p, offset, want), chunk[remaining..remaining + n];
    WindowStep(p, chunk, offset, want);
    Overwrite(w, was, bytes, now);
    assert offset <= |p + chunk|;
  }

  class Store {
    const expected: int
    const maxBody: int
    var chunks: seq<seq<byte>>
    var size: nat
    var refs: int
    var ingesting: bool
    var retired: bool
    var discarding: bool
    var complete: bool
    var cleaned: bool
    var reserved: bool
    var err: Option<Error>
    var ownerDone: bool

    function State(): Log
      reads this
    {
      Log(chunks, size, refs, ingesting, retired, discarding, complete, cleaned, reserved, err)
    }

    constructor Stream(expected: int, maxBody: int)
      ensures this.expected == expected && this.maxBody == maxBody && !ownerDone
      ensures State() == Streaming(expected, maxBody).log
    {
      this.expected, this.maxBody := expected, maxBody;
      chunks, size, refs, ingesting, reserved := [], 0, 2, true, true;
      retired, discarding, complete, cleaned := false, false, false, false;
      err, ownerDone := None, false;
    }

    method OpenReader() returns (r: OpenResult, reader: Reader?)
      modifies this
      ensures (State(), r) == Open(old(State())) && ownerDone == old(ownerDone)
      ensures r == if old(cleaned) then StoreClosed else if old(retired) then StoreRetired else Opened
      ensures r.Opened? <==> reader != null
      ensures reader != null ==> fresh(reader) && reader.store == this && reader.offset == 0
    {
      if cleaned {
        return StoreClosed, null;
      }
      if retired {
        return StoreRetired, null;
      }
      refs := refs + 1;
      reader := new Reader(this);
      r := Opened;
    }

    method RetireOwner()
      modifies this
      ensures ownerDone
      ensures State() == if old(ownerDone) then old(State()) else Retire(old(State()))
    {
      if !ownerDone {
        ownerDone := true;
        retired := true;
        ReleaseRefLocked();
      }
    }

    method ReleaseRefLocked()
      modifies this
      ensures State() == ReleaseRef(old(State())) && ownerDone == old(ownerDone)
      ensures refs == if old(refs) > 0 then old(refs) - 1 else old(refs)
    {
      if refs > 0 {
        refs := refs - 1;
      }
      if retired && ingesting && refs == 1 && !discarding {
        chunks := [];
        if reserved {
          reserved := false;
        }
        discarding := true;
      }
      if refs == 0 {
        CleanupLocked();
      }
    }

    method CleanupLocked()
      modifies this
      ensures State() == Cleanup(old(State())) && ownerDone == old(ownerDone)
      ensures cleaned && (old(cleaned) ==> State() == old(State()))
      ensures !old(cleaned) ==> chunks == [] && !reserved
    {
      if cleaned {
        return;
      }
      chunks := [];
      if reserved {
        reserved := false;
      }
      cleaned := true;
    }

    method AppendChunk(data: seq<byte>)
      modifies this
      ensures State() == Append(old(State()), data) && ownerDone == old(ownerDone)
    {
      if cleaned || discarding {
        return;
      }
      chunks := chunks + [data];
      size := size + |data|;
    }

    method FinishResult(result: Option<Error>)
      modifies this
      ensures State() == Finish(old(State()), result) && ownerDone == old(ownerDone)
      ensures complete && err == if old(complete) then old(err) else result
    {
      if !complete {
        err := result;
        complete := true;
      }
    }

    /** One turn of the ingest loop. */
    method IngestTurn(turn: Turn, total: nat) returns (taken: bool, verdict: Option<Option<Error>>)
      modifies this
      ensures (taken, verdict) == Judge(expected, maxBody, total, turn) && ownerDone == old(ownerDone)
      ensures State() == if taken then Append(old(State()), turn.data) else old(State())
    {
      taken := false;
      if turn.canceled {
        return false, Some(Some(Canceled));
      }
      if turn.data != [] {
        if expected >= 0 && total + |turn.data| > expected {
          return false, Some(Some(UnexpectedEOF));
        }
        if total + |turn.data| > maxBody {
          return false, Some(Some(TooLarge));
        }
        if turn.refused {
          return false, Some(Some(Observer));
        }
        AppendChunk(turn.data);
        taken := true;
      }
      verdict := turn.end;
      if turn.end == Some(None) && expected >= 0 && total + |turn.data| != expected {
        verdict := Some(Some(UnexpectedEOF));
      }
    }

    /** The ingest goroutine run against a script of turns. Without a verdict it is still reading. */
    method Ingest(script: seq<Turn>) returns (total: nat, verdict: Option<Option<Error>>)
      modifies this
      ensures var (log, now, end) := IngestAll(expected, maxBody, old(State()), 0, script);
        && total == now && verdict == end
        && State() == if end.Some? then Leave(Finish(log, end.value)) else log
      ensures ownerDone == old(ownerDone)
    {
      total, verdict := 0, None;
      var i := 0;
      assert script[0..] == script;
      while i < |script| && verdict.None?
        invariant 0 <= i <= |script|
        invariant ownerDone == old(ownerDone)
        invariant IngestAll(expected, maxBody, old(State()), 0, script) ==
          if verdict.Some? then (State(), total, verdict)
          else IngestAll(expected, maxBody, State(), total, script[i..])
      {
        var taken;
        assert script[i..][1..] == script[i + 1..];
        taken, verdict := IngestTurn(script[i], total);
        if taken {
          total := total + |script[i].data|;
        }
        i := i + 1;
      }
      if verdict.Some? {
        FinishResult(verdict.value);
        ingesting := false;
        ReleaseRefLocked();
      }
    }

    /** readAtLocked, copying into the first `want` cells of data. */
    method ReadAtLocked(data: array<byte>, want: nat, offset: nat) returns (written: nat)
      requires want <= data.Length
      modifies data
      ensures written == |Window(Concat(chunks), offset, want)|
      ensures data[..] == Window(Concat(chunks), offset, want) + old(data[..])[written..]
    {
      var remaining := offset;
      written := 0;
      ghost var was, p := data[..], [];
      var k := 0;
      while k < |chunks| && written < want
        invariant 0 <= k <= |chunks| && p == Concat(chunks[..k])
        invariant Copied(data[..], was, p, offset, want, written, remaining)
      {
        ConcatTake(chunks, k);
        written, remaining := CopyChunk(data, want, written, remaining, chunks[k], was, p, offset);
        p := p + chunks[k];
        k := k + 1;
      }
      ConcatSplit(chunks, k);
      WindowFull(p, Concat(chunks[k..]), offset, want);
    }

    /** The body of readAtLocked's loop. */
    static method CopyChunk(data: array<byte>, want: nat, written: nat, remaining: nat, chunk: seq<byte>,
                            ghost was: seq<byte>, ghost p: seq<byte>, ghost offset: nat)
      returns (written': nat, remaining': nat)
      requires want <= data.Length && written < want
      requires Copied(data[..], was, p, offset, want, written, remaining)
      modifies data
      ensures Copied(data[..], was, p + chunk, offset, want, written', remaining')
    {
      if remaining >= |chunk| {
        CopiedSkip(data[..], was, p, chunk, offset, want, written, remaining);
        return written, remaining - |chunk|;
      }
      var n := Min(want - written, |chunk| - remaining);
      CopyPart(data, want, written, remaining, chunk, n, was, p, offset);
      return written + n, 0;
    }

    /** The part of a chunk that is wanted and fits. */
    static method CopyPart(data: array<byte>, want: nat, written: nat, remaining: nat, chunk: seq<byte>, n: nat,
                           ghost was: seq<byte>, ghost p: seq<byte>, ghost offset: nat)
      requires want <= data.Length && written < want
      requires remaining < |chunk| && n == Min(want - written, |chunk| - remaining)
      requires Copied(data[..], was, p, offset, want, written, remaining)
      modifies data
      ensures Copied(data[..], was, p + chunk, offset, want, written + n, 0)
    {
      ghost var now := data[..];
      CopiedSize(now, was, p, offset, want, written, remaining);
      Copy(data, written, chunk[remaining..remaining + n]);
      CopiedStep(now, data[..], was, p, chunk, offset, want, written, remaining, n);
    }

    static method Copy(data: array<byte>, at: nat, bytes: seq<byte>)
      requires at + |bytes| <= data.Length
      modifies data
      ensures data[..] == old(data[..])[..at] + bytes + old(data[..])[at + |bytes|..]
    {
      forall i | 0 <= i < |bytes| {
        data[at + i] := bytes[i];
      }
    }
  }

  class Reader {
    var store: Store?
    var offset: nat

    constructor (store: Store)
      ensures this.store == store && offset == 0
    {
      this.store := store;
      offset := 0;
    }

    /** One pass of Read's loop: copy, end (and close), or wait; `canceled` is what ends the wait, if anything does. */
    method Read(data: array<byte>, canceled: bool) returns (n: nat, blocked: bool, end: Option<Option<Error>>)
      modifies this, store, data
      ensures offset == old(offset) + n && n <= data.Length
      ensures old(store) == null ==> n == 0 && !blocked && end == Some(Some(ClosedStore)) && store == null
      ensures old(store) != null && data.Length == 0 ==>
        n == 0 && !blocked && end.None? && store == old(store) && store.State() == old(store.State())
      ensures old(store) != null && data.Length > 0 ==>
        match Peek(old(store.State()), old(offset), data.Length)
        case Data(bytes) =>
          && !blocked && end.None? && data[..] == bytes + old(data[..])[|bytes|..] && n == |bytes|
          && store == old(store) && store.State() == old(store.State())
        case End(err) =>
          !blocked && end == Some(err) && n == 0 && store == null &&
          old(store).State() == ReleaseRef(old(store.State()))
        case Blocked =>
          && n == 0 && blocked == !canceled
          && if canceled then end == Some(Some(Canceled)) && store == null &&
               old(store).State() == ReleaseRef(old(store.State()))
             else end.None? && store == old(store) && store.State() == old(store.State())
      ensures n == 0 ==> data[..] == old(data[..])
      ensures old(store) != null && old(offset) >= old(store.size) && old(store.complete) && data.Length > 0 ==>
        end == Some(old(store.err)) && !blocked && store == null
      ensures old(store) != null && old(offset) >= old(store.size) && !old(store.complete) && data.Length > 0 ==>
        blocked == !canceled && (canceled ==> end == Some(Some(Canceled)) && store == null)
    {
      n, blocked, end := 0, false, None;
      if store == null {
        end := Some(Some(ClosedStore));
        return;
      }
      if data.Length == 0 {
        return;
      }
      if offset < store.size {
        n := store.ReadAtLocked(data, Min(data.Length, store.size - offset), offset);
        offset := offset + n;
        return;
      }
      if store.complete {
        end := Some(store.err);
        Close();
        return;
      }
      if canceled {
        end := Some(Some(Canceled));
        Close();
        return;
      }
      blocked := true;
    }

    method Close()
      modifies this, store
      ensures store == null && offset == old(offset)
      ensures old(store) != null ==> old(store).State() == ReleaseRef(old(store.State()))
    {
      if store != null {
        store.ReleaseRefLocked();
        store := null;
      }
    }
  }
}
