/** The single-writer, many-reader replay log (internal/core/bodystore/store.go).
    A Log holds the fields guarded by the store's mutex; each function on it is one
    critical section. Replay adds the ingest goroutine, the owner and the readers,
    and lets their critical sections interleave freely. */
module ReplayLog {
  import opened Prelude
  import opened Sums

  datatype Error = UnexpectedEOF | TooLarge | Observer | Source | Canceled | ClosedStore

  /** The mutex-guarded fields of Store. `refs` is signed as in the source; `reserved` says
      whether the reservation pointer is set. */
  datatype Log = Log(chunks: seq<seq<byte>>, size: nat, refs: int, ingesting: bool, retired: bool,
                     discarding: bool, complete: bool, cleaned: bool, reserved: bool, err: Option<Error>)

  // ---- Critical sections ------------------------------------------------

  function Cleanup(l: Log): Log {
    if l.cleaned then l else l.(chunks := [], reserved := false, cleaned := true)
  }

  /** releaseRefLocked */
  function ReleaseRef(l: Log): Log {
    var a := if l.refs > 0 then l.(refs := l.refs - 1) else l;
    var b := if a.retired && a.ingesting && a.refs == 1 && !a.discarding
             then a.(chunks := [], reserved := false, discarding := true) else a;
    if b.refs == 0 then Cleanup(b) else b
  }

  datatype OpenResult = Opened | StoreClosed | StoreRetired

  function Open(l: Log): (Log, OpenResult) {
    if l.cleaned then (l, StoreClosed)
    else if l.retired then (l, StoreRetired)
    else (l.(refs := l.refs + 1), Opened)
  }

  function Retire(l: Log): Log { ReleaseRef(l.(retired := true)) }

  function Append(l: Log, data: seq<byte>): Log {
    if l.cleaned || l.discarding then l
    else l.(chunks := l.chunks + [data], size := l.size + |data|)
  }

  function Finish(l: Log, err: Option<Error>): Log {
    if l.complete then l else l.(err := err, complete := true)
  }

  /** The last critical section of ingest. */
  function Leave(l: Log): Log { ReleaseRef(l.(ingesting := false)) }

  datatype ReadResult = Data(bytes: seq<byte>) | End(err: Option<Error>) | Blocked

  /** The bytes from `offset` on, at most `want` of them. */
  function Window(flat: seq<byte>, offset: nat, want: nat): (r: seq<byte>)
    ensures |r| == if offset <= |flat| then Min(want, |flat| - offset) else 0
  {
    if offset <= |flat| then flat[offset..Min(|flat|, offset + want)] else []
  }

  /** One pass of Reader.Read's loop for a buffer of `want` bytes. */
  function Peek(l: Log, offset: nat, want: nat): ReadResult {
    if offset < l.size then Data(Window(Concat(l.chunks), offset, Min(want, l.size - offset)))
    else if l.complete then End(l.err)
    else Blocked
  }

  // ---- Whole system -----------------------------------------------------

  datatype Reader = Reader(offset: nat, live: bool, yielded: seq<byte>, ended: Option<Option<Error>>)

  /** Where the ingest goroutine is: in its loop, past it with a terminal error, past finish, or gone. */
  datatype Ingest = Reading | Stopped(err: Option<Error>) | Finished | Gone

  /** `stream` is everything ingest has accepted so far, its `total` is |stream|;
      `releases` counts the closes of the reservation. */
  datatype Replay = Replay(log: Log, expected: int, maxBody: int, streaming: bool, owned: bool,
                           ingest: Ingest, stream: seq<byte>, readers: seq<Reader>, releases: nat)

  /** The store `stream` returns for a source, once the ingester's reference is taken. */
  function Streaming(expected: int, maxBody: int): Replay {
    Replay(Log([], 0, 2, true, false, false, false, false, true, None),
           expected, maxBody, true, true, Reading, [], [], 0)
  }

  /** A store without a source (Empty, or stream with a nil source), complete from the start. Whatever length was
      declared is kept, and not compared with the nothing that was ingested. */
  function Sourceless(expected: int, maxBody: int): Replay {
    Replay(Log([], 0, 1, false, false, false, true, false, false, None),
           expected, maxBody, false, true, Gone, [], [], 0)
  }

  datatype Event =
    | Chunk(data: seq<byte>, refused: bool)  // the source delivered bytes; refused is the observer's answer
    | SourceEnd                              // io.EOF
    | SourceFail(err: Error)                 // a read error, or the context ended
    | FinishResult                           // finish(result)
    | IngestLeaves                           // drop the ingester's reference
    | OpenReader
    | ReadBytes(i: nat, want: nat)
    | CloseReader(i: nat)
    | RetireOwner                            // also the first half of Close

  predicate Enabled(s: Replay, e: Event) {
    match e
    case Chunk(data, _) => s.ingest.Reading? && |data| > 0
    case SourceEnd => s.ingest.Reading?
    case SourceFail(_) => s.ingest.Reading?
    case FinishResult => s.ingest.Stopped?
    case IngestLeaves => s.ingest.Finished?
    case OpenReader => true
    case ReadBytes(i, want) => i < |s.readers| && s.readers[i].live && s.readers[i].ended.None? && want > 0
    case CloseReader(i) => i < |s.readers|
    case RetireOwner => true
  }

  /** The checks ingest makes before it accepts a chunk. */
  function Objection(s: Replay, data: seq<byte>, refused: bool): Option<Error> {
    var total := |s.stream| + |data|;
    if s.expected >= 0 && total > s.expected then Some(UnexpectedEOF)
    else if total > s.maxBody then Some(TooLarge)
    else if refused then Some(Observer)
    else None
  }

  /** Charges a change of the log's reservation to the release counter. */
  function WithLog(s: Replay, l: Log): Replay {
    s.(log := l, releases := s.releases + if s.log.reserved && !l.reserved then 1 else 0)
  }

  function Step(s: Replay, e: Event): Replay
    requires Enabled(s, e)
  {
    match e
    case Chunk(data, refused) =>
      var objection := Objection(s, data, refused);
      if objection.Some? then s.(ingest := Stopped(objection))
      else WithLog(s, Append(s.log, data)).(stream := s.stream + data)
    case SourceEnd =>
      s.(ingest := Stopped(if s.expected >= 0 && |s.stream| != s.expected then Some(UnexpectedEOF) else None))
    case SourceFail(err) => s.(ingest := Stopped(Some(err)))
    case FinishResult => WithLog(s, Finish(s.log, s.ingest.err)).(ingest := Finished)
    case IngestLeaves => WithLog(s, Leave(s.log)).(ingest := Gone)
    case OpenReader =>
      var (l, r) := Open(s.log);
      if r.Opened? then s.(log := l, readers := s.readers + [Reader(0, true, [], None)]) else s
    case ReadBytes(i, want) =>
      var r := s.readers[i];
      (match Peek(s.log, r.offset, want)
       case Data(bytes) => s.(readers := s.readers[i := r.(offset := r.offset + |bytes|, yielded := r.yielded + bytes)])
       case End(err) => s.(readers := s.readers[i := r.(ended := Some(err))])
       case Blocked => s)
    case CloseReader(i) =>
      if s.readers[i].live then
        WithLog(s, ReleaseRef(s.log)).(readers := s.readers[i := s.readers[i].(live := false)])
      else s
    case RetireOwner =>
      if s.owned then WithLog(s, Retire(s.log)).(owned := false) else s
  }

  // ---- Invariant --------------------------------------------------------

  function LiveWeight(r: Reader): int { One(r.live) }
  function Live(readers: seq<Reader>): int { SumOf(readers, LiveWeight) }

  /** Who still needs the stored bytes. */
  predicate Needed(s: Replay) { s.owned || Live(s.readers) > 0 }

  /** The reference count is exact and the flags say what they should. */
  ghost predicate Counted(s: Replay) {
    && s.log.refs == One(s.owned) + One(s.log.ingesting) + Live(s.readers)
    && (s.log.retired <==> !s.owned)
    && (s.log.ingesting <==> !s.ingest.Gone?)
    && (s.log.complete <==> s.ingest.Finished? || s.ingest.Gone?)
    && (s.log.cleaned <==> s.log.refs == 0)
    && (s.log.discarding ==> !Needed(s))
    && (!Needed(s) ==> s.log.discarding || s.log.cleaned)
    && (s.log.reserved <==> s.streaming && Needed(s))
    && s.releases == One(s.streaming && !s.log.reserved)
    && Live(s.readers) >= 0
  }

  /** While anybody needs the bytes, the log is the accepted stream. */
  ghost predicate Faithful(s: Replay) {
    && (Needed(s) ==> Concat(s.log.chunks) == s.stream && s.log.size == |s.stream|)
    && (!Needed(s) ==> s.log.chunks == [])
    && s.log.size <= |s.stream|
    && (s.streaming ==> |s.stream| <= s.maxBody)
    && (s.expected >= 0 ==> |s.stream| <= s.expected)
    && (s.ingest == Stopped(None) || (s.log.complete && s.log.err == None) ==>
          s.expected >= 0 ==> |s.stream| == s.expected)
  }

  ghost predicate ReaderOk(s: Replay, r: Reader) {
    && r.offset <= |s.stream|
    && r.yielded == s.stream[..r.offset]
    && (r.ended.Some? ==> s.log.complete && s.log.err == r.ended.value && r.offset == |s.stream|)
  }

  ghost predicate Inv(s: Replay) {
    && Counted(s)
    && Faithful(s)
    && forall i :: 0 <= i < |s.readers| ==> ReaderOk(s, s.readers[i])
  }

  lemma LiveBounds(readers: seq<Reader>)
    ensures Live(readers) >= 0
    ensures forall i :: 0 <= i < |readers| && readers[i].live ==> Live(readers) >= 1
  {
    NonNegative(readers, LiveWeight);
    forall i | 0 <= i < |readers| && readers[i].live ensures Live(readers) >= 1 {
      assert LiveWeight(readers[i]) <= Live(readers);
    }
  }

  lemma StartInv(expected: int, maxBody: int)
    requires maxBody >= 0
    ensures Inv(Streaming(expected, maxBody))
    ensures Inv(Sourceless(expected, maxBody)) <==> expected <= 0
  {}

  /** Readers are right about a stream that only grew, and whose end did not change once it was known. */
  lemma IngestReaders(s: Replay, t: Replay)
    requires t.readers == s.readers && forall i :: 0 <= i < |s.readers| ==> ReaderOk(s, s.readers[i])
    requires s.stream <= t.stream
    requires s.log.complete ==> t.stream == s.stream && t.log.complete && t.log.err == s.log.err
    ensures forall i :: 0 <= i < |t.readers| ==> ReaderOk(t, t.readers[i])
  {
    forall i | 0 <= i < |t.readers| ensures ReaderOk(t, t.readers[i]) {
      assert ReaderOk(s, s.readers[i]);
    }
  }

  lemma ChunkKeeps(s: Replay, data: seq<byte>, refused: bool)
    requires Inv(s) && Enabled(s, Chunk(data, refused)) && Objection(s, data, refused).None?
    ensures Inv(Step(s, Chunk(data, refused)))
  {
    ConcatAppend(s.log.chunks, data);
    IngestReaders(s, Step(s, Chunk(data, refused)));
  }

  lemma StopKeeps(s: Replay, err: Option<Error>)
    requires Inv(s) && s.ingest.Reading?
    requires err == None ==> s.expected >= 0 ==> |s.stream| == s.expected
    ensures Inv(s.(ingest := Stopped(err)))
  {
    IngestReaders(s, s.(ingest := Stopped(err)));
  }

  lemma FinishKeeps(s: Replay)
    requires Inv(s) && s.ingest.Stopped?
    ensures Inv(Step(s, FinishResult))
  {
    IngestReaders(s, Step(s, FinishResult));
  }

  lemma LeaveKeeps(s: Replay)
    requires Inv(s) && s.ingest.Finished?
    ensures Inv(Step(s, IngestLeaves))
  {
    LiveBounds(s.readers);
    IngestReaders(s, Step(s, IngestLeaves));
  }

  lemma IngestKeeps(s: Replay, e: Event)
    requires Inv(s) && Enabled(s, e)
    requires e.Chunk? || e.SourceEnd? || e.SourceFail? || e.FinishResult? || e.IngestLeaves?
    ensures Inv(Step(s, e))
  {
    match e
    case Chunk(data, refused) =>
      var objection := Objection(s, data, refused);
      if objection.None? { ChunkKeeps(s, data, refused); } else { StopKeeps(s, objection); }
    case SourceEnd => StopKeeps(s, if s.expected >= 0 && |s.stream| != s.expected then Some(UnexpectedEOF) else None);
    case SourceFail(err) => StopKeeps(s, Some(err));
    case FinishResult => FinishKeeps(s);
    case IngestLeaves => LeaveKeeps(s);
  }

  /** What one read does to the reader that makes it. */
  lemma ReaderKeeps(s: Replay, r: Reader, want: nat, d: Reader)
    requires Faithful(s) && Needed(s) && ReaderOk(s, r) && r.ended.None? && want > 0
    requires match Peek(s.log, r.offset, want)
      case Data(bytes) => d == r.(offset := r.offset + |bytes|, yielded := r.yielded + bytes)
      case End(err) => d == r.(ended := Some(err))
      case Blocked => d == r
    ensures ReaderOk(s, d) && r.yielded <= d.yielded
    ensures r.offset < |s.stream| ==> r.offset < d.offset
  {
    var bytes := Window(s.stream, r.offset, Min(want, s.log.size - r.offset));
    assert r.offset < s.log.size ==> s.stream[..r.offset] + bytes == s.stream[..r.offset + |bytes|];
  }

  lemma {:induction false} ReadKeeps(s: Replay, i: nat, want: nat)
    requires Inv(s) && Enabled(s, ReadBytes(i, want))
    ensures Inv(Step(s, ReadBytes(i, want)))
  {
    var t := Step(s, ReadBytes(i, want));
    LiveBounds(s.readers);
    assert ReaderOk(s, s.readers[i]);
    if t != s {
      var d := t.readers[i];
      assert t == s.(readers := s.readers[i := d]);
      ReaderKeeps(s, s.readers[i], want, d);
      Update(s.readers, i, d, LiveWeight);
      assert ReaderOk(t, d);
      forall k | 0 <= k < |t.readers| ensures ReaderOk(t, t.readers[k]) {
        assert ReaderOk(s, s.readers[k]);
      }
    }
  }

  /** A new reader, and the reference taken for it. */
  lemma OpenCounts(s: Replay, t: Replay)
    requires Counted(s) && Needed(s) && t.log == s.log.(refs := s.log.refs + 1)
    requires t == s.(log := t.log, readers := s.readers + [Reader(0, true, [], None)])
    ensures Counted(t) && Needed(t)
  {
    Sums.Append(s.readers, Reader(0, true, [], None), LiveWeight);
  }

  lemma OpenReaders(s: Replay, t: Replay)
    requires forall k :: 0 <= k < |s.readers| ==> ReaderOk(s, s.readers[k])
    requires t.stream == s.stream && t.log.complete == s.log.complete && t.log.err == s.log.err
    requires t.readers == s.readers + [Reader(0, true, [], None)]
    ensures forall k :: 0 <= k < |t.readers| ==> ReaderOk(t, t.readers[k])
  {
    forall k | 0 <= k < |t.readers| ensures ReaderOk(t, t.readers[k]) {
      if k < |s.readers| { assert ReaderOk(s, s.readers[k]); } else { assert s.stream[..0] == []; }
    }
  }

  lemma OpenKeeps(s: Replay)
    requires Inv(s)
    ensures Inv(Step(s, OpenReader))
  {
    var t := Step(s, OpenReader);
    if t != s {
      OpenCounts(s, t);
      OpenReaders(s, t);
    }
  }

  /** Dropping one reference of an exact count leaves an exact count, whoever drops it. */
  lemma DropKeepsCount(s: Replay, t: Replay)
    requires Counted(s)
    requires t == WithLog(s,
      if s.owned && !t.owned then Retire(s.log) else ReleaseRef(s.log)).(owned := t.owned, readers := t.readers)
    requires One(t.owned) + Live(t.readers) == One(s.owned) + Live(s.readers) - 1
    requires t.owned ==> s.owned
    requires Live(t.readers) >= 0
    ensures Counted(t)
    ensures Needed(t) ==> t.log == s.log.(refs := s.log.refs - 1, retired := !t.owned)
    ensures t.log.size == s.log.size && t.log.err == s.log.err && t.log.complete == s.log.complete
  {}

  lemma {:induction false} CloseKeeps(s: Replay, i: nat)
    requires Inv(s) && i < |s.readers|
    ensures Inv(Step(s, CloseReader(i)))
  {
    if s.readers[i].live {
      var t := Step(s, CloseReader(i));
      LiveBounds(s.readers);
      Update(s.readers, i, t.readers[i], LiveWeight);
      LiveBounds(t.readers);
      DropKeepsCount(s, t);
      forall k | 0 <= k < |t.readers| ensures ReaderOk(t, t.readers[k]) {
        assert ReaderOk(s, s.readers[k]);
      }
    }
  }

  lemma {:induction false} RetireKeeps(s: Replay)
    requires Inv(s)
    ensures Inv(Step(s, RetireOwner))
  {
    if s.owned {
      var t := Step(s, RetireOwner);
      DropKeepsCount(s, t);
      forall k | 0 <= k < |t.readers| ensures ReaderOk(t, t.readers[k]) {
        assert ReaderOk(s, s.readers[k]);
      }
    }
  }

  lemma {:induction false} StepKeeps(s: Replay, e: Event)
    requires Inv(s) && Enabled(s, e)
    ensures Inv(Step(s, e))
  {
    match e
    case ReadBytes(i, want) => ReadKeeps(s, i, want);
    case OpenReader => OpenKeeps(s);
    case CloseReader(i) => CloseKeeps(s, i);
    case RetireOwner => RetireKeeps(s);
    case _ => IngestKeeps(s, e);
  }

  ghost predicate Reaches(s: Replay, events: seq<Event>, t: Replay)
    decreases |events|
  {
    if events == [] then s == t
    else Enabled(s, events[0]) && Reaches(Step(s, events[0]), events[1..], t)
  }

  lemma StepFixed(s: Replay, e: Event)
    requires Enabled(s, e)
    ensures var t := Step(s, e); t.expected == s.expected && t.maxBody == s.maxBody && t.streaming == s.streaming
  {}

  lemma {:induction false} RunKeeps(s: Replay, events: seq<Event>, t: Replay)
    requires Inv(s) && Reaches(s, events, t)
    ensures Inv(t) && t.expected == s.expected && t.maxBody == s.maxBody && t.streaming == s.streaming
    decreases |events|
  {
    if events != [] {
      StepKeeps(s, events[0]);
      StepFixed(s, events[0]);
      RunKeeps(Step(s, events[0]), events[1..], t);
    }
  }

  /** Replay: under every interleaving each reader has been given exactly a prefix of the ingested
      stream, and one that saw end-of-file was given the whole body, of the declared length if one was declared. */
  lemma {:induction false} ReadersSeeTheStream(expected: int, maxBody: int, events: seq<Event>, t: Replay, i: nat)
    requires maxBody >= 0 && Reaches(Streaming(expected, maxBody), events, t) && i < |t.readers|
    ensures t.readers[i].offset <= |t.stream| && t.readers[i].yielded == t.stream[..t.readers[i].offset]
    ensures t.readers[i].ended == Some(None) ==>
      t.readers[i].yielded == t.stream && (expected >= 0 ==> |t.readers[i].yielded| == expected)
    ensures t.readers[i].ended.Some? ==> t.ingest.Finished? || t.ingest.Gone?
  {
    StartInv(expected, maxBody);
    RunKeeps(Streaming(expected, maxBody), events, t);
    assert ReaderOk(t, t.readers[i]);
  }

  /** The reference count is exact, discarded or cleaned storage has no reader, and the reservation
      is held exactly while the owner or a reader needs the bytes; it is given back once. */
  lemma {:induction false} ReservationLifetime(expected: int, maxBody: int, events: seq<Event>, t: Replay)
    requires maxBody >= 0 && Reaches(Streaming(expected, maxBody), events, t)
    ensures t.log.refs == One(t.owned) + One(!t.ingest.Gone?) + Live(t.readers)
    ensures t.log.discarding || t.log.cleaned ==> forall i :: 0 <= i < |t.readers| ==> !t.readers[i].live
    ensures t.log.reserved <==> !t.log.discarding && !t.log.cleaned
    ensures t.log.reserved <==> t.owned || exists i :: 0 <= i < |t.readers| && t.readers[i].live
    ensures t.releases == One(!t.log.reserved)
  {
    StartInv(expected, maxBody);
    RunKeeps(Streaming(expected, maxBody), events, t);
    LiveBounds(t.readers);
    if Live(t.readers) > 0 {
      NonNegative(t.readers, LiveWeight);
      var i :| 0 <= i < |t.readers| && LiveWeight(t.readers[i]) > 0;
      assert t.readers[i].live;
    }
  }

  ghost predicate Extends(s: Replay, t: Replay) {
    && s.stream <= t.stream
    && |s.readers| <= |t.readers|
    && (forall i :: 0 <= i < |s.readers| ==> s.readers[i].yielded <= t.readers[i].yielded)
    && (s.log.complete ==> t.stream == s.stream && t.log.complete && t.log.err == s.log.err)
  }

  lemma ReadExtends(s: Replay, i: nat, want: nat)
    requires Enabled(s, ReadBytes(i, want))
    ensures var t := Step(s, ReadBytes(i, want)); t.stream == s.stream && t.log == s.log && |t.readers| == |s.readers|
    ensures forall k :: 0 <= k < |s.readers| ==> s.readers[k].yielded <= Step(s, ReadBytes(i, want)).readers[k].yielded
  {}

  lemma StepExtends(s: Replay, e: Event)
    requires Inv(s) && Enabled(s, e)
    ensures Extends(s, Step(s, e))
  {
    if e.ReadBytes? { ReadExtends(s, e.i, e.want); }
  }

  /** A byte once given stays given and the stream only grows; after finish neither the stream
      nor the terminal error changes again. */
  lemma {:induction false} StreamGrows(s: Replay, events: seq<Event>, t: Replay)
    requires Inv(s) && Reaches(s, events, t)
    ensures Extends(s, t)
    decreases |events|
  {
    if events != [] {
      var m := Step(s, events[0]);
      StepKeeps(s, events[0]);
      StepExtends(s, events[0]);
      StreamGrows(m, events[1..], t);
      forall i | 0 <= i < |s.readers| ensures s.readers[i].yielded <= t.readers[i].yielded {
        assert s.readers[i].yielded <= m.readers[i].yielded;
      }
    }
  }

  // ---- Progress ----------------------------------------------------------

  /** What ingest makes of a chunk and of the end of its source. */
  lemma IngestJudges(s: Replay, data: seq<byte>, refused: bool)
    requires s.ingest.Reading? && data != []
    ensures var (t, total) := (Step(s, Chunk(data, refused)), |s.stream| + |data|);
      if (s.expected < 0 || total <= s.expected) && total <= s.maxBody && !refused then
        t.ingest.Reading? && t.stream == s.stream + data
      else
        && t.stream == s.stream && t.log == s.log
        && t.ingest == Stopped(Some(
             if s.expected >= 0 && total > s.expected then UnexpectedEOF
             else if total > s.maxBody then TooLarge else Observer))
    ensures Step(s, SourceEnd) ==
      s.(ingest := Stopped(if s.expected >= 0 && |s.stream| != s.expected then Some(UnexpectedEOF) else None))
    ensures forall err :: Step(s, SourceFail(err)) == s.(ingest := Stopped(Some(err)))
  {}

  /** A reader is handed out, at the start of the stream, exactly while the owner has not retired the store. */
  lemma OpensWhileOwned(s: Replay)
    requires Inv(s)
    ensures var t := Step(s, OpenReader);
      && t.readers == s.readers + (if s.owned then [Reader(0, true, [], None)] else [])
      && t.stream == s.stream && t.ingest == s.ingest && t.owned == s.owned
      && t.log.complete == s.log.complete && t.log.err == s.log.err
    ensures (Open(s.log).1 == Opened <==> s.owned) && (Open(s.log).1 == StoreClosed <==> s.log.cleaned)
  {
    LiveBounds(s.readers);
  }

  /** What a read of `want` bytes gives: the next bytes of the stream as far as they have come; at the end of a
      finished stream its terminal error; otherwise nothing yet. */
  lemma ReadGives(s: Replay, i: nat, want: nat)
    requires Inv(s) && Enabled(s, ReadBytes(i, want))
    ensures var (t, r) := (Step(s, ReadBytes(i, want)), s.readers[i]);
      var n := if want < |s.stream| - r.offset then want else |s.stream| - r.offset;
      && t == s.(readers := t.readers) && |t.readers| == |s.readers|
      && (forall k :: 0 <= k < |s.readers| && k != i ==> t.readers[k] == s.readers[k])
      && t.readers[i].live && t.readers[i].offset == r.offset + n
      && t.readers[i].yielded == s.stream[..r.offset + n]
      && t.readers[i].ended == if r.offset == |s.stream| && s.log.complete then Some(s.log.err) else None
  {
    LiveBounds(s.readers);
    assert ReaderOk(s, s.readers[i]);
    ReadKeeps(s, i, want);
    assert ReaderOk(Step(s, ReadBytes(i, want)), Step(s, ReadBytes(i, want)).readers[i]);
  }

  function Reads(i: nat, wants: seq<nat>): seq<Event>
    decreases |wants|
  {
    if wants == [] then [] else [ReadBytes(i, wants[0])] + Reads(i, wants[1..])
  }

  lemma RunGoesOn(s: Replay, e: Event, events: seq<Event>, t: Replay)
    requires Enabled(s, e) && Reaches(Step(s, e), events, t)
    ensures Reaches(s, [e] + events, t)
  {
    assert ([e] + events)[1..] == events;
  }

  /** Reader i of a finished store has been given the whole stream and told how it ended. */
  ghost predicate ReadToEnd(s: Replay, i: nat) {
    i < |s.readers| && s.readers[i].yielded == s.stream && s.readers[i].ended == Some(s.log.err)
  }

  /** Once ingest is past finish, a reader with b bytes to go has seen the whole stream and its end after at most
      b + 1 reads, however small they are. */
  lemma {:induction false} ReadsReachTheEnd(s: Replay, i: nat, wants: seq<nat>) returns (k: nat, t: Replay)
    requires Inv(s) && (s.ingest.Finished? || s.ingest.Gone?)
    requires i < |s.readers| && s.readers[i].live && s.readers[i].ended.None?
    requires |wants| > |s.stream| - s.readers[i].offset && forall j :: 0 <= j < |wants| ==> wants[j] > 0
    ensures k <= |wants| && Reaches(s, Reads(i, wants[..k]), t)
    ensures ReadToEnd(t, i) && t == s.(readers := t.readers) && |t.readers| == |s.readers|
    decreases |wants|
  {
    var want := wants[0];
    assert ReaderOk(s, s.readers[i]);
    var m := Step(s, ReadBytes(i, want));
    ReadGives(s, i, want);
    ReadKeeps(s, i, want);
    if m.readers[i].ended.Some? {
      k, t := 1, m;
      assert wants[..1] == [want] && [want][1..] == [];
      RunGoesOn(s, ReadBytes(i, want), [], t);
    } else {
      k, t := ReadsReachTheEnd(m, i, wants[1..]);
      assert wants[..k + 1][1..] == wants[1..][..k];
      RunGoesOn(s, ReadBytes(i, want), Reads(i, wants[1..][..k]), t);
      k := k + 1;
    }
  }

  function Delivery(chunks: seq<seq<byte>>): seq<Event>
    decreases |chunks|
  {
    if chunks == [] then [] else [Chunk(chunks[0], false)] + Delivery(chunks[1..])
  }

  lemma {:induction false} RunsJoin(s: Replay, a: seq<Event>, m: Replay, b: seq<Event>, t: Replay)
    requires Reaches(s, a, m) && Reaches(m, b, t)
    ensures Reaches(s, a + b, t)
    decreases |a|
  {
    if a == [] {
      assert [] + b == b;
    } else {
      RunsJoin(Step(s, a[0]), a[1..], m, b, t);
      assert a + b == [a[0]] + (a[1..] + b);
      RunGoesOn(s, a[0], a[1..] + b, t);
    }
  }

  lemma {:induction false} DeliveryIsStored(s: Replay, chunks: seq<seq<byte>>) returns (t: Replay)
    requires s.ingest.Reading? && forall j :: 0 <= j < |chunks| ==> chunks[j] != []
    requires |s.stream| + |Concat(chunks)| <= s.maxBody
    requires s.expected >= 0 ==> |s.stream| + |Concat(chunks)| <= s.expected
    ensures Reaches(s, Delivery(chunks), t)
    ensures t == s.(log := t.log, stream := s.stream + Concat(chunks), releases := t.releases)
    decreases |chunks|
  {
    if chunks == [] {
      t := s;
      assert s.stream + [] == s.stream;
    } else {
      var rest := chunks[1..];
      assert chunks == [chunks[0]] + rest;
      ConcatFront(chunks[0], rest);
      var m := Step(s, Chunk(chunks[0], false));
      IngestJudges(s, chunks[0], false);
      t := DeliveryIsStored(m, rest);
      RunGoesOn(s, Chunk(chunks[0], false), Delivery(rest), t);
      Prelude.Regroup(s.stream, chunks[0], Concat(rest));
    }
  }

  const FINISH_AND_OPEN: seq<Event> := [SourceEnd] + ([FinishResult] + ([OpenReader] + []))

  /** The source ends, the result is recorded, and a reader is opened. */
  lemma FinishesAndOpens(s: Replay) returns (t: Replay)
    requires Inv(s) && s.ingest.Reading? && s.owned && s.readers == [] && (s.expected < 0 || |s.stream| == s.expected)
    ensures Reaches(s, FINISH_AND_OPEN, t) && Inv(t)
    ensures t.stream == s.stream && t.ingest.Finished? && t.log.err == None
    ensures t.readers == [Reader(0, true, [], None)]
  {
    var ended := Step(s, SourceEnd);
    var finished := Step(ended, FinishResult);
    t := Step(finished, OpenReader);
    StepKeeps(s, SourceEnd);
    StepKeeps(ended, FinishResult);
    StepKeeps(finished, OpenReader);
    OpensWhileOwned(finished);
    RunGoesOn(finished, OpenReader, [], t);
    RunGoesOn(ended, FinishResult, [OpenReader] + [], t);
    RunGoesOn(s, SourceEnd, [FinishResult] + ([OpenReader] + []), t);
  }

  /** A body within the limits, of the declared length if one was declared, is served whole: the run that takes it
      in, finishes and opens a reader exists, and reads of any size then give that reader every byte and a clean end. */
  lemma WholeBodyIsServed(expected: int, maxBody: int, chunks: seq<seq<byte>>, wants: seq<nat>)
    returns (k: nat, t: Replay)
    requires (forall j :: 0 <= j < |chunks| ==> chunks[j] != []) && |Concat(chunks)| <= maxBody
    requires expected < 0 || |Concat(chunks)| == expected
    requires |wants| > |Concat(chunks)| && forall j :: 0 <= j < |wants| ==> wants[j] > 0
    ensures k <= |wants|
    ensures Reaches(Streaming(expected, maxBody), Delivery(chunks) + FINISH_AND_OPEN + Reads(0, wants[..k]), t)
    ensures |t.readers| == 1 && t.readers[0].yielded == Concat(chunks) && t.readers[0].ended == Some(None)
  {
    var s := Streaming(expected, maxBody);
    StartInv(expected, maxBody);
    var fed := DeliveryIsStored(s, chunks);
    RunKeeps(s, Delivery(chunks), fed);
    assert fed.stream == [] + Concat(chunks) == Concat(chunks);
    var ready := FinishesAndOpens(fed);
    k, t := ReadsReachTheEnd(ready, 0, wants);
    RunsJoin(s, Delivery(chunks), fed, FINISH_AND_OPEN, ready);
    RunsJoin(s, Delivery(chunks) + FINISH_AND_OPEN, ready, Reads(0, wants[..k]), t);
  }

  function CloseReaders(n: nat): seq<Event> { if n == 0 then [] else CloseReaders(n - 1) + [CloseReader(n - 1)] }

  lemma {:induction false} ReadersClose(s: Replay, n: nat) returns (t: Replay)
    requires Inv(s) && n <= |s.readers|
    ensures Reaches(s, CloseReaders(n), t) && |t.readers| == |s.readers| && t.owned == s.owned && t.ingest == s.ingest
    ensures forall i :: 0 <= i < n ==> !t.readers[i].live
    decreases n
  {
    if n == 0 {
      t := s;
    } else {
      var m := ReadersClose(s, n - 1);
      RunKeeps(s, CloseReaders(n - 1), m);
      t := Step(m, CloseReader(n - 1));
      assert [CloseReader(n - 1)] + [] == [CloseReader(n - 1)];
      RunGoesOn(m, CloseReader(n - 1), [], t);
      RunsJoin(s, CloseReaders(n - 1), m, [CloseReader(n - 1)], t);
    }
  }

  /** Ingest can always come to its end: its source ends, the result is recorded, and its reference is given back. */
  lemma IngestEnds(s: Replay) returns (events: seq<Event>, t: Replay)
    requires Inv(s)
    ensures Reaches(s, events, t) && Inv(t) && t.ingest.Gone?
    ensures t.owned == s.owned && t.readers == s.readers && t.stream == s.stream
    decreases match s.ingest case Reading => 3 case Stopped(_) => 2 case Finished => 1 case Gone => 0
  {
    if s.ingest.Gone? {
      events, t := [], s;
    } else {
      var e := if s.ingest.Reading? then SourceEnd else if s.ingest.Stopped? then FinishResult else IngestLeaves;
      StepKeeps(s, e);
      events, t := IngestEnds(Step(s, e));
      RunGoesOn(s, e, events, t);
      events := [e] + events;
    }
  }

  /** Everything can be given back: from any state, ingest coming to its end, the readers closing and the owner
      retiring leave no bytes, no reservation and no reader. */
  lemma ClosesDown(s: Replay) returns (events: seq<Event>, t: Replay)
    requires Inv(s)
    ensures Reaches(s, events + CloseReaders(|s.readers|) + [RetireOwner], t)
    ensures t.log.cleaned && t.log.chunks == [] && !t.log.reserved && t.releases == One(t.streaming) && !t.owned
    ensures forall i :: 0 <= i < |t.readers| ==> !t.readers[i].live
  {
    var gone;
    events, gone := IngestEnds(s);
    var m := ReadersClose(gone, |s.readers|);
    RunKeeps(gone, CloseReaders(|s.readers|), m);
    t := Step(m, RetireOwner);
    assert [RetireOwner] + [] == [RetireOwner];
    RunGoesOn(m, RetireOwner, [], t);
    StepKeeps(m, RetireOwner);
    RunsJoin(s, events, gone, CloseReaders(|s.readers|), m);
    RunsJoin(s, events + CloseReaders(|s.readers|), m, [RetireOwner], t);
    NonNegative(t.readers, LiveWeight);
  }

  // ---- Stores without a source -------------------------------------------

  /** With no ingester the declared length plays no part. */
  lemma {:induction false} ExpectedUnused(s: Replay, events: seq<Event>, t: Replay, e: int)
    requires s.ingest.Gone? && Reaches(s, events, t)
    ensures Reaches(s.(expected := e), events, t.(expected := e)) && t.stream == s.stream
    decreases |events|
  {
    if events != [] {
      var next := Step(s, events[0]);
      assert Step(s.(expected := e), events[0]) == next.(expected := e);
      ExpectedUnused(next, events[1..], t, e);
    }
  }

  /** Readers of a store without a source are given nothing and see end-of-file; that is a body of the declared
      length if and only if none, or none but the empty one, was declared. */
  lemma SourcelessIsEmpty(expected: int, maxBody: int, events: seq<Event>, t: Replay, i: nat)
    requires maxBody >= 0 && Reaches(Sourceless(expected, maxBody), events, t) && i < |t.readers|
    ensures t.readers[i].yielded == [] && t.readers[i].ended in {None, Some(None)}
    ensures (expected >= 0 ==> |t.readers[i].yielded| == expected) <==> expected <= 0
  {
    ExpectedUnused(Sourceless(expected, maxBody), events, t, 0);
    StartInv(0, maxBody);
    RunKeeps(Sourceless(0, maxBody), events, t.(expected := 0));
    StreamGrows(Sourceless(0, maxBody), events, t.(expected := 0));
    assert ReaderOk(t.(expected := 0), t.readers[i]);
  }
}
