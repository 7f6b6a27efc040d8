/** The event dispatcher and its traces (internal/core/event): emitters reserve room with two
    atomic counters, hand records to per-worker channels, and workers write them to the sink.
    Every atomic operation is one step, so a run is any interleaving of emitters and workers. */
module Dispatcher {
  import opened Prelude
  import opened Sums

  datatype Config = Config(maxRecords: nat, maxBytes: nat, workers: nat, hash: nat -> nat)

  /** The worker that serves a trace. */
  function Shard(cfg: Config, trace: nat): (w: nat)
    ensures cfg.workers > 0 ==> w < cfg.workers
  {
    if cfg.workers <= 1 then 0 else cfg.hash(trace) % cfg.workers
  }

  /** With more than one worker, traces go where their hashes say: two share a worker exactly if those agree. */
  lemma ShardSpreads(cfg: Config, a: nat, b: nat)
    requires cfg.workers > 0
    ensures Shard(cfg, a) == Shard(cfg, b) <==> cfg.hash(a) % cfg.workers == cfg.hash(b) % cfg.workers
    ensures Shard(cfg, a) == cfg.hash(a) % cfg.workers
  {}

  /** Where the emitter of a record stands. It holds its trace's lock until Returned. */
  datatype Emit =
    | Counting    // about to reserve a record slot
    | Weighing    // slot reserved, about to reserve bytes
    | Undoing     // bytes refused, about to give the slot back
    | Sending     // both reserved and the record retained, about to send
    | Releasing   // enqueue returned, about to drop emit's own reference
    | Returned

  /** Where the record stands behind the channel. */
  datatype Item = Absent | Queued | Got | Written | Freed | Light | Gone

  /** One emitted record: its sequence number within the trace, and its resource's counters. */
  datatype Record = Record(trace: nat, number: nat, size: nat, emit: Emit, item: Item, refs: int, releases: nat)

  datatype State = State(records: seq<Record>, count: int, bytes: int, sequences: map<nat, nat>, holders: map<nat, nat>,
                         queues: seq<seq<nat>>, inflight: seq<Option<nat>>, sink: seq<nat>)

  function Start(cfg: Config): State {
    State([], 0, 0, map[], map[], seq(cfg.workers, w => []), seq(cfg.workers, w => None), [])
  }

  datatype Event =
    | Emits(trace: nat, size: nat)   // take the trace lock and number the record
    | ReserveSlot(i: nat)
    | ReserveBytes(i: nat)
    | Undo(i: nat)
    | Send(i: nat)
    | Drop(i: nat)                   // emit's record.release, then unlock
    | Receive(w: nat)
    | Write(w: nat)
    | WorkerRelease(w: nat)
    | FreeBytes(w: nat)
    | FreeSlot(w: nat)

  predicate Holds(s: State, w: nat, item: Item) {
    w < |s.inflight| && s.inflight[w].Some? && s.inflight[w].value < |s.records| &&
    s.records[s.inflight[w].value].item == item
  }

  predicate At(s: State, i: nat, emit: Emit) { i < |s.records| && s.records[i].emit == emit }

  predicate Enabled(cfg: Config, s: State, e: Event) {
    match e
    case Emits(trace, _) => trace !in s.holders
    case ReserveSlot(i) => At(s, i, Counting)
    case ReserveBytes(i) => At(s, i, Weighing)
    case Undo(i) => At(s, i, Undoing)
    case Send(i) => At(s, i, Sending) && Shard(cfg, s.records[i].trace) < |s.queues|
    case Drop(i) => At(s, i, Releasing)
    case Receive(w) => w < |s.queues| && w < |s.inflight| && s.queues[w] != [] &&
        s.inflight[w].None? && s.queues[w][0] < |s.records|
    case Write(w) => Holds(s, w, Got)
    case WorkerRelease(w) => Holds(s, w, Written)
    case FreeBytes(w) => Holds(s, w, Freed)
    case FreeSlot(w) => Holds(s, w, Light)
  }

  function Set(s: State, i: nat, r: Record): State
    requires i < |s.records|
  {
    s.(records := s.records[i := r])
  }

  /** refs.Add(-1), running the callback when the count reaches zero. */
  function Unref(r: Record): Record {
    r.(refs := r.refs - 1, releases := r.releases + if r.refs - 1 == 0 then 1 else 0)
  }

  function Sequence(s: State, trace: nat): nat { if trace in s.sequences then s.sequences[trace] else 0 }

  function Step(cfg: Config, s: State, e: Event): State
    requires Enabled(cfg, s, e)
  {
    match e
    case Emits(trace, size) =>
      var number := Sequence(s, trace) + 1;
      s.(records := s.records + [Record(trace, number, size, Counting, Absent, 1, 0)],
         sequences := s.sequences[trace := number], holders := s.holders[trace := |s.records|])
    case ReserveSlot(i) =>
      if s.count >= cfg.maxRecords then Set(s, i, s.records[i].(emit := Releasing))
      else Set(s, i, s.records[i].(emit := Weighing)).(count := s.count + 1)
    case ReserveBytes(i) =>
      var r := s.records[i];
      if s.bytes + r.size > cfg.maxBytes then Set(s, i, r.(emit := Undoing))
      else Set(s, i, r.(emit := Sending, refs := r.refs + 1)).(bytes := s.bytes + r.size)
    case Undo(i) => Set(s, i, s.records[i].(emit := Releasing)).(count := s.count - 1)
    case Send(i) =>
      var r := s.records[i];
      var w := Shard(cfg, r.trace);
      if |s.queues[w]| < cfg.maxRecords then
        Set(s, i, r.(emit := Releasing, item := Queued)).(queues := s.queues[w := s.queues[w] + [i]])
      else // the default branch of the select
        Set(s, i, Unref(r).(emit := Releasing)).(bytes := s.bytes - r.size, count := s.count - 1)
    case Drop(i) =>
      Set(s, i, Unref(s.records[i]).(emit := Returned)).(holders := s.holders - {s.records[i].trace})
    case Receive(w) =>
      var i := s.queues[w][0];
      Set(s, i, s.records[i].(item := Got)).(
          queues := s.queues[w := s.queues[w][1..]], inflight := s.inflight[w := Some(i)])
    case Write(w) =>
      var i := s.inflight[w].value;
      Set(s, i, s.records[i].(item := Written)).(sink := s.sink + [i])
    case WorkerRelease(w) =>
      var i := s.inflight[w].value;
      Set(s, i, Unref(s.records[i]).(item := Freed))
    case FreeBytes(w) =>
      var i := s.inflight[w].value;
      Set(s, i, s.records[i].(item := Light)).(bytes := s.bytes - s.records[i].size)
    case FreeSlot(w) =>
      var i := s.inflight[w].value;
      Set(s, i, s.records[i].(item := Gone)).(count := s.count - 1, inflight := s.inflight[w := None])
  }

  // ---- Counters ----------------------------------------------------------

  function SlotWeight(r: Record): int {
    if r.emit in {Weighing, Undoing, Sending} || r.item in {Queued, Got, Written, Freed, Light} then 1 else 0
  }

  function ByteWeight(r: Record): int {
    if r.emit == Sending || r.item in {Queued, Got, Written, Freed} then r.size else 0
  }

  /** Records waiting in worker w's channel. */
  function QueuedAt(cfg: Config, w: nat): Record -> int {
    (r: Record) => if r.item == Queued && Shard(cfg, r.trace) == w then 1 else 0
  }

  ghost predicate Counted(cfg: Config, s: State) {
    && s.count == SumOf(s.records, SlotWeight) && 0 <= s.count <= cfg.maxRecords
    && s.bytes == SumOf(s.records, ByteWeight) && 0 <= s.bytes <= cfg.maxBytes
    && |s.queues| == |s.inflight| == cfg.workers
    && forall w :: 0 <= w < cfg.workers ==> |s.queues[w]| == SumOf(s.records, QueuedAt(cfg, w))
  }

  /** A record is behind the channel only once its emitter has sent it, and its reference count
      says who still uses it. */
  predicate RecordOk(r: Record) {
    && (r.item != Absent ==> r.emit in {Releasing, Returned})
    && r.refs == (if r.emit == Returned then 0 else 1) +
            (if r.emit == Sending || r.item in {Queued, Got, Written} then 1 else 0)
    && r.releases == if r.refs == 0 then 1 else 0
  }

  predicate InQueue(cfg: Config, s: State, w: nat, i: nat) {
    i < |s.records| && s.records[i].item == Queued && Shard(cfg, s.records[i].trace) == w
  }

  predicate InFlight(cfg: Config, s: State, w: nat, i: nat) {
    i < |s.records| && s.records[i].item in {Got, Written, Freed, Light} && Shard(cfg, s.records[i].trace) == w
  }

  ghost predicate Places(cfg: Config, s: State) {
    && |s.queues| == |s.inflight| == cfg.workers && cfg.workers > 0
    && (forall i :: 0 <= i < |s.records| ==> RecordOk(s.records[i]))
    && (forall w, k :: 0 <= w < cfg.workers && 0 <= k < |s.queues[w]| ==> InQueue(cfg, s, w, s.queues[w][k]))
    && (forall i :: 0 <= i < |s.records| && s.records[i].item == Queued ==>
            i in s.queues[Shard(cfg, s.records[i].trace)])
    && (forall i :: 0 <= i < |s.records| && s.records[i].item in {Got, Written, Freed, Light} ==>
          s.inflight[Shard(cfg, s.records[i].trace)] == Some(i))
    && (forall w :: 0 <= w < cfg.workers && s.inflight[w].Some? ==> InFlight(cfg, s, w, s.inflight[w].value))
    && (forall k :: 0 <= k < |s.sink| ==>
            s.sink[k] < |s.records| && s.records[s.sink[k]].item in {Written, Freed, Light, Gone})
  }

  // ---- Order -------------------------------------------------------------

  /** How far a record that was sent has got: waiting, taken, written. */
  function Stage(item: Item): int {
    match item case Absent => -1 case Queued => 0 case Got => 1 case _ => 2
  }

  /** Two records of one trace, i before j: numbered in order, the earlier one's emitter is done,
      and the later one is never ahead. */
  predicate PairOk(s: State, i: nat, j: nat)
    requires i < |s.records| && j < |s.records|
  {
    var (r, q) := (s.records[i], s.records[j]);
    r.trace == q.trace ==>
      && r.number < q.number
      && r.emit == Returned
      && (r.item != Absent && q.item != Absent ==> Stage(r.item) >= Stage(q.item))
  }

  ghost predicate PairsOk(s: State) { forall i, j :: 0 <= i < j < |s.records| ==> PairOk(s, i, j) }

  /** A trace's lock is held by the one record of it whose emitter has not returned. */
  predicate LockOk(s: State, i: nat)
    requires i < |s.records|
  {
    var r := s.records[i];
    && r.trace in s.sequences && r.number <= s.sequences[r.trace]
    && (r.emit != Returned <==> r.trace in s.holders && s.holders[r.trace] == i)
  }

  ghost predicate LocksOk(s: State) {
    && (forall i :: 0 <= i < |s.records| ==> LockOk(s, i))
    && (forall trace :: trace in s.holders ==>
            s.holders[trace] < |s.records| && s.records[s.holders[trace]].trace == trace)
  }

  predicate Precedes(s: State, i: nat, j: nat) {
    i < |s.records| && j < |s.records| && (s.records[i].trace == s.records[j].trace ==> i < j)
  }

  /** Entries of one trace appear in the order in which they were numbered. */
  ghost predicate Increasing(s: State, ids: seq<nat>) {
    forall p, q :: 0 <= p < q < |ids| ==> Precedes(s, ids[p], ids[q])
  }

  ghost predicate Ordered(cfg: Config, s: State) {
    && PairsOk(s) && LocksOk(s)
    && (forall w :: 0 <= w < |s.queues| ==> Increasing(s, s.queues[w]))
    && Increasing(s, s.sink)
  }

  ghost predicate Inv(cfg: Config, s: State) { Counted(cfg, s) && Places(cfg, s) && Ordered(cfg, s) }

  // ---- Counters are kept -------------------------------------------------

  lemma SumsNonNegative(s: State)
    ensures SumOf(s.records, SlotWeight) >= 0 && SumOf(s.records, ByteWeight) >= 0
    ensures forall i :: 0 <= i < |s.records| ==>
      SlotWeight(s.records[i]) <= SumOf(s.records, SlotWeight) &&
      ByteWeight(s.records[i]) <= SumOf(s.records, ByteWeight)
  {
    NonNegative(s.records, SlotWeight);
    NonNegative(s.records, ByteWeight);
  }

  function Queues(cfg: Config, r: Record, w: nat): int { QueuedAt(cfg, w)(r) }

  /** A step that changes one record and moves the counters and channel lengths along with it. */
  lemma CountedTouch(cfg: Config, s: State, t: State, i: nat, r: Record)
    requires Counted(cfg, s) && i < |s.records| && t.records == s.records[i := r]
    requires t.count == s.count - SlotWeight(s.records[i]) + SlotWeight(r) <= cfg.maxRecords
    requires t.bytes == s.bytes - ByteWeight(s.records[i]) + ByteWeight(r) <= cfg.maxBytes
    requires |t.queues| == |t.inflight| == cfg.workers
    requires forall w :: 0 <= w < cfg.workers ==>
      |t.queues[w]| == |s.queues[w]| - Queues(cfg, s.records[i], w) + Queues(cfg, r, w)
    ensures Counted(cfg, t)
  {
    Update(s.records, i, r, SlotWeight);
    Update(s.records, i, r, ByteWeight);
    SumsNonNegative(t);
    forall w | 0 <= w < cfg.workers ensures |t.queues[w]| == SumOf(t.records, QueuedAt(cfg, w)) {
      Update(s.records, i, r, QueuedAt(cfg, w));
    }
  }

  /** With room reserved, the channel has room: the send cannot fail. */
  lemma SendFits(cfg: Config, s: State, i: nat)
    requires Counted(cfg, s) && Places(cfg, s) && At(s, i, Sending)
    ensures |s.queues[Shard(cfg, s.records[i].trace)]| < cfg.maxRecords
  {
    var w := Shard(cfg, s.records[i].trace);
    assert RecordOk(s.records[i]);
    PointwiseStrict(s.records, QueuedAt(cfg, w), SlotWeight, i);
  }

  /** The record a step is about. */
  function Subject(cfg: Config, s: State, e: Event): nat
    requires Enabled(cfg, s, e)
  {
    match e
    case Emits(_, _) => |s.records|
    case ReserveSlot(i) => i
    case ReserveBytes(i) => i
    case Undo(i) => i
    case Send(i) => i
    case Drop(i) => i
    case Receive(w) => s.queues[w][0]
    case Write(w) => s.inflight[w].value
    case WorkerRelease(w) => s.inflight[w].value
    case FreeBytes(w) => s.inflight[w].value
    case FreeSlot(w) => s.inflight[w].value
  }

  lemma EmitsCounted(cfg: Config, s: State, t: State, r: Record)
    requires Counted(cfg, s) && t.records == s.records + [r]
    requires SlotWeight(r) == 0 && ByteWeight(r) == 0 && r.item == Absent
    requires t.count == s.count && t.bytes == s.bytes && t.queues == s.queues && t.inflight == s.inflight
    ensures Counted(cfg, t)
  {
    Append(s.records, r, SlotWeight);
    Append(s.records, r, ByteWeight);
    forall w | 0 <= w < cfg.workers ensures |t.queues[w]| == SumOf(t.records, QueuedAt(cfg, w)) {
      Append(s.records, r, QueuedAt(cfg, w));
    }
  }

  lemma SendCounted(cfg: Config, s: State, i: nat)
    requires Counted(cfg, s) && Places(cfg, s) && Enabled(cfg, s, Send(i))
    ensures Counted(cfg, Step(cfg, s, Send(i)))
  {
    SendFits(cfg, s, i);
    assert RecordOk(s.records[i]);
    CountedTouch(cfg, s, Step(cfg, s, Send(i)), i, Step(cfg, s, Send(i)).records[i]);
  }

  lemma ReceiveCounted(cfg: Config, s: State, w: nat)
    requires Counted(cfg, s) && Places(cfg, s) && Enabled(cfg, s, Receive(w))
    ensures Counted(cfg, Step(cfg, s, Receive(w)))
  {
    var i := s.queues[w][0];
    assert InQueue(cfg, s, w, i) && RecordOk(s.records[i]);
    CountedTouch(cfg, s, Step(cfg, s, Receive(w)), i, s.records[i].(item := Got));
  }

  /** The other steps leave the channels alone. */
  lemma QuietCounted(cfg: Config, s: State, e: Event)
    requires Counted(cfg, s) && Places(cfg, s) && Enabled(cfg, s, e) && !e.Emits? && !e.Send? && !e.Receive?
    ensures Counted(cfg, Step(cfg, s, e))
  {
    var i := Subject(cfg, s, e);
    assert RecordOk(s.records[i]);
    CountedTouch(cfg, s, Step(cfg, s, e), i, Step(cfg, s, e).records[i]);
  }

  lemma CountedKept(cfg: Config, s: State, e: Event)
    requires Counted(cfg, s) && Places(cfg, s) && Enabled(cfg, s, e)
    ensures Counted(cfg, Step(cfg, s, e))
  {
    if e.Emits? {
      EmitsCounted(cfg, s, Step(cfg, s, e), Step(cfg, s, e).records[|s.records|]);
    } else if e.Send? {
      SendCounted(cfg, s, e.i);
    } else if e.Receive? {
      ReceiveCounted(cfg, s, e.w);
    } else {
      QuietCounted(cfg, s, e);
    }
  }

  // ---- Places are kept ---------------------------------------------------

  lemma EmitsPlaces(cfg: Config, s: State, trace: nat, size: nat)
    requires Places(cfg, s) && trace !in s.holders
    ensures Places(cfg, Step(cfg, s, Emits(trace, size)))
  {
    var t := Step(cfg, s, Emits(trace, size));
    forall w, k | 0 <= w < cfg.workers && 0 <= k < |t.queues[w]| ensures InQueue(cfg, t, w, t.queues[w][k]) {
      assert InQueue(cfg, s, w, s.queues[w][k]);
    }
    forall w | 0 <= w < cfg.workers && t.inflight[w].Some? ensures InFlight(cfg, t, w, t.inflight[w].value) {
      assert InFlight(cfg, s, w, s.inflight[w].value);
    }
  }

  /** A step of an emitter that leaves the record's item alone. */
  lemma TouchPlaces(cfg: Config, s: State, t: State, i: nat)
    requires Places(cfg, s) && i < |s.records|
    requires |t.records| == |s.records| && RecordOk(t.records[i])
    requires t.records[i].item == s.records[i].item && t.records[i].trace == s.records[i].trace
    requires forall k :: 0 <= k < |s.records| && k != i ==> t.records[k] == s.records[k]
    requires t.queues == s.queues && t.inflight == s.inflight && t.sink == s.sink
    ensures Places(cfg, t)
  {
    forall w, k | 0 <= w < cfg.workers && 0 <= k < |t.queues[w]| ensures InQueue(cfg, t, w, t.queues[w][k]) {
      assert InQueue(cfg, s, w, s.queues[w][k]);
    }
    forall w | 0 <= w < cfg.workers && t.inflight[w].Some? ensures InFlight(cfg, t, w, t.inflight[w].value) {
      assert InFlight(cfg, s, w, s.inflight[w].value);
    }
  }

  lemma SendPlaces(cfg: Config, s: State, i: nat)
    requires Counted(cfg, s) && Places(cfg, s) && Enabled(cfg, s, Send(i))
    ensures Places(cfg, Step(cfg, s, Send(i)))
  {
    SendFits(cfg, s, i);
    assert RecordOk(s.records[i]);
    var t := Step(cfg, s, Send(i));
    forall w, k | 0 <= w < cfg.workers && 0 <= k < |t.queues[w]| ensures InQueue(cfg, t, w, t.queues[w][k]) {
      if k < |s.queues[w]| { assert InQueue(cfg, s, w, s.queues[w][k]); }
    }
    forall w | 0 <= w < cfg.workers && t.inflight[w].Some? ensures InFlight(cfg, t, w, t.inflight[w].value) {
      assert InFlight(cfg, s, w, s.inflight[w].value);
    }
  }

  lemma ReceivePlaces(cfg: Config, s: State, w: nat)
    requires Places(cfg, s) && Ordered(cfg, s) && Enabled(cfg, s, Receive(w))
    ensures Places(cfg, Step(cfg, s, Receive(w)))
  {
    var t := Step(cfg, s, Receive(w));
    var i := s.queues[w][0];
    assert InQueue(cfg, s, w, i) && RecordOk(s.records[i]);
    forall v, k | 0 <= v < cfg.workers && 0 <= k < |t.queues[v]| ensures InQueue(cfg, t, v, t.queues[v][k]) {
      var k' := if v == w then k + 1 else k;
      assert InQueue(cfg, s, v, s.queues[v][k']);
      assert v == w ==> Precedes(s, s.queues[w][0], s.queues[w][k']);
    }
    forall k | 0 <= k < |t.records| && t.records[k].item == Queued
        ensures k in t.queues[Shard(cfg, t.records[k].trace)] {
      assert k in s.queues[Shard(cfg, s.records[k].trace)];
      assert s.queues[w] == [i] + t.queues[w];
    }
    forall v | 0 <= v < cfg.workers && t.inflight[v].Some? ensures InFlight(cfg, t, v, t.inflight[v].value) {
      if v != w { assert InFlight(cfg, s, v, s.inflight[v].value); }
    }
  }

  /** A step of a worker on the record it holds. */
  lemma WorkPlaces(cfg: Config, s: State, t: State, w: nat, i: nat)
    requires Places(cfg, s) && w < cfg.workers && s.inflight[w] == Some(i) && i < |s.records| == |t.records|
    requires forall k :: 0 <= k < |s.records| && k != i ==> t.records[k] == s.records[k]
    requires t.records[i].trace == s.records[i].trace && RecordOk(t.records[i])
    requires t.records[i].item in {Written, Freed, Light, Gone} && t.queues == s.queues
    requires t.inflight == if t.records[i].item == Gone then s.inflight[w := None] else s.inflight
    requires t.sink == s.sink || t.sink == s.sink + [i]
    ensures Places(cfg, t)
  {
    assert InFlight(cfg, s, w, i);
    forall v, k | 0 <= v < cfg.workers && 0 <= k < |t.queues[v]| ensures InQueue(cfg, t, v, t.queues[v][k]) {
      assert InQueue(cfg, s, v, s.queues[v][k]);
    }
    forall v | 0 <= v < cfg.workers && t.inflight[v].Some? ensures InFlight(cfg, t, v, t.inflight[v].value) {
      assert InFlight(cfg, s, v, s.inflight[v].value);
    }
  }

  lemma WorkStep(cfg: Config, s: State, e: Event, w: nat)
    requires Places(cfg, s) && Enabled(cfg, s, e) && e in {Write(w), WorkerRelease(w), FreeBytes(w), FreeSlot(w)}
    ensures Places(cfg, Step(cfg, s, e))
  {
    var i := s.inflight[w].value;
    assert RecordOk(s.records[i]);
    WorkPlaces(cfg, s, Step(cfg, s, e), w, i);
  }

  lemma PlacesKept(cfg: Config, s: State, e: Event)
    requires Inv(cfg, s) && Enabled(cfg, s, e)
    ensures Places(cfg, Step(cfg, s, e))
  {
    match e
    case Emits(trace, size) => EmitsPlaces(cfg, s, trace, size);
    case Send(i) => SendPlaces(cfg, s, i);
    case Receive(w) => ReceivePlaces(cfg, s, w);
    case ReserveSlot(i) => assert RecordOk(s.records[i]); TouchPlaces(cfg, s, Step(cfg, s, e), i);
    case ReserveBytes(i) => assert RecordOk(s.records[i]); TouchPlaces(cfg, s, Step(cfg, s, e), i);
    case Undo(i) => assert RecordOk(s.records[i]); TouchPlaces(cfg, s, Step(cfg, s, e), i);
    case Drop(i) => assert RecordOk(s.records[i]); TouchPlaces(cfg, s, Step(cfg, s, e), i);
    case Write(w) => WorkStep(cfg, s, e, w);
    case WorkerRelease(w) => WorkStep(cfg, s, e, w);
    case FreeBytes(w) => WorkStep(cfg, s, e, w);
    case FreeSlot(w) => WorkStep(cfg, s, e, w);
  }

  // ---- Order is kept -----------------------------------------------------

  lemma SameTraces(s: State, t: State, ids: seq<nat>)
    requires Increasing(s, ids) && |s.records| <= |t.records|
    requires forall i :: 0 <= i < |s.records| ==> t.records[i].trace == s.records[i].trace
    ensures Increasing(t, ids)
  {
    forall p, q | 0 <= p < q < |ids| ensures Precedes(t, ids[p], ids[q]) {
      assert Precedes(s, ids[p], ids[q]);
    }
  }

  lemma TouchLocks(s: State, t: State, i: nat)
    requires LocksOk(s) && i < |s.records| == |t.records| && t.holders == s.holders && t.sequences == s.sequences
    requires t.records[i].trace == s.records[i].trace && t.records[i].number == s.records[i].number
    requires s.records[i].emit == Returned <==> t.records[i].emit == Returned
    requires forall k :: 0 <= k < |s.records| && k != i ==> t.records[k] == s.records[k]
    ensures LocksOk(t)
  {
    forall k | 0 <= k < |t.records| ensures LockOk(t, k) { assert LockOk(s, k); }
  }

  lemma DropLocks(s: State, t: State, i: nat)
    requires PairsOk(s) && LocksOk(s) && i < |s.records| && s.records[i].emit == Releasing
    requires t == Set(s, i, Unref(s.records[i]).(emit := Returned)).(holders := s.holders - {s.records[i].trace})
    ensures LocksOk(t)
  {
    assert LockOk(s, i);
    forall k | 0 <= k < |t.records| ensures LockOk(t, k) { assert LockOk(s, k); }
  }

  /** A new record comes after every earlier record of its trace, all of whose emitters have returned. */
  lemma EmitsPairs(s: State, t: State, r: Record)
    requires PairsOk(s) && LocksOk(s) && t.records == s.records + [r]
    requires r.trace !in s.holders && r.item == Absent && r.emit == Counting && r.number == Sequence(s, r.trace) + 1
    requires t.sequences == s.sequences[r.trace := r.number] && t.holders == s.holders[r.trace := |s.records|]
    ensures PairsOk(t) && LocksOk(t)
  {
    forall i, j | 0 <= i < j < |t.records| ensures PairOk(t, i, j) {
      assert LockOk(s, i) && t.records[i] == s.records[i];
      if j < |s.records| { assert PairOk(s, i, j) && t.records[j] == s.records[j]; }
    }
    forall k | 0 <= k < |t.records| ensures LockOk(t, k) {
      if k < |s.records| { assert LockOk(s, k) && t.records[k] == s.records[k]; }
    }
    forall trace | trace in t.holders
        ensures t.holders[trace] < |t.records| && t.records[t.holders[trace]].trace == trace {
      if t.holders[trace] < |s.records| { assert t.records[t.holders[trace]] == s.records[t.holders[trace]]; }
    }
  }

  lemma EmitsOrdered(cfg: Config, s: State, trace: nat, size: nat)
    requires Ordered(cfg, s) && trace !in s.holders
    ensures Ordered(cfg, Step(cfg, s, Emits(trace, size)))
  {
    var t := Step(cfg, s, Emits(trace, size));
    EmitsPairs(s, t, t.records[|s.records|]);
    forall w | 0 <= w < |t.queues| ensures Increasing(t, t.queues[w]) { SameTraces(s, t, s.queues[w]); }
    SameTraces(s, t, s.sink);
  }

  /** A step that changes one record's progress but neither its trace nor its number. */
  lemma TouchPairs(s: State, t: State, i: nat)
    requires PairsOk(s) && LocksOk(s) && i < |s.records| == |t.records|
    requires t.records[i].trace == s.records[i].trace && t.records[i].number == s.records[i].number
    requires forall k :: 0 <= k < |s.records| && k != i ==> t.records[k] == s.records[k]
    requires s.records[i].emit == Returned ==> t.records[i].emit == Returned
    requires t.records[i].item == s.records[i].item ||
      ((forall k :: 0 <= k < i && s.records[k].trace == s.records[i].trace && s.records[k].item != Absent ==>
          Stage(s.records[k].item) >= Stage(t.records[i].item)) &&
       (forall k :: i < k < |s.records| && s.records[k].trace == s.records[i].trace && s.records[k].item != Absent ==>
          Stage(t.records[i].item) >= Stage(s.records[k].item)))
    ensures PairsOk(t)
  {
    forall j, k | 0 <= j < k < |t.records| ensures PairOk(t, j, k) {
      assert PairOk(s, j, k);
    }
  }

  /** Steps that leave channels and sink alone. */
  lemma QuietOrdered(cfg: Config, s: State, t: State)
    requires Ordered(cfg, s) && PairsOk(t) && LocksOk(t)
    requires t.queues == s.queues && t.sink == s.sink && |s.records| <= |t.records|
    requires forall i :: 0 <= i < |s.records| ==> t.records[i].trace == s.records[i].trace
    ensures Ordered(cfg, t)
  {
    forall w | 0 <= w < |t.queues| ensures Increasing(t, t.queues[w]) { SameTraces(s, t, s.queues[w]); }
    SameTraces(s, t, s.sink);
  }

  lemma EmitterOrdered(cfg: Config, s: State, e: Event)
    requires Ordered(cfg, s) && Enabled(cfg, s, e) && (e.ReserveSlot? || e.ReserveBytes? || e.Undo?)
    ensures Ordered(cfg, Step(cfg, s, e))
  {
    var t := Step(cfg, s, e);
    TouchPairs(s, t, e.i);
    TouchLocks(s, t, e.i);
    QuietOrdered(cfg, s, t);
  }

  lemma DropOrdered(cfg: Config, s: State, i: nat)
    requires Ordered(cfg, s) && Enabled(cfg, s, Drop(i))
    ensures Ordered(cfg, Step(cfg, s, Drop(i)))
  {
    var t := Step(cfg, s, Drop(i));
    TouchPairs(s, t, i);
    DropLocks(s, t, i);
    QuietOrdered(cfg, s, t);
  }

  /** The sender is the latest record of its trace, and everything before it was sent earlier. */
  lemma SendOrdered(cfg: Config, s: State, i: nat)
    requires Inv(cfg, s) && Enabled(cfg, s, Send(i))
    ensures Ordered(cfg, Step(cfg, s, Send(i)))
  {
    SendFits(cfg, s, i);
    var t := Step(cfg, s, Send(i));
    forall k | i < k < |s.records| ensures s.records[k].trace != s.records[i].trace {
      assert PairOk(s, i, k);
    }
    TouchPairs(s, t, i);
    TouchLocks(s, t, i);
    SameTraces(s, t, s.sink);
    forall w | 0 <= w < |t.queues| ensures Increasing(t, t.queues[w]) {
      SameTraces(s, t, s.queues[w]);
      if t.queues[w] != s.queues[w] {
        forall p | 0 <= p < |s.queues[w]| ensures Precedes(t, s.queues[w][p], i) {
          assert InQueue(cfg, s, w, s.queues[w][p]) && RecordOk(s.records[i]);
        }
      }
    }
  }

  /** An earlier record of the head's trace cannot still be queued behind it. */
  lemma HeadIsFirst(cfg: Config, s: State, k: nat, w: nat, head: nat)
    requires Inv(cfg, s) && w < cfg.workers && s.queues[w] != [] && head == s.queues[w][0] < |s.records|
    requires k < head && s.records[k].trace == s.records[head].trace
    requires InQueue(cfg, s, w, head)
    ensures s.records[k].item != Queued
  {
    forall p | 0 <= p < |s.queues[w]| ensures s.queues[w][p] != k {
      if p > 0 { assert Precedes(s, head, s.queues[w][p]); }
    }
  }

  lemma ReceiveOrdered(cfg: Config, s: State, w: nat)
    requires Inv(cfg, s) && Enabled(cfg, s, Receive(w))
    ensures Ordered(cfg, Step(cfg, s, Receive(w)))
  {
    var t := Step(cfg, s, Receive(w));
    var i := s.queues[w][0];
    assert InQueue(cfg, s, w, i) && RecordOk(s.records[i]);
    forall k | 0 <= k < i && s.records[k].trace == s.records[i].trace && s.records[k].item != Absent
      ensures Stage(s.records[k].item) >= 1 {
      assert PairOk(s, k, i);
      HeadIsFirst(cfg, s, k, w, i);
    }
    forall k | i < k < |s.records| && s.records[k].trace == s.records[i].trace && s.records[k].item != Absent
      ensures 1 >= Stage(s.records[k].item) {
      assert PairOk(s, i, k);
    }
    TouchPairs(s, t, i);
    TouchLocks(s, t, i);
    SameTraces(s, t, s.sink);
    forall v | 0 <= v < |t.queues| ensures Increasing(t, t.queues[v]) {
      SameTraces(s, t, s.queues[v]);
      if v == w {
        forall p, q | 0 <= p < q < |t.queues[w]| ensures Precedes(t, t.queues[w][p], t.queues[w][q]) {
          assert Precedes(t, s.queues[w][p + 1], s.queues[w][q + 1]);
        }
      }
    }
  }

  /** The record a worker holds is the last of its trace to have been taken from the channel. */
  lemma WorkPairs(cfg: Config, s: State, t: State, i: nat)
    requires PairsOk(s) && LocksOk(s) && i < |s.records| && RecordOk(s.records[i])
    requires s.records[i].item in {Got, Written, Freed, Light}
    requires s.records[i].item == Got ==>
      forall k :: i < k < |s.records| && s.records[k].trace == s.records[i].trace ==>
        s.records[k].item in {Absent, Queued, Got}
    requires |t.records| == |s.records| && t.holders == s.holders && t.sequences == s.sequences
    requires forall k :: 0 <= k < |s.records| && k != i ==> t.records[k] == s.records[k]
    requires t.records[i].trace == s.records[i].trace && t.records[i].number == s.records[i].number
    requires t.records[i].emit == s.records[i].emit && t.records[i].item in {Written, Freed, Light, Gone}
    requires forall k :: 0 <= k < i && s.records[k].trace == s.records[i].trace && s.records[k].item != Absent ==>
      Stage(s.records[k].item) == 2
    ensures PairsOk(t) && LocksOk(t)
  {
    TouchPairs(s, t, i);
    TouchLocks(s, t, i);
  }

  /** A worker holds one record at a time, so what came before it in its trace is already written. */
  lemma EarlierAreWritten(cfg: Config, s: State, w: nat, i: nat, k: nat)
    requires Places(cfg, s) && PairsOk(s) && w < cfg.workers && s.inflight[w] == Some(i)
    requires k < i && s.records[k].trace == s.records[i].trace && s.records[k].item != Absent
    ensures Stage(s.records[k].item) == 2
  {
    assert InFlight(cfg, s, w, i) && PairOk(s, k, i);
  }

  lemma WrittenPrecede(cfg: Config, s: State, k: nat, i: nat)
    requires PairsOk(s) && k < |s.records| && i < |s.records| && s.records[k].item in {Written, Freed, Light, Gone}
    requires s.records[i].item == Got
    ensures Precedes(s, k, i)
  {
    if i < k { assert PairOk(s, i, k); }
  }

  lemma WorkOrdered(cfg: Config, s: State, t: State, w: nat, i: nat)
    requires Inv(cfg, s) && w < cfg.workers && s.inflight[w] == Some(i) && i < |s.records| == |t.records|
    requires t.records[i].trace == s.records[i].trace && t.records[i].number == s.records[i].number
    requires t.records[i].emit == s.records[i].emit && t.records[i].item in {Written, Freed, Light, Gone}
    requires forall k :: 0 <= k < |s.records| && k != i ==> t.records[k] == s.records[k]
    requires t.sink == s.sink || (t.sink == s.sink + [i] && s.records[i].item == Got)
    requires t.queues == s.queues && t.holders == s.holders && t.sequences == s.sequences
    ensures Ordered(cfg, t)
  {
    assert InFlight(cfg, s, w, i) && RecordOk(s.records[i]);
    forall k | 0 <= k < i && s.records[k].trace == s.records[i].trace && s.records[k].item != Absent
      ensures Stage(s.records[k].item) == 2 {
      EarlierAreWritten(cfg, s, w, i, k);
    }
    forall k | i < k < |s.records| && s.records[k].trace == s.records[i].trace && s.records[i].item == Got
      ensures s.records[k].item in {Absent, Queued, Got} {
      assert PairOk(s, i, k);
    }
    WorkPairs(cfg, s, t, i);
    forall v | 0 <= v < |t.queues| ensures Increasing(t, t.queues[v]) { SameTraces(s, t, s.queues[v]); }
    SameTraces(s, t, s.sink);
    if t.sink != s.sink {
      forall p | 0 <= p < |s.sink| ensures Precedes(t, s.sink[p], i) {
        WrittenPrecede(cfg, s, s.sink[p], i);
      }
    }
  }

  lemma OrderKept(cfg: Config, s: State, e: Event)
    requires Inv(cfg, s) && Enabled(cfg, s, e)
    ensures Ordered(cfg, Step(cfg, s, e))
  {
    match e
    case Emits(trace, size) => EmitsOrdered(cfg, s, trace, size);
    case Send(i) => SendOrdered(cfg, s, i);
    case Receive(w) => ReceiveOrdered(cfg, s, w);
    case ReserveSlot(i) => EmitterOrdered(cfg, s, e);
    case ReserveBytes(i) => EmitterOrdered(cfg, s, e);
    case Undo(i) => EmitterOrdered(cfg, s, e);
    case Drop(i) => DropOrdered(cfg, s, i);
    case Write(w) => WorkOrdered(cfg, s, Step(cfg, s, e), w, s.inflight[w].value);
    case WorkerRelease(w) => WorkOrdered(cfg, s, Step(cfg, s, e), w, s.inflight[w].value);
    case FreeBytes(w) => WorkOrdered(cfg, s, Step(cfg, s, e), w, s.inflight[w].value);
    case FreeSlot(w) => WorkOrdered(cfg, s, Step(cfg, s, e), w, s.inflight[w].value);
  }

  // ---- Results -----------------------------------------------------------

  lemma StepKeeps(cfg: Config, s: State, e: Event)
    requires Inv(cfg, s) && Enabled(cfg, s, e)
    ensures Inv(cfg, Step(cfg, s, e))
  {
    CountedKept(cfg, s, e);
    PlacesKept(cfg, s, e);
    OrderKept(cfg, s, e);
  }

  ghost predicate Reaches(cfg: Config, s: State, events: seq<Event>, t: State)
    decreases |events|
  {
    if events == [] then s == t
    else Enabled(cfg, s, events[0]) && Reaches(cfg, Step(cfg, s, events[0]), events[1..], t)
  }

  lemma {:induction false} RunKeeps(cfg: Config, s: State, events: seq<Event>, t: State)
    requires Inv(cfg, s) && Reaches(cfg, s, events, t)
    ensures Inv(cfg, t)
    decreases |events|
  {
    if events != [] {
      StepKeeps(cfg, s, events[0]);
      RunKeeps(cfg, Step(cfg, s, events[0]), events[1..], t);
    }
  }

  lemma StartInv(cfg: Config)
    requires cfg.workers > 0
    ensures Inv(cfg, Start(cfg))
  {}

  /** Under every interleaving the counters equal what is reserved, queued or in flight and respect
      their limits, and a send that follows a successful reservation finds room in its channel. */
  lemma CountersAreExact(cfg: Config, events: seq<Event>, t: State)
    requires cfg.workers > 0 && Reaches(cfg, Start(cfg), events, t)
    ensures t.count == SumOf(t.records, SlotWeight) <= cfg.maxRecords
    ensures t.bytes == SumOf(t.records, ByteWeight) <= cfg.maxBytes
    ensures forall i: nat :: At(t, i, Sending) ==>
      Shard(cfg, t.records[i].trace) < |t.queues| && |t.queues[Shard(cfg, t.records[i].trace)]| < cfg.maxRecords
  {
    StartInv(cfg);
    RunKeeps(cfg, Start(cfg), events, t);
    forall i: nat | At(t, i, Sending) ensures |t.queues[Shard(cfg, t.records[i].trace)]| < cfg.maxRecords {
      SendFits(cfg, t, i);
    }
  }

  /** The sink sees the records of one trace in strictly increasing sequence order, each at most once. */
  lemma SinkOrder(cfg: Config, events: seq<Event>, t: State, p: nat, q: nat)
    requires cfg.workers > 0 && Reaches(cfg, Start(cfg), events, t) && p < q < |t.sink|
    ensures t.sink[p] < |t.records| && t.sink[q] < |t.records|
    ensures t.records[t.sink[p]].trace == t.records[t.sink[q]].trace ==>
      t.records[t.sink[p]].number < t.records[t.sink[q]].number
    ensures t.sink[p] != t.sink[q]
  {
    StartInv(cfg);
    RunKeeps(cfg, Start(cfg), events, t);
    assert Precedes(t, t.sink[p], t.sink[q]);
    if t.sink[p] < t.sink[q] { assert PairOk(t, t.sink[p], t.sink[q]); }
  }

  /** A step other than an emit changes one record and keeps its trace and number. */
  lemma StepTouches(cfg: Config, s: State, e: Event)
    requires Enabled(cfg, s, e) && !e.Emits?
    ensures var (t, i) := (Step(cfg, s, e), Subject(cfg, s, e));
      && t.sequences == s.sequences && |t.records| == |s.records| && i < |s.records|
      && t.records == s.records[i := t.records[i]]
      && t.records[i].trace == s.records[i].trace && t.records[i].number == s.records[i].number
  {}

  /** A step that numbers no record of this trace leaves the trace's records and its numbering alone. */
  lemma NoNewStep(cfg: Config, s: State, e: Event, trace: nat)
    requires Enabled(cfg, s, e) && !(e.Emits? && e.trace == trace)
    ensures var t := Step(cfg, s, e);
      && |s.records| <= |t.records| && Sequence(t, trace) == Sequence(s, trace)
      && (forall i :: 0 <= i < |s.records| ==>
            t.records[i].trace == s.records[i].trace && t.records[i].number == s.records[i].number)
      && (forall i :: |s.records| <= i < |t.records| ==> t.records[i].trace != trace)
  {
    if !e.Emits? { StepTouches(cfg, s, e); }
  }

  lemma {:induction false} NoNewRecords(cfg: Config, s: State, events: seq<Event>, t: State, trace: nat)
    requires Reaches(cfg, s, events, t) && forall e :: e in events ==> !(e.Emits? && e.trace == trace)
    ensures |s.records| <= |t.records| && Sequence(t, trace) == Sequence(s, trace)
    ensures forall i :: 0 <= i < |s.records| ==> t.records[i].trace == s.records[i].trace
    ensures forall i :: 0 <= i < |s.records| ==> t.records[i].number == s.records[i].number
    ensures forall i :: |s.records| <= i < |t.records| ==> t.records[i].trace != trace
    decreases |events|
  {
    if events != [] {
      NoNewStep(cfg, s, events[0], trace);
      NoNewRecords(cfg, Step(cfg, s, events[0]), events[1..], t, trace);
    }
  }

  /** Once no emit of a closed trace is under way to its lock, the sink sees no record of the trace but those
      numbered by then, whatever the other traces and the workers do. */
  lemma ClosedTraceEnds(cfg: Config, before: seq<Event>, s: State, after: seq<Event>, t: State, trace: nat, p: nat)
    requires cfg.workers > 0 && Reaches(cfg, Start(cfg), before, s) && Reaches(cfg, s, after, t)
    requires forall e :: e in after ==> !(e.Emits? && e.trace == trace)
    requires p < |t.sink| && t.sink[p] < |t.records| && t.records[t.sink[p]].trace == trace
    ensures t.sink[p] < |s.records| && s.records[t.sink[p]].trace == trace
    ensures t.records[t.sink[p]].number <= Sequence(s, trace)
  {
    NoNewRecords(cfg, s, after, t, trace);
    StartInv(cfg);
    RunKeeps(cfg, Start(cfg), before, s);
    assert LockOk(s, t.sink[p]);
  }

  /** An owned record's callback runs at most once and never before the sink's Write returned; a record
      that was dropped, or written and let go, has run it exactly once. */
  lemma ReleasedOnce(cfg: Config, events: seq<Event>, t: State, i: nat)
    requires cfg.workers > 0 && Reaches(cfg, Start(cfg), events, t) && i < |t.records|
    ensures t.records[i].releases <= 1
    ensures t.records[i].releases == 1 ==>
      t.records[i].emit == Returned && t.records[i].item in {Absent, Freed, Light, Gone}
    ensures t.records[i].emit == Returned && t.records[i].item in {Absent, Freed, Light, Gone} ==>
      t.records[i].releases == 1
  {
    StartInv(cfg);
    RunKeeps(cfg, Start(cfg), events, t);
    assert RecordOk(t.records[i]);
  }

  /** When every emitter has returned and every channel is drained, nothing is left reserved
      and every record's callback has run. */
  lemma Drained(cfg: Config, events: seq<Event>, t: State)
    requires cfg.workers > 0 && Reaches(cfg, Start(cfg), events, t)
    requires forall i :: 0 <= i < |t.records| ==> t.records[i].emit == Returned && t.records[i].item in {Absent, Gone}
    ensures t.count == 0 && t.bytes == 0 && forall i :: 0 <= i < |t.records| ==> t.records[i].releases == 1
  {
    CountersAreExact(cfg, events, t);
    NonNegative(t.records, SlotWeight);
    NonNegative(t.records, ByteWeight);
    forall i | 0 <= i < |t.records| ensures t.records[i].releases == 1 { ReleasedOnce(cfg, events, t, i); }
  }
}
