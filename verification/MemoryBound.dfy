/** Any number of replay stores sharing one controller. Store i, if there is one, was
    built on the reservation of call i. The store's mutex is held while it closes its
    reservation, so such a step changes the store and the controller together. */
module MemoryBound {
  import opened Prelude
  import opened Sums
  import A = Admission
  import R = ReplayLog

  datatype Placed = Placed(replay: R.Replay, chunk: nat)

  datatype World = World(ctrl: A.State, stores: seq<Option<Placed>>)

  // ---- Sizing -----------------------------------------------------------

  const DEFAULT_CHUNK: int := 65536

  function NormalizeChunk(value: int, fallback: int): int {
    if value > 0 then value else if fallback > 0 then fallback else DEFAULT_CHUNK
  }

  function BodyLimit(cfg: A.Config, maxBody: int): int { if maxBody <= 0 then cfg.maxBody else maxBody }

  /** Admit: how much memory a request asks for, or None for ErrBodyTooLarge. */
  function AdmissionSize(cfg: A.Config, expected: int, maxBody: int, chunk: int): Option<int> {
    var limit := BodyLimit(cfg, maxBody);
    var c := NormalizeChunk(chunk, cfg.chunkBytes);
    if limit <= 0 || expected > limit then None
    else
      var size := if expected >= 0 then expected + c else limit + c;
      if size < 0 then None else Some(size)
  }

  datatype StreamCheck = Fits(limit: nat, chunk: nat) | TooLarge | TooSmall

  /** stream: the body limit and chunk size it works with, given a reservation of `size` bytes. */
  function CheckStream(cfg: A.Config, expected: int, maxBody: int, chunk: int, size: int): StreamCheck {
    var limit := BodyLimit(cfg, maxBody);
    var c := if chunk <= 0 then NormalizeChunk(0, cfg.chunkBytes) else chunk;
    if limit <= 0 || expected > limit then TooLarge
    else if size < (if expected >= 0 then expected else limit) + c then TooSmall
    else Fits(limit, c)
  }

  /** A reservation admitted for some request always satisfies the stream built for the same request, no smaller
      one does, and the only requests refused for their size are the ones stream would refuse. */
  lemma AdmittedFits(cfg: A.Config, expected: int, maxBody: int, chunk: int)
    ensures var size := AdmissionSize(cfg, expected, maxBody, chunk);
      && (size.Some? ==> forall n :: CheckStream(cfg, expected, maxBody, chunk, n).Fits? <==> n >= size.value)
      && (size.Some? ==> forall n :: n < size.value ==> CheckStream(cfg, expected, maxBody, chunk, n) == TooSmall)
      && (size.None? <==> forall n :: CheckStream(cfg, expected, maxBody, chunk, n) == TooLarge)
  {
    if AdmissionSize(cfg, expected, maxBody, chunk).Some? {
      var size := AdmissionSize(cfg, expected, maxBody, chunk).value;
      assert CheckStream(cfg, expected, maxBody, chunk, size).Fits?;
    }
  }

  /** The request's own limit and chunk size are in force if positive, then the configured ones, then 64 KiB; what is
      reserved is the declared length, or the limit if none was declared, and one chunk. */
  lemma LimitsInForce(cfg: A.Config, expected: int, maxBody: int, chunk: int, size: int)
    ensures var limit := if maxBody > 0 then maxBody else cfg.maxBody;
      var c := if chunk > 0 then chunk else if cfg.chunkBytes > 0 then cfg.chunkBytes else 65536;
      && AdmissionSize(cfg, expected, maxBody, chunk) ==
           (if limit <= 0 || expected > limit then None else Some((if expected >= 0 then expected else limit) + c))
      && (CheckStream(cfg, expected, maxBody, chunk, size).Fits? ==>
            CheckStream(cfg, expected, maxBody, chunk, size) == Fits(limit, c))
  {}

  // ---- Steps ------------------------------------------------------------

  datatype Event =
    | Control(event: A.Event)                                        // admission traffic
    | Place(id: nat, expected: int, maxBody: int, chunk: int)        // StreamWithReservation
    | Inside(id: nat, section: R.Event)                                // a critical section of store id

  predicate Enabled(cfg: A.Config, w: World, e: Event) {
    match e
    case Control(c) =>
      A.Enabled(w.ctrl, c) && (c.GiveBack? ==> c.id < |w.stores| && w.stores[c.id].None?)
    case Place(id, _, _, _) =>
      id < |w.stores| && id < |w.ctrl.calls| && w.stores[id].None? && w.ctrl.calls[id].phase == A.Held
    case Inside(id, r) =>
      id < |w.stores| && id < |w.ctrl.calls| && w.stores[id].Some? && R.Enabled(w.stores[id].value.replay, r)
  }

  function Step(cfg: A.Config, w: World, e: Event): World
    requires A.Indexed(w.ctrl) && Enabled(cfg, w, e)
  {
    match e
    case Control(c) =>
      var ctrl := A.Step(cfg, w.ctrl, c);
      World(ctrl, if |ctrl.calls| > |w.stores| then w.stores + [None] else w.stores)
    case Place(id, expected, maxBody, chunk) =>
      (match CheckStream(cfg, expected, maxBody, chunk, w.ctrl.calls[id].size)
       case Fits(limit, c) => w.(stores := w.stores[id := Some(Placed(R.Streaming(expected, limit), c))])
       case TooLarge => w
       case TooSmall => w.(ctrl := A.Release(cfg, w.ctrl, id, A.Released)))
    case Inside(id, r) =>
      var p := w.stores[id].value;
      var next := R.Step(p.replay, r);
      World(if p.replay.log.reserved && !next.log.reserved then A.Release(cfg, w.ctrl, id, A.Released) else w.ctrl,
            w.stores[id := Some(p.(replay := next))])
  }

  // ---- Invariant --------------------------------------------------------

  /** The most a store will ever keep. */
  function Ceiling(s: R.Replay): int { if s.expected >= 0 then s.expected else s.maxBody }

  ghost predicate PlacedOk(p: Placed, c: A.Call) {
    && R.Inv(p.replay) && p.replay.streaming
    && Ceiling(p.replay) + p.chunk <= c.size
    && c.phase == (if p.replay.log.reserved then A.Held else A.Released)
  }

  ghost predicate Inv(cfg: A.Config, w: World) {
    && A.Inv(cfg, w.ctrl)
    && |w.stores| == |w.ctrl.calls|
    && forall i :: 0 <= i < |w.stores| && w.stores[i].Some? ==> PlacedOk(w.stores[i].value, w.ctrl.calls[i])
  }

  /** Admission traffic touches no reservation that a store holds or has returned. */
  lemma ControlSpares(cfg: A.Config, s: A.State, c: A.Event)
    requires A.Inv(cfg, s) && A.Enabled(s, c)
    ensures var t := A.Step(cfg, s, c); |t.calls| == |s.calls| || (c.Arrive? && |t.calls| == |s.calls| + 1)
    ensures forall i ::
      0 <= i < |s.calls| && s.calls[i].phase in {A.Held, A.Released} && !(c.GiveBack? && c.id == i) ==>
        A.Step(cfg, s, c).calls[i] == s.calls[i]
  {
    match c
    case Arrive(size) =>
    case Take(id, ended) =>
    case Lapse(id) => A.ExpireAdvances(cfg, s, id);
    case GiveBack(id) =>
      if s.calls[id].phase == A.Held { A.ReleaseAdvances(cfg, s, id, A.Released); }
      else if s.calls[id].phase == A.Surrendered { A.ReleaseAdvances(cfg, s, id, A.Failed); }
  }

  lemma ControlKeeps(cfg: A.Config, w: World, c: A.Event)
    requires Inv(cfg, w) && Enabled(cfg, w, Control(c))
    ensures Inv(cfg, Step(cfg, w, Control(c)))
  {
    A.StepKeeps(cfg, w.ctrl, c);
    ControlSpares(cfg, w.ctrl, c);
  }

  lemma ReleaseSpares(cfg: A.Config, w: World, id: nat, stores: seq<Option<Placed>>)
    requires Inv(cfg, w) && id < |w.stores| && w.ctrl.calls[id].phase == A.Held
    requires |stores| == |w.stores| && forall i :: 0 <= i < |stores| && i != id ==> stores[i] == w.stores[i]
    requires stores[id].Some? ==> PlacedOk(stores[id].value, w.ctrl.calls[id].(phase := A.Released))
    ensures Inv(cfg, World(A.Release(cfg, w.ctrl, id, A.Released), stores))
  {
    A.ReleaseKeeps(cfg, w.ctrl, id, A.Released);
    A.ReleaseAdvances(cfg, w.ctrl, id, A.Released);
    var ctrl := A.Release(cfg, w.ctrl, id, A.Released);
    forall i | 0 <= i < |stores| && stores[i].Some? ensures PlacedOk(stores[i].value, ctrl.calls[i]) {
      if i != id {
        assert A.SameOrGranted(w.ctrl.calls[i], ctrl.calls[i]);
      } else {
        assert A.CallAdvances(w.ctrl.calls[id], ctrl.calls[id]);
      }
    }
  }

  /** A step of a store keeps its limits, and never takes its reservation back. */
  lemma InsideStore(s: R.Replay, r: R.Event)
    requires R.Inv(s) && R.Enabled(s, r)
    ensures var t := R.Step(s, r);
      && R.Inv(t) && t.expected == s.expected && t.maxBody == s.maxBody && t.streaming == s.streaming
      && (t.log.reserved ==> s.log.reserved)
  {
    R.StepKeeps(s, r);
    R.StepFixed(s, r);
  }

  lemma InsideKeeps(cfg: A.Config, w: World, id: nat, r: R.Event)
    requires Inv(cfg, w) && Enabled(cfg, w, Inside(id, r))
    ensures Inv(cfg, Step(cfg, w, Inside(id, r)))
  {
    var p := w.stores[id].value;
    InsideStore(p.replay, r);
    var next := R.Step(p.replay, r);
    if p.replay.log.reserved && !next.log.reserved {
      ReleaseSpares(cfg, w, id, w.stores[id := Some(p.(replay := next))]);
    }
  }

  lemma StepKeeps(cfg: A.Config, w: World, e: Event)
    requires Inv(cfg, w) && Enabled(cfg, w, e)
    ensures Inv(cfg, Step(cfg, w, e))
  {
    match e
    case Control(c) => ControlKeeps(cfg, w, c);
    case Place(id, expected, maxBody, chunk) =>
      match CheckStream(cfg, expected, maxBody, chunk, w.ctrl.calls[id].size) {
        case Fits(limit, c) => R.StartInv(expected, limit);
        case TooLarge =>
        case TooSmall => ReleaseSpares(cfg, w, id, w.stores);
      }
    case Inside(id, r) => InsideKeeps(cfg, w, id, r);
  }

  ghost predicate Reaches(cfg: A.Config, w: World, events: seq<Event>, t: World)
    decreases |events|
  {
    if events == [] then w == t
    else A.Indexed(w.ctrl) && Enabled(cfg, w, events[0]) && Reaches(cfg, Step(cfg, w, events[0]), events[1..], t)
  }

  lemma {:induction false} RunKeeps(cfg: A.Config, w: World, events: seq<Event>, t: World)
    requires Inv(cfg, w) && Reaches(cfg, w, events, t)
    ensures Inv(cfg, t)
    decreases |events|
  {
    if events != [] {
      StepKeeps(cfg, w, events[0]);
      RunKeeps(cfg, Step(cfg, w, events[0]), events[1..], t);
    }
  }

  const START := World(A.START, [])

  // ---- Results ----------------------------------------------------------

  /** Bytes a store retains, with the chunk it may be filling while it still counts. */
  function Footprint(p: Option<Placed>): int {
    match p
    case None => 0
    case Some(q) => |Concat(q.replay.log.chunks)| + if q.replay.log.reserved then q.chunk else 0
  }

  /** The memory bound: in every reachable state the bytes retained by all stores, with one chunk
      for each store still accounted, stay within `used`, and that within the configured maximum. */
  lemma {:induction false} RetainedBytesAreReserved(cfg: A.Config, events: seq<Event>, t: World)
    requires Reaches(cfg, START, events, t)
    ensures SumOf(t.stores, Footprint) <= t.ctrl.used
    ensures t.ctrl.used == 0 || t.ctrl.used <= cfg.memoryMax
  {
    A.StartInv(cfg);
    RunKeeps(cfg, START, events, t);
    forall i | 0 <= i < |t.stores| ensures Footprint(t.stores[i]) <= A.Weight(t.ctrl.calls[i]) {
      if t.stores[i].Some? {
        assert PlacedOk(t.stores[i].value, t.ctrl.calls[i]);
        assert R.Needed(t.stores[i].value.replay) <==> t.stores[i].value.replay.log.reserved;
      }
    }
    Pointwise(t.stores, Footprint, t.ctrl.calls, A.Weight);
  }

  /** A call that no longer needs memory: given back or failed, or its store is retired and unread. */
  predicate Idle(c: A.Call, p: Option<Placed>) {
    match p
    case None => c.phase in {A.Released, A.Failed}
    case Some(q) => !R.Needed(q.replay)
  }

  /** Nothing leaks: once every reservation is either given back or behind a store that
      nobody needs any more, no memory is in use, nothing is retained and nobody waits. */
  lemma {:induction false} NothingLeaks(cfg: A.Config, events: seq<Event>, t: World)
    requires Reaches(cfg, START, events, t)
    requires |t.stores| == |t.ctrl.calls|
    requires forall i :: 0 <= i < |t.ctrl.calls| && t.ctrl.calls[i].phase != A.Queued ==>
      Idle(t.ctrl.calls[i], t.stores[i])
    ensures t.ctrl.used == 0 && t.ctrl.queue == [] && SumOf(t.stores, Footprint) <= 0
  {
    A.StartInv(cfg);
    RunKeeps(cfg, START, events, t);
    RetainedBytesAreReserved(cfg, events, t);
    forall i | 0 <= i < |t.ctrl.calls| ensures !A.Holding(t.ctrl.calls[i]) {
      if t.stores[i].Some? { assert PlacedOk(t.stores[i].value, t.ctrl.calls[i]); }
    }
    A.WeightsNonNegative(t.ctrl.calls);
    if t.ctrl.queue != [] { A.NoWaitWithoutHolder(cfg, t.ctrl); }
  }

  // ---- The parts run freely in the whole ---------------------------------

  /** A held reservation of the right size becomes a store, one that is too small is given back, and a request that is
      too large leaves it with its holder. */
  lemma PlacedAsChecked(cfg: A.Config, w: World, id: nat, expected: int, maxBody: int, chunk: int)
    requires Inv(cfg, w) && id < |w.stores| && w.stores[id].None? && w.ctrl.calls[id].phase == A.Held
    ensures Enabled(cfg, w, Place(id, expected, maxBody, chunk))
    ensures var t := Step(cfg, w, Place(id, expected, maxBody, chunk));
      var limit := if maxBody > 0 then maxBody else cfg.maxBody;
      var c := if chunk > 0 then chunk else if cfg.chunkBytes > 0 then cfg.chunkBytes else 65536;
      if limit <= 0 || expected > limit then t == w
      else if w.ctrl.calls[id].size >= (if expected >= 0 then expected else limit) + c then
        t == w.(stores := w.stores[id := Some(Placed(R.Streaming(expected, limit), c))])
      else
        t.stores == w.stores && |t.ctrl.calls| == |w.ctrl.calls| && t.ctrl.calls[id].phase == A.Released
  {
    LimitsInForce(cfg, expected, maxBody, chunk, w.ctrl.calls[id].size);
    A.ReleaseAdvances(cfg, w.ctrl, id, A.Released);
  }

  /** Admission traffic goes on whatever the stores do; only a store gives its own reservation back. */
  lemma ControlIsFree(cfg: A.Config, w: World, c: A.Event)
    requires Inv(cfg, w) && A.Enabled(w.ctrl, c)
    requires c.GiveBack? ==> w.stores[c.id].None?
    ensures Enabled(cfg, w, Control(c)) && Step(cfg, w, Control(c)).ctrl == A.Step(cfg, w.ctrl, c)
    ensures w.stores <= Step(cfg, w, Control(c)).stores
  {}

  function InsideAll(id: nat, events: seq<R.Event>): seq<Event>
    decreases |events|
  {
    if events == [] then [] else [Inside(id, events[0])] + InsideAll(id, events[1..])
  }

  /** Every run of a store on its own is a run of it among the others, which do not notice. */
  lemma {:induction false} StoreRunsFreely(cfg: A.Config, w: World, id: nat, events: seq<R.Event>, replay: R.Replay)
    returns (t: World)
    requires Inv(cfg, w) && id < |w.stores| && w.stores[id].Some?
    requires R.Reaches(w.stores[id].value.replay, events, replay)
    ensures Reaches(cfg, w, InsideAll(id, events), t)
    ensures t.stores == w.stores[id := Some(w.stores[id].value.(replay := replay))]
    decreases |events|
  {
    if events == [] {
      t := w;
    } else {
      var e := Inside(id, events[0]);
      var m := Step(cfg, w, e);
      StepKeeps(cfg, w, e);
      t := StoreRunsFreely(cfg, m, id, events[1..], replay);
      assert ([e] + InsideAll(id, events[1..]))[1..] == InsideAll(id, events[1..]);
    }
  }
}
