/** The bounded memory allocator of the replay body store
    (internal/core/bodystore/controller.go). Every critical section of the
    controller's mutex is one step; a run is any interleaving of those steps. */
module Admission {
  import opened Sums

  datatype Config = Config(memoryMax: int, maxBody: int, chunkBytes: int, queueMax: int)

  /** How far one call of admit that reached the lock has got. */
  datatype Phase =
    | Queued      // its waiter sits in the queue
    | Ready       // granted: the reservation waits in the waiter's channel
    | Held        // the caller owns the reservation
    | Surrendered // granted, but the caller's wait had ended: it will close the reservation and fail
    | Released    // the caller closed its reservation
    | Failed      // the caller got an error

  /** A waiter together with the reservation made for it; calls are numbered by arrival. */
  datatype Call = Call(size: nat, phase: Phase, granted: bool)

  datatype State = State(used: int, queue: seq<nat>, calls: seq<Call>)

  datatype AdmitError = BodyTooLarge | StoreCapacity | QueueFull

  datatype AdmitResult =
    | Reserved        // a reservation was handed over at once
    | Unmetered       // a zero-sized request: an empty reservation, nothing accounted
    | Waiting         // enqueued
    | Rejected(error: AdmitError)

  const START := State(0, [], [])

  predicate Holding(c: Call) { c.phase in {Ready, Held, Surrendered} }

  function Weight(c: Call): int { if Holding(c) then c.size else 0 }

  /** Sum of the sizes of all outstanding reservations. */
  function Outstanding(calls: seq<Call>): int { SumOf(calls, Weight) }

  predicate Indexed(s: State) { forall k :: 0 <= k < |s.queue| ==> s.queue[k] < |s.calls| }

  function WithPhase(calls: seq<Call>, i: nat, p: Phase): seq<Call>
    requires i < |calls|
  {
    calls[i := calls[i].(phase := p)]
  }

  /** Grants to the head of the queue. */
  function GrantHead(s: State): State
    requires Indexed(s) && s.queue != []
  {
    var head := s.queue[0];
    State(s.used + s.calls[head].size, s.queue[1..],
          s.calls[head := s.calls[head].(phase := Ready, granted := true)])
  }

  /** dispatchLocked: grant from the head for as long as the head fits. */
  function Dispatch(cfg: Config, s: State): State
    requires Indexed(s)
    decreases |s.queue|
  {
    if s.queue == [] || s.used + s.calls[s.queue[0]].size > cfg.memoryMax then s
    else Dispatch(cfg, GrantHead(s))
  }

  function Remove(queue: seq<nat>, id: nat): seq<nat> {
    if queue == [] then []
    else if queue[0] == id then queue[1..]
    else [queue[0]] + Remove(queue[1..], id)
  }

  lemma {:induction false} RemoveSubset(queue: seq<nat>, id: nat)
    ensures forall x :: x in Remove(queue, id) ==> x in queue
    ensures id !in queue ==> Remove(queue, id) == queue
    ensures |Remove(queue, id)| == |queue| - (if id in queue then 1 else 0)
  {
    if queue != [] && queue[0] != id {
      RemoveSubset(queue[1..], id);
    }
  }

  predicate Ascending(queue: seq<nat>) { forall i, j :: 0 <= i < j < |queue| ==> queue[i] < queue[j] }

  /** What is removed is gone, what is not stays. */
  lemma {:induction false} RemoveMember(queue: seq<nat>, id: nat, x: nat)
    requires Ascending(queue)
    ensures x in Remove(queue, id) <==> x in queue && x != id
  {
    if queue != [] {
      assert x in queue <==> x == queue[0] || x in queue[1..];
      if queue[0] != id { RemoveMember(queue[1..], id, x); }
    }
  }

  lemma {:induction false} RemoveAscends(queue: seq<nat>, id: nat)
    requires Ascending(queue)
    ensures Ascending(Remove(queue, id))
  {
    if queue != [] && queue[0] != id {
      var rest := Remove(queue[1..], id);
      RemoveAscends(queue[1..], id);
      forall k | 0 <= k < |rest| ensures queue[0] < rest[k] {
        RemoveMember(queue[1..], id, rest[k]);
      }
    }
  }

  lemma RemoveExact(queue: seq<nat>, id: nat)
    requires Ascending(queue)
    ensures Ascending(Remove(queue, id))
    ensures forall x :: x in Remove(queue, id) <==> x in queue && x != id
  {
    RemoveAscends(queue, id);
    forall x: nat ensures x in Remove(queue, id) <==> x in queue && x != id { RemoveMember(queue, id, x); }
  }

  /** admit, up to the point where the call either has its answer or waits. */
  function Admit(cfg: Config, s: State, size: int): (r: (State, AdmitResult)) {
    if size < 0 then (s, Rejected(BodyTooLarge))
    else if size > cfg.memoryMax then (s, Rejected(StoreCapacity))
    else if size == 0 then (s, Unmetered)
    else if s.queue == [] && s.used + size <= cfg.memoryMax then
      (State(s.used + size, s.queue, s.calls + [Call(size, Held, true)]), Reserved)
    else if cfg.queueMax <= 0 || |s.queue| >= cfg.queueMax then (s, Rejected(QueueFull))
    else (State(s.used, s.queue + [|s.calls|], s.calls + [Call(size, Queued, false)]), Waiting)
  }

  /** release followed by dispatchLocked, for a reservation that ends in phase p. */
  function Release(cfg: Config, s: State, id: nat, p: Phase): State
    requires id < |s.calls| && Indexed(s)
  {
    var used := s.used - s.calls[id].size;
    Dispatch(cfg, State(if used < 0 then 0 else used, s.queue, WithPhase(s.calls, id, p)))
  }

  /** The waiter's select took the reservation; `ended` is what waitCtx.Err() said afterwards. */
  function Collect(s: State, id: nat, ended: bool): State
    requires id < |s.calls|
  {
    s.(calls := WithPhase(s.calls, id, if ended then Surrendered else Held))
  }

  /** The waiter's select took the end of its context: the second critical section of admit. */
  function Expire(cfg: Config, s: State, id: nat): State
    requires id < |s.calls| && Indexed(s)
  {
    if s.calls[id].granted then s.(calls := WithPhase(s.calls, id, Surrendered))
    else
      RemoveSubset(s.queue, id);
      var queue := Remove(s.queue, id);
      assert forall k :: 0 <= k < |queue| ==> queue[k] in s.queue;
      Dispatch(cfg, State(s.used, queue, WithPhase(s.calls, id, Failed)))
  }

  /** The whole context branch of admit, undisturbed: both critical sections when a grant raced the timeout. */
  function ExpiredWait(cfg: Config, s: State, id: nat): State
    requires id < |s.calls| && Indexed(s)
  {
    if s.calls[id].granted then Release(cfg, Collect(s, id, true), id, Failed)
    else Expire(cfg, s, id)
  }

  // ---- Runs -------------------------------------------------------------

  datatype Event =
    | Arrive(size: int)
    | Take(id: nat, ended: bool)   // receive from the ready channel
    | Lapse(id: nat)               // the wait ended first
    | GiveBack(id: nat)            // Reservation.Close by a failing or a finished caller

  /** Which events a state allows. A second Close of the same reservation is allowed and does nothing. */
  predicate Enabled(s: State, e: Event) {
    match e
    case Arrive(_) => true
    case Take(id, _) => id < |s.calls| && s.calls[id].phase == Ready
    case Lapse(id) => id < |s.calls| && s.calls[id].phase in {Queued, Ready}
    case GiveBack(id) => id < |s.calls| && s.calls[id].phase in {Held, Surrendered, Released, Failed}
  }

  function Step(cfg: Config, s: State, e: Event): State
    requires Indexed(s) && Enabled(s, e)
  {
    match e
    case Arrive(size) => Admit(cfg, s, size).0
    case Take(id, ended) => Collect(s, id, ended)
    case Lapse(id) => Expire(cfg, s, id)
    case GiveBack(id) =>
      if s.calls[id].phase == Held then Release(cfg, s, id, Released)
      else if s.calls[id].phase == Surrendered then Release(cfg, s, id, Failed)
      else s
  }

  predicate CallOk(cfg: Config, c: Call) {
    && 0 < c.size <= cfg.memoryMax
    && (c.phase == Queued ==> !c.granted)
    && (c.phase in {Ready, Held, Surrendered, Released} ==> c.granted)
  }

  /** The queue lists exactly the waiting calls, in arrival order. */
  ghost predicate QueueExact(s: State) {
    && Ascending(s.queue)
    && Indexed(s)
    && (forall k :: 0 <= k < |s.queue| ==> s.calls[s.queue[k]].phase == Queued)
    && (forall i :: 0 <= i < |s.calls| && s.calls[i].phase == Queued ==> i in s.queue)
  }

  /** While an earlier call waits, no later call has ever been granted memory. */
  ghost predicate NoOvertaking(s: State) {
    forall i, j :: 0 <= i < j < |s.calls| && s.calls[i].phase == Queued ==> !s.calls[j].granted
  }

  /** What holds even between two grants of one dispatch. */
  ghost predicate Accounted(cfg: Config, s: State) {
    && s.used == Outstanding(s.calls)
    && 0 <= s.used && (s.used == 0 || s.used <= cfg.memoryMax)
    && (s.queue == [] || |s.queue| <= cfg.queueMax)
    && QueueExact(s)
    && (forall i :: 0 <= i < |s.calls| ==> CallOk(cfg, s.calls[i]))
    && NoOvertaking(s)
  }

  /** No wake-up is pending: a waiting head does not fit. */
  predicate Settled(cfg: Config, s: State)
    requires Indexed(s)
  {
    s.queue == [] || s.used + s.calls[s.queue[0]].size > cfg.memoryMax
  }

  ghost predicate Inv(cfg: Config, s: State) { Accounted(cfg, s) && Settled(cfg, s) }

  lemma GrantQueue(s: State)
    requires QueueExact(s) && s.queue != []
    ensures QueueExact(GrantHead(s))
  {
    var (t, head) := (GrantHead(s), s.queue[0]);
    assert s.queue == [head] + t.queue;
    forall i | 0 <= i < |t.calls| && t.calls[i].phase == Queued ensures i in t.queue {
      assert i in s.queue && i != head;
    }
  }

  lemma GrantOrder(s: State)
    requires QueueExact(s) && NoOvertaking(s) && s.queue != []
    ensures NoOvertaking(GrantHead(s))
  {
    var (t, head) := (GrantHead(s), s.queue[0]);
    forall i, j | 0 <= i < j < |t.calls| && t.calls[i].phase == Queued ensures !t.calls[j].granted {
      var k :| 0 <= k < |s.queue| && s.queue[k] == i;
      assert k > 0 && head < i;
    }
  }

  lemma GrantHeadKeeps(cfg: Config, s: State)
    requires Accounted(cfg, s) && !Settled(cfg, s)
    ensures Accounted(cfg, GrantHead(s))
  {
    var (t, head) := (GrantHead(s), s.queue[0]);
    Update(s.calls, head, t.calls[head], Weight);
    GrantQueue(s);
    GrantOrder(s);
  }

  /** What one dispatch does to a call: nothing, or a grant to a waiting one. */
  predicate SameOrGranted(c: Call, d: Call) {
    d == c || (c.phase == Queued && d == c.(phase := Ready, granted := true))
  }

  lemma {:induction false} DispatchKeeps(cfg: Config, s: State)
    requires Accounted(cfg, s)
    ensures Inv(cfg, Dispatch(cfg, s))
    ensures |Dispatch(cfg, s).calls| == |s.calls|
    ensures forall i :: 0 <= i < |s.calls| ==> SameOrGranted(s.calls[i], Dispatch(cfg, s).calls[i])
    decreases |s.queue|
  {
    if !Settled(cfg, s) {
      GrantHeadKeeps(cfg, s);
      DispatchKeeps(cfg, GrantHead(s));
    }
  }

  lemma WeightsNonNegative(calls: seq<Call>)
    ensures Outstanding(calls) >= 0
    ensures Outstanding(calls) > 0 ==> exists i :: 0 <= i < |calls| && Holding(calls[i])
    ensures forall i :: 0 <= i < |calls| ==> Weight(calls[i]) <= Outstanding(calls)
  {
    NonNegative(calls, Weight);
    if Outstanding(calls) > 0 {
      var i :| 0 <= i < |calls| && Weight(calls[i]) > 0;
      assert Holding(calls[i]);
    }
  }

  /** A release never drives `used` below zero: the clamp in release is dead code. */
  lemma ClampUnreachable(cfg: Config, s: State, id: nat)
    requires Accounted(cfg, s) && id < |s.calls| && Holding(s.calls[id])
    ensures s.used - s.calls[id].size >= 0
  {
    WeightsNonNegative(s.calls);
    assert Weight(s.calls[id]) <= Outstanding(s.calls);
  }

  lemma ReserveKeeps(cfg: Config, s: State, size: int)
    requires Inv(cfg, s) && size > 0 && s.queue == [] && s.used + size <= cfg.memoryMax
    ensures Inv(cfg, State(s.used + size, s.queue, s.calls + [Call(size, Held, true)]))
  {
    Append(s.calls, Call(size, Held, true), Weight);
    forall i | 0 <= i < |s.calls| ensures s.calls[i].phase != Queued { assert i !in s.queue; }
  }

  lemma EnqueueExact(s: State, t: State)
    requires QueueExact(s) && NoOvertaking(s) && t.queue == s.queue + [|s.calls|]
    requires |t.calls| == |s.calls| + 1 && t.calls[..|s.calls|] == s.calls
    requires t.calls[|s.calls|].phase == Queued && !t.calls[|s.calls|].granted
    ensures QueueExact(t) && NoOvertaking(t)
  {
    assert forall i :: 0 <= i < |s.calls| ==> t.calls[i] == s.calls[i];
    assert t.queue[|s.queue|] == |s.calls|;
    forall i | 0 <= i < |t.calls| && t.calls[i].phase == Queued ensures i in t.queue {
      if i < |s.calls| { assert i in s.queue; }
    }
  }

  lemma EnqueueKeeps(cfg: Config, s: State, size: int)
    requires Inv(cfg, s) && 0 < size <= cfg.memoryMax && |s.queue| < cfg.queueMax
    requires s.queue == [] ==> s.used + size > cfg.memoryMax
    ensures Inv(cfg, State(s.used, s.queue + [|s.calls|], s.calls + [Call(size, Queued, false)]))
  {
    var t := State(s.used, s.queue + [|s.calls|], s.calls + [Call(size, Queued, false)]);
    Append(s.calls, t.calls[|s.calls|], Weight);
    EnqueueExact(s, t);
  }

  lemma AdmitKeeps(cfg: Config, s: State, size: int)
    requires Inv(cfg, s)
    ensures Inv(cfg, Admit(cfg, s, size).0)
  {
    var r := Admit(cfg, s, size).1;
    if r.Reserved? {
      ReserveKeeps(cfg, s, size);
    } else if r.Waiting? {
      EnqueueKeeps(cfg, s, size);
    }
  }

  /** Giving memory back leaves the accounts in order before the dispatch that follows. */
  lemma FreeKeeps(cfg: Config, s: State, id: nat, p: Phase)
    requires Inv(cfg, s) && id < |s.calls| && Holding(s.calls[id])
    requires p in {Released, Failed}
    ensures s.used - s.calls[id].size >= 0
    ensures Accounted(cfg, State(s.used - s.calls[id].size, s.queue, WithPhase(s.calls, id, p)))
  {
    ClampUnreachable(cfg, s, id);
    var t := State(s.used - s.calls[id].size, s.queue, WithPhase(s.calls, id, p));
    Update(s.calls, id, t.calls[id], Weight);
  }

  lemma {:induction false} ReleaseKeeps(cfg: Config, s: State, id: nat, p: Phase)
    requires Inv(cfg, s) && id < |s.calls| && Holding(s.calls[id])
    requires p in {Released, Failed}
    ensures Inv(cfg, Release(cfg, s, id, p))
  {
    FreeKeeps(cfg, s, id, p);
    DispatchKeeps(cfg, State(s.used - s.calls[id].size, s.queue, WithPhase(s.calls, id, p)));
  }

  lemma DropQueue(s: State, id: nat)
    requires QueueExact(s) && id < |s.calls| && s.calls[id].phase == Queued
    ensures QueueExact(State(s.used, Remove(s.queue, id), WithPhase(s.calls, id, Failed)))
  {
    var queue := Remove(s.queue, id);
    RemoveExact(s.queue, id);
    forall k | 0 <= k < |queue| ensures queue[k] < |s.calls| && queue[k] != id && s.calls[queue[k]].phase == Queued {
      assert queue[k] in queue;
    }
  }

  /** A waiter that gives up leaves the accounts in order before the dispatch that follows. */
  lemma DropWaiterKeeps(cfg: Config, s: State, id: nat)
    requires Inv(cfg, s) && id < |s.calls| && s.calls[id].phase == Queued
    ensures Accounted(cfg, State(s.used, Remove(s.queue, id), WithPhase(s.calls, id, Failed)))
  {
    var t := State(s.used, Remove(s.queue, id), WithPhase(s.calls, id, Failed));
    Update(s.calls, id, t.calls[id], Weight);
    DropQueue(s, id);
    RemoveSubset(s.queue, id);
  }

  lemma {:induction false} ExpireKeeps(cfg: Config, s: State, id: nat)
    requires Inv(cfg, s) && id < |s.calls| && s.calls[id].phase in {Queued, Ready}
    ensures Inv(cfg, Expire(cfg, s, id))
  {
    if s.calls[id].granted {
      Update(s.calls, id, Expire(cfg, s, id).calls[id], Weight);
    } else {
      DropWaiterKeeps(cfg, s, id);
      DispatchKeeps(cfg, State(s.used, Remove(s.queue, id), WithPhase(s.calls, id, Failed)));
    }
  }

  lemma CollectKeeps(cfg: Config, s: State, id: nat, ended: bool)
    requires Inv(cfg, s) && Enabled(s, Take(id, ended))
    ensures Inv(cfg, Collect(s, id, ended))
  {
    Update(s.calls, id, Collect(s, id, ended).calls[id], Weight);
  }

  lemma {:induction false} StepKeeps(cfg: Config, s: State, e: Event)
    requires Inv(cfg, s) && Enabled(s, e)
    ensures Inv(cfg, Step(cfg, s, e))
  {
    match e
    case Arrive(size) => AdmitKeeps(cfg, s, size);
    case Take(id, ended) => CollectKeeps(cfg, s, id, ended);
    case Lapse(id) => ExpireKeeps(cfg, s, id);
    case GiveBack(id) =>
      if s.calls[id].phase == Held { ReleaseKeeps(cfg, s, id, Released); }
      else if s.calls[id].phase == Surrendered { ReleaseKeeps(cfg, s, id, Failed); }
  }

  /** States reachable by some interleaving of critical sections, with the events that led there. */
  ghost predicate Reaches(cfg: Config, s: State, events: seq<Event>, t: State)
    decreases |events|
  {
    if events == [] then s == t
    else Indexed(s) && Enabled(s, events[0]) && Reaches(cfg, Step(cfg, s, events[0]), events[1..], t)
  }

  /** The allocator's invariant holds in every reachable state. */
  lemma {:induction false} RunKeeps(cfg: Config, s: State, events: seq<Event>, t: State)
    requires Inv(cfg, s) && Reaches(cfg, s, events, t)
    ensures Inv(cfg, t)
    decreases |events|
  {
    if events != [] {
      StepKeeps(cfg, s, events[0]);
      RunKeeps(cfg, Step(cfg, s, events[0]), events[1..], t);
    }
  }

  lemma StartInv(cfg: Config)
    ensures Inv(cfg, START)
  {}

  lemma NoWaitWithoutHolder(cfg: Config, s: State)
    requires Inv(cfg, s) && s.queue != []
    ensures s.used > 0 && exists i :: 0 <= i < |s.calls| && Holding(s.calls[i])
  {
    assert s.calls[s.queue[0]].size <= cfg.memoryMax;
    WeightsNonNegative(s.calls);
  }

  /** No lost wake-up: in every reachable state somebody waits only because the
      head does not fit, so somebody else holds memory; the queue and the memory stay bounded. */
  lemma {:induction false} NoLostWakeup(cfg: Config, events: seq<Event>, t: State)
    requires Reaches(cfg, START, events, t)
    ensures t.used == Outstanding(t.calls)
    ensures t.used == 0 || t.used <= cfg.memoryMax
    ensures t.queue != [] ==>
      |t.queue| <= cfg.queueMax &&
      t.queue[0] < |t.calls| && t.used + t.calls[t.queue[0]].size > cfg.memoryMax &&
      exists i :: 0 <= i < |t.calls| && Holding(t.calls[i])
  {
    StartInv(cfg);
    RunKeeps(cfg, START, events, t);
    if t.queue != [] {
      NoWaitWithoutHolder(cfg, t);
    }
  }

  // ---- Order of grants and fate of calls --------------------------------

  function Rank(p: Phase): nat {
    match p
    case Queued => 0 case Ready => 1 case Held => 2 case Surrendered => 2 case Released => 3 case Failed => 3
  }

  /** A call only moves forward, keeps its size, and a finished one is final. */
  predicate CallAdvances(c: Call, d: Call) {
    && d.size == c.size
    && (c.granted ==> d.granted)
    && Rank(c.phase) <= Rank(d.phase)
    && (Rank(c.phase) == Rank(d.phase) ==> d == c)
    && (c.phase == Surrendered ==> d.phase in {Surrendered, Failed})
    && (c.phase == Held ==> d.phase in {Held, Released})
  }

  ghost predicate Advances(s: State, t: State) {
    |s.calls| <= |t.calls| && forall i :: 0 <= i < |s.calls| ==> CallAdvances(s.calls[i], t.calls[i])
  }

  /** Apart from call id, calls only change by being granted. */
  ghost predicate Spares(s: State, id: nat, t: State) {
    |t.calls| == |s.calls| && forall i :: 0 <= i < |s.calls| && i != id ==> SameOrGranted(s.calls[i], t.calls[i])
  }

  /** A dispatch that follows a change to one call advances every call. */
  lemma DispatchAdvances(cfg: Config, s: State, id: nat, m: State)
    requires id < |s.calls| && Accounted(cfg, m)
    requires |m.calls| == |s.calls| && CallAdvances(s.calls[id], m.calls[id]) && m.calls[id].phase in {Released, Failed}
    requires forall i :: 0 <= i < |s.calls| && i != id ==> m.calls[i] == s.calls[i]
    ensures Advances(s, Dispatch(cfg, m)) && Dispatch(cfg, m).calls[id] == m.calls[id]
    ensures Spares(s, id, Dispatch(cfg, m))
  {
    DispatchKeeps(cfg, m);
    var t := Dispatch(cfg, m);
    forall i | 0 <= i < |s.calls| ensures CallAdvances(s.calls[i], t.calls[i]) {
      assert SameOrGranted(m.calls[i], t.calls[i]);
    }
    assert SameOrGranted(m.calls[id], t.calls[id]);
  }

  lemma ReleaseAdvances(cfg: Config, s: State, id: nat, p: Phase)
    requires Inv(cfg, s) && id < |s.calls|
    requires (s.calls[id].phase == Held && p == Released) || (s.calls[id].phase == Surrendered && p == Failed)
    ensures Advances(s, Release(cfg, s, id, p)) && Release(cfg, s, id, p).calls[id].phase == p
    ensures Spares(s, id, Release(cfg, s, id, p))
  {
    FreeKeeps(cfg, s, id, p);
    DispatchAdvances(cfg, s, id, State(s.used - s.calls[id].size, s.queue, WithPhase(s.calls, id, p)));
  }

  lemma ExpireAdvances(cfg: Config, s: State, id: nat)
    requires Inv(cfg, s) && id < |s.calls| && s.calls[id].phase in {Queued, Ready}
    ensures Advances(s, Expire(cfg, s, id))
    ensures Expire(cfg, s, id).calls[id].phase == if s.calls[id].granted then Surrendered else Failed
    ensures Spares(s, id, Expire(cfg, s, id))
  {
    if !s.calls[id].granted {
      DropWaiterKeeps(cfg, s, id);
      DispatchAdvances(cfg, s, id, State(s.used, Remove(s.queue, id), WithPhase(s.calls, id, Failed)));
    }
  }

  lemma {:induction false} SplitOutstanding(calls: seq<Call>, id: nat)
    requires id < |calls|
    ensures Outstanding(calls) == Outstanding(calls[..id]) + Weight(calls[id]) + Outstanding(calls[id + 1..])
  {
    var last := |calls| - 1;
    if id < last {
      SplitOutstanding(calls[..last], id);
      assert calls[..last][..id] == calls[..id];
      assert calls[id + 1..][..last - id - 1] == calls[..last][id + 1..];
    }
  }

  /** Whichever way the race between grant and timeout goes, the call ends with an error
      and the memory it held or asked for is free again. */
  lemma ExpiredWaitFails(cfg: Config, s: State, id: nat)
    requires Inv(cfg, s) && id < |s.calls| && s.calls[id].phase in {Queued, Ready}
    ensures var t := ExpiredWait(cfg, s, id);
      && Inv(cfg, t) && id < |t.calls| && t.calls[id].phase == Failed
      && t.used == Outstanding(t.calls[..id]) + Outstanding(t.calls[id + 1..])
  {
    ExpireKeeps(cfg, s, id);
    ExpireAdvances(cfg, s, id);
    if s.calls[id].granted {
      ReleaseKeeps(cfg, Expire(cfg, s, id), id, Failed);
      ReleaseAdvances(cfg, Expire(cfg, s, id), id, Failed);
    }
    SplitOutstanding(ExpiredWait(cfg, s, id).calls, id);
  }

  lemma {:induction false} StepAdvances(cfg: Config, s: State, e: Event)
    requires Inv(cfg, s) && Enabled(s, e)
    ensures Advances(s, Step(cfg, s, e))
  {
    match e
    case Arrive(size) =>
    case Take(id, ended) =>
    case Lapse(id) => ExpireAdvances(cfg, s, id);
    case GiveBack(id) =>
      if s.calls[id].phase == Held { ReleaseAdvances(cfg, s, id, Released); }
      else if s.calls[id].phase == Surrendered { ReleaseAdvances(cfg, s, id, Failed); }
  }

  lemma {:induction false} RunAdvances(cfg: Config, s: State, events: seq<Event>, t: State)
    requires Inv(cfg, s) && Reaches(cfg, s, events, t)
    ensures Advances(s, t)
    decreases |events|
  {
    if events != [] {
      var m := Step(cfg, s, events[0]);
      StepKeeps(cfg, s, events[0]);
      StepAdvances(cfg, s, events[0]);
      RunAdvances(cfg, m, events[1..], t);
      forall i | 0 <= i < |s.calls| ensures Rank(s.calls[i].phase) <= Rank(t.calls[i].phase) {
        assert Rank(s.calls[i].phase) <= Rank(m.calls[i].phase);
      }
    }
  }

  /** First come, first served over whole runs: if i was waiting when j arrived
      later, j is granted only after i was granted or had given up. */
  lemma {:induction false} GrantsFollowArrival(cfg: Config, before: seq<Event>, s: State, after: seq<Event>,
                                               t: State, i: nat, j: nat)
    requires Reaches(cfg, START, before, s) && Reaches(cfg, s, after, t)
    requires i < |s.calls| <= j < |t.calls| && s.calls[i].phase == Queued
    requires t.calls[j].granted
    ensures t.calls[i].granted || t.calls[i].phase == Failed
  {
    StartInv(cfg);
    RunKeeps(cfg, START, before, s);
    RunKeeps(cfg, s, after, t);
    RunAdvances(cfg, s, after, t);
  }

  /** A call that has failed holds nothing and never will: whatever happens later it stays failed,
      and the memory in use is the sum over the other calls. */
  lemma {:induction false} FailureCostsNothing(cfg: Config, before: seq<Event>, s: State, after: seq<Event>,
                                               t: State, id: nat)
    requires Reaches(cfg, START, before, s) && Reaches(cfg, s, after, t)
    requires id < |s.calls| && s.calls[id].phase == Failed
    ensures id < |t.calls| && t.calls[id].phase == Failed
    ensures t.used == Outstanding(t.calls[..id]) + Outstanding(t.calls[id + 1..])
  {
    StartInv(cfg);
    RunKeeps(cfg, START, before, s);
    RunKeeps(cfg, s, after, t);
    RunAdvances(cfg, s, after, t);
    SplitOutstanding(t.calls, id);
  }

  /** Each size's answer, and what it does to accounts, queue and calls. */
  lemma AdmitSays(cfg: Config, s: State, size: int)
    ensures var (t, r) := Admit(cfg, s, size);
      && r == (if size < 0 then Rejected(BodyTooLarge) else if size > cfg.memoryMax then Rejected(StoreCapacity)
               else if size == 0 then Unmetered else if s.queue == [] && s.used + size <= cfg.memoryMax then Reserved
               else if |s.queue| < cfg.queueMax then Waiting else Rejected(QueueFull))
      && t.used == s.used + (if r == Reserved then size else 0)
      && t.queue == s.queue + (if r == Waiting then [|s.calls|] else [])
      && (r == Reserved ==> t.calls == s.calls + [Call(size, Held, true)])
      && (r == Waiting ==> t.calls == s.calls + [Call(size, Queued, false)])
      && (r !in {Reserved, Waiting} ==> t == s)
  {
    assert s.queue + [] == s.queue;
  }

  // ---- Progress ----------------------------------------------------------

  /** Steps the holder of a reservation still has to take to give it back. */
  function Debt(c: Call): int {
    match c.phase case Ready => 2 case Held => 1 case Surrendered => 1 case _ => 0
  }

  /** Dispatching grants to the head first, or not at all. */
  lemma DispatchStartsAtHead(cfg: Config, m: State)
    requires Accounted(cfg, m) && m.queue != []
    ensures |Dispatch(cfg, m).calls| == |m.calls|
    ensures Dispatch(cfg, m) == m || Dispatch(cfg, m).calls[m.queue[0]].granted
  {
    DispatchKeeps(cfg, m);
    if !Settled(cfg, m) {
      GrantHeadKeeps(cfg, m);
      DispatchKeeps(cfg, GrantHead(m));
      assert SameOrGranted(GrantHead(m).calls[m.queue[0]], Dispatch(cfg, m).calls[m.queue[0]]);
    }
  }

  lemma OneDebtLess(s: State, i: nat, p: Phase)
    requires i < |s.calls| && s.calls[i].phase in {Held, Surrendered} && p in {Released, Failed}
    ensures SumOf(WithPhase(s.calls, i, p), Debt) == SumOf(s.calls, Debt) - 1
  {
    Update(s.calls, i, s.calls[i].(phase := p), Debt);
  }

  /** What giving back does to the call itself. */
  lemma GiveBackLeaves(cfg: Config, s: State, id: nat)
    requires Inv(cfg, s) && Enabled(s, GiveBack(id))
    ensures var t := Step(cfg, s, GiveBack(id));
      && Inv(cfg, t) && |t.calls| == |s.calls|
      && t.calls[id].phase == (match s.calls[id].phase case Held => Released case Surrendered => Failed case p => p)
      && (!Holding(s.calls[id]) ==> t == s)
  {
    StepKeeps(cfg, s, GiveBack(id));
    if s.calls[id].phase == Held {
      ReleaseAdvances(cfg, s, id, Released);
    } else if s.calls[id].phase == Surrendered {
      ReleaseAdvances(cfg, s, id, Failed);
    }
  }

  lemma NotQueued(cfg: Config, s: State, id: nat)
    requires Inv(cfg, s) && id < |s.calls| && s.calls[id].phase != Queued
    ensures id !in s.queue
  {}

  /** An expired wait is over and forgotten. */
  lemma ExpiredIsForgotten(cfg: Config, s: State, id: nat)
    requires Inv(cfg, s) && id < |s.calls| && s.calls[id].phase in {Queued, Ready}
    ensures var t := ExpiredWait(cfg, s, id); id < |t.calls| && t.calls[id].phase == Failed && id !in t.queue
  {
    ExpiredWaitFails(cfg, s, id);
    NotQueued(cfg, ExpiredWait(cfg, s, id), id);
  }

  /** Giving one reservation back serves the head, or leaves it the head with one holder fewer before it. */
  lemma GiveBackHelps(cfg: Config, s: State, i: nat)
    requires Inv(cfg, s) && s.queue != [] && i < |s.calls| && s.calls[i].phase in {Held, Surrendered}
    ensures Enabled(s, GiveBack(i))
    ensures var t := Step(cfg, s, GiveBack(i));
      && Inv(cfg, t) && s.queue[0] < |t.calls|
      && (t.calls[s.queue[0]].granted ||
           (t.queue == s.queue && SumOf(t.calls, Debt) == SumOf(s.calls, Debt) - 1))
  {
    var p := if s.calls[i].phase == Held then Released else Failed;
    FreeKeeps(cfg, s, i, p);
    ReleaseKeeps(cfg, s, i, p);
    var m := State(s.used - s.calls[i].size, s.queue, WithPhase(s.calls, i, p));
    OneDebtLess(s, i, p);
    DispatchStartsAtHead(cfg, m);
  }

  lemma TakeHelps(cfg: Config, s: State, i: nat)
    requires Inv(cfg, s) && i < |s.calls| && s.calls[i].phase == Ready
    ensures Enabled(s, Take(i, false))
    ensures var t := Step(cfg, s, Take(i, false));
      Inv(cfg, t) && t.queue == s.queue && |t.calls| == |s.calls| && SumOf(t.calls, Debt) == SumOf(s.calls, Debt) - 1
  {
    CollectKeeps(cfg, s, i, false);
    Update(s.calls, i, Collect(s, i, false).calls[i], Debt);
  }

  lemma RunGoesOn(cfg: Config, s: State, e: Event, events: seq<Event>, t: State)
    requires Indexed(s) && Enabled(s, e) && Reaches(cfg, Step(cfg, s, e), events, t)
    ensures Reaches(cfg, s, [e] + events, t)
  {
    assert ([e] + events)[1..] == events;
  }

  /** No deadlock: whoever waits at the head can be served by the holders giving back what they have. */
  lemma {:induction false} HeadCanBeServed(cfg: Config, s: State) returns (events: seq<Event>, t: State)
    requires Inv(cfg, s) && s.queue != []
    ensures Reaches(cfg, s, events, t) && s.queue[0] < |t.calls| && t.calls[s.queue[0]].granted
    decreases SumOf(s.calls, Debt)
  {
    NoWaitWithoutHolder(cfg, s);
    NonNegative(s.calls, Debt);
    var i :| 0 <= i < |s.calls| && Holding(s.calls[i]);
    var e := if s.calls[i].phase == Ready then Take(i, false) else GiveBack(i);
    if e.Take? { TakeHelps(cfg, s, i); } else { GiveBackHelps(cfg, s, i); }
    var m := Step(cfg, s, e);
    NonNegative(m.calls, Debt);
    if m.calls[s.queue[0]].granted {
      events, t := [], m;
    } else {
      events, t := HeadCanBeServed(cfg, m);
    }
    RunGoesOn(cfg, s, e, events, t);
    events := [e] + events;
  }

  /** A wait may end at any time before its reservation is taken; undisturbed, its critical sections are the whole
      context branch of admit. */
  lemma WaitMayEnd(cfg: Config, s: State, id: nat)
    requires Inv(cfg, s) && id < |s.calls| && s.calls[id].phase in {Queued, Ready}
    ensures Reaches(cfg, s, [Lapse(id)] + (if s.calls[id].granted then [GiveBack(id)] else []), ExpiredWait(cfg, s, id))
    ensures s.calls[id].phase == Ready ==>
      Reaches(cfg, s, [Take(id, true)] + [GiveBack(id)], ExpiredWait(cfg, s, id))
  {
    var (t, m) := (ExpiredWait(cfg, s, id), Expire(cfg, s, id));
    ExpireKeeps(cfg, s, id);
    assert Reaches(cfg, t, [], t);
    if s.calls[id].granted {
      assert [GiveBack(id)] + [] == [GiveBack(id)];
      RunGoesOn(cfg, m, GiveBack(id), [], t);
      RunGoesOn(cfg, s, Lapse(id), [GiveBack(id)], t);
      if s.calls[id].phase == Ready { RunGoesOn(cfg, s, Take(id, true), [GiveBack(id)], t); }
    } else {
      assert [Lapse(id)] + [] == [Lapse(id)];
      RunGoesOn(cfg, s, Lapse(id), [], t);
    }
  }
}
