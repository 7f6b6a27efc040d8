/** The dispatcher as an object: emit, enqueue, reserve and the worker loop over its fields. Each
    method runs without interference here; Dispatcher proves what every interleaving keeps. */
module DispatcherImpl {
  import opened Prelude
  import opened Dispatcher

  /** Both limits leave room for one more record of this size. */
  predicate Admits(cfg: Config, s: State, size: nat) {
    s.count < cfg.maxRecords && s.bytes + size <= cfg.maxBytes
  }

  function Reserved(s: State, i: nat, ok: bool): State
    requires i < |s.records|
  {
    var r := s.records[i];
    if ok then
      Set(s, i, r.(emit := Sending, refs := r.refs + 1)).(count := s.count + 1, bytes := s.bytes + r.size)
    else
      Set(s, i, r.(emit := Releasing))
  }

  function Enqueued(cfg: Config, s: State, i: nat, accepted: bool): State
    requires i < |s.records| && Shard(cfg, s.records[i].trace) < |s.queues|
  {
    var r := s.records[i];
    var w := Shard(cfg, r.trace);
    if accepted then
      Set(s, i, r.(emit := Releasing, item := Queued, refs := r.refs + 1)).(
        count := s.count + 1, bytes := s.bytes + r.size, queues := s.queues[w := s.queues[w] + [i]])
    else
      Set(s, i, r.(emit := Releasing))
  }

  /** The record is numbered next in its trace; refused, its only reference is dropped and its callback run. */
  function Emitted(cfg: Config, s: State, trace: nat, size: nat, accepted: bool): State
    requires Shard(cfg, trace) < |s.queues|
  {
    var (number, w) := (Sequence(s, trace) + 1, Shard(cfg, trace));
    var t := s.(sequences := s.sequences[trace := number]);
    if accepted then
      t.(records := s.records + [Record(trace, number, size, Returned, Queued, 1, 0)],
         count := s.count + 1, bytes := s.bytes + size, queues := s.queues[w := s.queues[w] + [|s.records|]])
    else
      t.(records := s.records + [Record(trace, number, size, Returned, Absent, 0, 1)])
  }

  function Handled(s: State, w: nat): State
    requires w < |s.queues| && s.queues[w] != [] && s.queues[w][0] < |s.records|
  {
    var i := s.queues[w][0];
    Set(s, i, Unref(s.records[i]).(item := Gone)).(
      count := s.count - 1, bytes := s.bytes - s.records[i].size,
      queues := s.queues[w := s.queues[w][1..]], sink := s.sink + [i])
  }

  // ---- Calls are runs of steps ------------------------------------------

  ghost predicate Reachable(cfg: Config, s: State) {
    exists events :: Reaches(cfg, Start(cfg), events, s)
  }

  lemma {:induction false} RunExtends(cfg: Config, s: State, events: seq<Event>, t: State, e: Event)
    requires Reaches(cfg, s, events, t) && Enabled(cfg, t, e)
    ensures Reaches(cfg, s, events + [e], Step(cfg, t, e))
    decreases |events|
  {
    if events == [] {
      assert Reaches(cfg, Step(cfg, t, e), [], Step(cfg, t, e));
      assert ([] + [e])[1..] == [];
    } else {
      RunExtends(cfg, Step(cfg, s, events[0]), events[1..], t, e);
      assert (events + [e])[1..] == events[1..] + [e];
    }
  }

  lemma Take(cfg: Config, s: State, e: Event)
    requires Reachable(cfg, s) && Enabled(cfg, s, e)
    ensures Reachable(cfg, Step(cfg, s, e))
  {
    var events :| Reaches(cfg, Start(cfg), events, s);
    RunExtends(cfg, Start(cfg), events, s, e);
  }

  lemma InRange(cfg: Config, s: State, trace: nat)
    requires cfg.workers > 0 && Reachable(cfg, s)
    ensures Shard(cfg, trace) < |s.queues| == |s.inflight| == cfg.workers
  {
    var events :| Reaches(cfg, Start(cfg), events, s);
    StartInv(cfg);
    RunKeeps(cfg, Start(cfg), events, s);
  }

  lemma RoomToSend(cfg: Config, s: State, i: nat)
    requires cfg.workers > 0 && Reachable(cfg, s) && At(s, i, Sending)
    ensures Shard(cfg, s.records[i].trace) < |s.queues| && |s.queues[Shard(cfg, s.records[i].trace)]| < cfg.maxRecords
  {
    var events :| Reaches(cfg, Start(cfg), events, s);
    CountersAreExact(cfg, events, s);
  }

  /** The head of a worker's channel is a record that waits there. */
  lemma HeadIsQueued(cfg: Config, s: State, w: nat)
    requires cfg.workers > 0 && Reachable(cfg, s) && w < |s.queues| && s.queues[w] != []
    ensures InQueue(cfg, s, w, s.queues[w][0])
  {
    var events :| Reaches(cfg, Start(cfg), events, s);
    InRange(cfg, s, 0);
    StartInv(cfg);
    RunKeeps(cfg, Start(cfg), events, s);
  }

  /** States with equal fields are equal. */
  lemma SameState(s: State, t: State)
    requires s.records == t.records && s.count == t.count && s.bytes == t.bytes && s.sequences == t.sequences
    requires s.holders == t.holders && s.queues == t.queues && s.inflight == t.inflight && s.sink == t.sink
    ensures s == t
  {}

  lemma Overwrite<T>(items: seq<T>, i: nat, x: T, y: T)
    requires i < |items|
    ensures items[i := x][i := y] == items[i := y]
  {}

  lemma OverwriteLast<T>(items: seq<T>, x: T, y: T)
    ensures (items + [x])[|items| := y] == items + [y]
  {}

  lemma Restored<T>(items: seq<T>, i: nat, x: T)
    requires i < |items|
    ensures items[i := x][i := items[i]] == items
  {}

  lemma LockAndUnlock(locks: map<nat, nat>, trace: nat, i: nat)
    requires trace !in locks
    ensures locks[trace := i] - {trace} == locks
  {}

  lemma BytesStep(cfg: Config, s: State, t: State, i: nat)
    requires At(s, i, Counting) && t == Set(s, i, s.records[i].(emit := Weighing)).(count := s.count + 1)
    ensures At(t, i, Weighing)
    ensures Step(cfg, t, ReserveBytes(i)) ==
      if s.bytes + s.records[i].size > cfg.maxBytes then
        Set(s, i, s.records[i].(emit := Undoing)).(count := s.count + 1)
      else Reserved(s, i, true)
  {
    var (r, u) := (s.records[i], Step(cfg, t, ReserveBytes(i)));
    Overwrite(s.records, i, r.(emit := Weighing), u.records[i]);
  }

  lemma UndoStep(cfg: Config, s: State, u: State, i: nat)
    requires At(s, i, Counting) && u == Set(s, i, s.records[i].(emit := Undoing)).(count := s.count + 1)
    ensures At(u, i, Undoing) && Step(cfg, u, Undo(i)) == Reserved(s, i, false)
  {
    Overwrite(s.records, i, s.records[i].(emit := Undoing), s.records[i].(emit := Releasing));
  }

  lemma BytesKeep(cfg: Config, s: State, t: State, i: nat)
    requires At(s, i, Counting) && Reachable(cfg, t) && s.count < cfg.maxRecords
    requires t == Set(s, i, s.records[i].(emit := Weighing)).(count := s.count + 1)
    ensures Reachable(cfg, Reserved(s, i, Admits(cfg, s, s.records[i].size)))
  {
    BytesStep(cfg, s, t, i);
    Take(cfg, t, ReserveBytes(i));
    if !Admits(cfg, s, s.records[i].size) {
      var u := Step(cfg, t, ReserveBytes(i));
      UndoStep(cfg, s, u, i);
      Take(cfg, u, Undo(i));
    }
  }

  lemma ReserveKeeps(cfg: Config, s: State, i: nat)
    requires Reachable(cfg, s) && At(s, i, Counting)
    ensures Reachable(cfg, Reserved(s, i, Admits(cfg, s, s.records[i].size)))
  {
    Take(cfg, s, ReserveSlot(i));
    if s.count < cfg.maxRecords {
      BytesKeep(cfg, s, Step(cfg, s, ReserveSlot(i)), i);
    }
  }

  lemma EnqueueKeeps(cfg: Config, s: State, i: nat)
    requires cfg.workers > 0 && Reachable(cfg, s) && At(s, i, Counting)
    ensures Shard(cfg, s.records[i].trace) < |s.queues|
    ensures Reachable(cfg, Enqueued(cfg, s, i, Admits(cfg, s, s.records[i].size)))
  {
    InRange(cfg, s, s.records[i].trace);
    ReserveKeeps(cfg, s, i);
    if Admits(cfg, s, s.records[i].size) {
      var t := Reserved(s, i, true);
      RoomToSend(cfg, t, i);
      Take(cfg, t, Send(i));
      SameState(Step(cfg, t, Send(i)), Enqueued(cfg, s, i, true));
    }
  }

  /** Numbering, enqueueing and dropping the emitter's own reference amount to Emitted. */
  lemma EmitEnds(cfg: Config, s: State, trace: nat, size: nat, ok: bool)
    requires trace !in s.holders && Shard(cfg, trace) < |s.queues|
    ensures var t := Step(cfg, s, Emits(trace, size));
      var u := Enqueued(cfg, t, |s.records|, ok);
      At(u, |s.records|, Releasing) && Step(cfg, u, Drop(|s.records|)) == Emitted(cfg, s, trace, size, ok)
  {
    var i := |s.records|;
    var t := Step(cfg, s, Emits(trace, size));
    var u := Enqueued(cfg, t, i, ok);
    OverwriteLast(s.records, t.records[i], u.records[i]);
    OverwriteLast(s.records, u.records[i], Unref(u.records[i]).(emit := Returned));
    LockAndUnlock(s.holders, trace, i);
  }

  lemma EmitKeeps(cfg: Config, s: State, trace: nat, size: nat)
    requires cfg.workers > 0 && Reachable(cfg, s) && trace !in s.holders
    ensures Reachable(cfg, Step(cfg, s, Emits(trace, size))) && Shard(cfg, trace) < |s.queues|
    ensures Reachable(cfg, Emitted(cfg, s, trace, size, Admits(cfg, s, size)))
  {
    InRange(cfg, s, trace);
    var (i, t) := (|s.records|, Step(cfg, s, Emits(trace, size)));
    Take(cfg, s, Emits(trace, size));
    EnqueueKeeps(cfg, t, i);
    EmitEnds(cfg, s, trace, size, Admits(cfg, s, size));
    Take(cfg, Enqueued(cfg, t, i, Admits(cfg, s, size)), Drop(i));
  }

  /** Worker w's loop, having handed the head of its channel to the sink. */
  function Wrote(s: State, w: nat, r: Record): State
    requires w < |s.queues| && w < |s.inflight| && s.queues[w] != [] && s.queues[w][0] < |s.records|
  {
    var i := s.queues[w][0];
    Set(s, i, r).(queues := s.queues[w := s.queues[w][1..]], inflight := s.inflight[w := Some(i)], sink := s.sink + [i])
  }

  lemma ReleaseStep(cfg: Config, s: State, w: nat, s2: State)
    requires Enabled(cfg, s, Receive(w)) && s2 == Wrote(s, w, s.records[s.queues[w][0]].(item := Written))
    ensures Enabled(cfg, s2, WorkerRelease(w))
    ensures Step(cfg, s2, WorkerRelease(w)) == Wrote(s, w, Unref(s.records[s.queues[w][0]]).(item := Freed))
  {
    var i := s.queues[w][0];
    Overwrite(s.records, i, s.records[i].(item := Written), Unref(s.records[i]).(item := Freed));
  }

  /** The worker gives back the bytes, then the slot. */
  lemma FreeKeeps(cfg: Config, s: State, w: nat, s3: State)
    requires Enabled(cfg, s, Receive(w)) && Reachable(cfg, s3)
    requires s3 == Wrote(s, w, Unref(s.records[s.queues[w][0]]).(item := Freed))
    ensures Reachable(cfg, Handled(s, w))
  {
    var i := s.queues[w][0];
    var r := Unref(s.records[i]);
    Take(cfg, s3, FreeBytes(w));
    var s4 := Step(cfg, s3, FreeBytes(w));
    Take(cfg, s4, FreeSlot(w));
    Overwrite(s.records, i, r.(item := Freed), r.(item := Light));
    Overwrite(s.records, i, r.(item := Light), r.(item := Gone));
    Restored(s.inflight, w, Some(i));
    SameState(Step(cfg, s4, FreeSlot(w)), Handled(s, w));
  }

  lemma ReleaseKeeps(cfg: Config, s: State, w: nat, s2: State)
    requires Enabled(cfg, s, Receive(w)) && Reachable(cfg, s2)
    requires s2 == Wrote(s, w, s.records[s.queues[w][0]].(item := Written))
    ensures Reachable(cfg, Handled(s, w))
  {
    ReleaseStep(cfg, s, w, s2);
    Take(cfg, s2, WorkerRelease(w));
    FreeKeeps(cfg, s, w, Step(cfg, s2, WorkerRelease(w)));
  }

  lemma HandleKeeps(cfg: Config, s: State, w: nat)
    requires Reachable(cfg, s) && Enabled(cfg, s, Receive(w))
    ensures Reachable(cfg, Handled(s, w))
  {
    var i := s.queues[w][0];
    var r := s.records[i];
    var s1 := Step(cfg, s, Receive(w));
    Take(cfg, s, Receive(w));
    Overwrite(s.records, i, r.(item := Got), r.(item := Written));
    Take(cfg, s1, Write(w));
    ReleaseKeeps(cfg, s, w, Step(cfg, s1, Write(w)));
  }

  class EventDispatcher {
    const cfg: Config
    var queuedCount: int
    var queuedBytes: int
    var queues: seq<seq<nat>>
    var inflight: seq<Option<nat>>   // the item each worker's loop is handling
    var records: seq<Record>
    var sequences: map<nat, nat>
    var locks: map<nat, nat>         // the emitter that holds each trace's lock
    var sink: seq<nat>
    var closedTraces: set<nat>

    ghost function View(): State
      reads this
    {
      State(records, queuedCount, queuedBytes, sequences, locks, queues, inflight, sink)
    }

    ghost predicate Valid()
      reads this
    {
      cfg.workers > 0 && Reachable(cfg, View())
    }

    /** Non-positive settings fall back to one worker, 1024 records and 64 MiB. */
    constructor (workers: int, maxRecords: int, maxBytes: int, hash: nat -> nat)
      ensures Valid() && View() == Start(cfg) && cfg.hash == hash && closedTraces == {}
      ensures cfg.workers == if workers <= 0 then 1 else workers
      ensures cfg.maxRecords == if maxRecords <= 0 then 1024 else maxRecords
      ensures cfg.maxBytes == if maxBytes <= 0 then 0x400_0000 else maxBytes
    {
      var n := if workers <= 0 then 1 else workers;
      cfg := Config(if maxRecords <= 0 then 1024 else maxRecords,
            if maxBytes <= 0 then 0x400_0000 else maxBytes, n, hash);
      queuedCount, queuedBytes, records, sequences, locks, sink := 0, 0, [], map[], map[], [];
      queues, inflight, closedTraces := seq(n, w => []), seq(n, w => None), {};
      new;
      assert Reaches(cfg, Start(cfg), [], View());
    }

    /** Both limits or neither: a refusal leaves the counters as they were. */
    method Reserve(i: nat) returns (ok: bool)
      requires Valid() && At(View(), i, Counting)
      modifies `queuedCount, `queuedBytes, `records
      ensures Valid()
      ensures ok <==> Admits(cfg, old(View()), old(records[i].size))
      ensures View() == Reserved(old(View()), i, ok)
    {
      ReserveKeeps(cfg, View(), i);
      if queuedCount >= cfg.maxRecords {
        records := records[i := records[i].(emit := Releasing)];
        return false;
      }
      queuedCount := queuedCount + 1;
      if queuedBytes + records[i].size > cfg.maxBytes {
        queuedCount := queuedCount - 1;
        records := records[i := records[i].(emit := Releasing)];
        return false;
      }
      queuedBytes := queuedBytes + records[i].size;
      records := records[i := records[i].(emit := Sending, refs := records[i].refs + 1)];
      return true;
    }

    /** A record is accepted exactly when it was reserved; the send's default branch is dead. */
    method Enqueue(i: nat) returns (accepted: bool)
      requires Valid() && At(View(), i, Counting)
      modifies `queuedCount, `queuedBytes, `records, `queues
      ensures Valid()
      ensures accepted <==> Admits(cfg, old(View()), old(records[i].size))
      ensures Shard(cfg, old(records[i].trace)) < |old(queues)|
      ensures View() == Enqueued(cfg, old(View()), i, accepted)
    {
      InRange(cfg, View(), records[i].trace);
      accepted := Reserve(i);
      if accepted {
        RoomToSend(cfg, View(), i);
        Take(cfg, View(), Send(i));
        var w := Shard(cfg, records[i].trace);
        if |queues[w]| < cfg.maxRecords {
          queues := queues[w := queues[w] + [i]];
          records := records[i := records[i].(emit := Releasing, item := Queued)];
        } else {
          assert false;
        }
      }
    }

    /** Under its lock, a trace numbers its next record. */
    method Number(trace: nat, size: nat) returns (i: nat)
      requires Valid() && trace !in locks
      modifies `records, `sequences, `locks
      ensures Valid() && i == |old(records)| && View() == Step(cfg, old(View()), Emits(trace, size))
    {
      EmitKeeps(cfg, View(), trace, size);
      i := |records|;
      var number := (if trace in sequences then sequences[trace] else 0) + 1;
      sequences, locks := sequences[trace := number], locks[trace := i];
      records := records + [Record(trace, number, size, Counting, Absent, 1, 0)];
    }

    /** The emitter drops its own reference and unlocks. */
    method Unlock(i: nat)
      requires Valid() && At(View(), i, Releasing)
      modifies `records, `locks
      ensures Valid() && View() == Step(cfg, old(View()), Drop(i))
    {
      Take(cfg, View(), Drop(i));
      locks := locks - {records[i].trace};
      records := records[i := Unref(records[i]).(emit := Returned)];
    }

    /** Emitting under the trace's lock numbers the record; a record that is not accepted has been released once.
        On a closed trace the callback runs at once and nothing else happens. */
    method Emit(trace: nat, size: nat) returns (accepted: bool, released: bool)
      requires Valid() && trace !in locks
      modifies this
      ensures Valid() && closedTraces == old(closedTraces) && Shard(cfg, trace) < |old(queues)|
      ensures accepted <==> trace !in closedTraces && Admits(cfg, old(View()), size)
      ensures released <==> !accepted
      ensures View() == if trace in closedTraces then old(View()) else Emitted(cfg, old(View()), trace, size, accepted)
      ensures trace !in closedTraces ==>
        (released <==> |old(records)| < |records| && records[|old(records)|].releases == 1)
    {
      InRange(cfg, View(), trace);
      if trace in closedTraces {
        return false, true;
      }
      ghost var s := View();
      var i := Number(trace, size);
      accepted := Enqueue(i);
      EmitEnds(cfg, s, trace, size, accepted);
      Unlock(i);
      released := !accepted;
    }

    /** The end of a trace: records that are numbered already stay on their way. */
    method CloseTrace(trace: nat)
      requires Valid()
      modifies `closedTraces
      ensures Valid() && View() == old(View()) && closedTraces == old(closedTraces) + {trace}
    {
      closedTraces := closedTraces + {trace};
    }

    /** One turn of the worker loop: write, release, then give back the bytes and the slot. */
    method HandleNext(w: nat)
      requires Valid() && Enabled(cfg, View(), Receive(w))
      modifies this
      ensures Valid() && closedTraces == old(closedTraces)
      ensures View() == Handled(old(View()), w)
    {
      HandleKeeps(cfg, View(), w);
      var i := queues[w][0];
      queues, inflight := queues[w := queues[w][1..]], inflight[w := Some(i)];
      sink := sink + [i];
      records := records[i := Unref(records[i]).(item := Gone)];
      queuedBytes := queuedBytes - records[i].size;
      queuedCount := queuedCount - 1;
      inflight := inflight[w := None];
      Restored(old(inflight), w, Some(i));
      SameState(View(), Handled(old(View()), w));
    }

    /** The worker loop drains its channel: everything in it reaches the sink, in order. */
    method Run(w: nat)
      requires Valid() && w < cfg.workers && |queues| == |inflight| == cfg.workers && inflight[w].None?
      modifies this
      ensures Valid() && inflight == old(inflight)
      ensures queues == old(queues)[w := []]
      ensures sink == old(sink) + old(queues[w])
      ensures queuedCount == old(queuedCount) - |old(queues[w])|
      ensures unchanged(`sequences, `locks)
    {
      ghost var done := 0;
      while queues[w] != []
        invariant Valid() && inflight == old(inflight) && |queues| == cfg.workers
        invariant 0 <= done <= |old(queues[w])|
        invariant queues == old(queues)[w := old(queues[w])[done..]]
        invariant sink == old(sink) + old(queues[w])[..done]
        invariant queuedCount == old(queuedCount) - done
        invariant unchanged(`sequences, `locks)
        decreases |queues[w]|
      {
        HeadIsQueued(cfg, View(), w);
        HandleNext(w);
        done := done + 1;
      }
    }
  }
}
