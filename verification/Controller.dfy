/** The controller itself: fields updated in place under its mutex. Each method
    body is one critical section and refines a step of Admission. */
module ControllerImpl {
  import opened Admission

  class Controller {
    const config: Config
    var used: int
    var queue: seq<nat>
    var calls: seq<Call>   // the waiters and reservations handed out so far, by arrival number

    constructor (config: Config)
      ensures this.config == config && Inv(config, State())
    {
      this.config := config;
      used, queue, calls := 0, [], [];
    }

    function State(): State
      reads this
    {
      Admission.State(used, queue, calls)
    }

    /** dispatchLocked */
    method DispatchLocked()
      requires Indexed(State())
      modifies this
      ensures State() == Dispatch(config, old(State()))
    {
      while |queue| > 0
        invariant Indexed(State())
        invariant Dispatch(config, State()) == Dispatch(config, old(State()))
        decreases |queue|
      {
        var next := queue[0];
        if used + calls[next].size > config.memoryMax {
          return;
        }
        queue := queue[1..];
        calls := calls[next := calls[next].(phase := Ready, granted := true)];
        used := used + calls[next].size;
      }
    }

    /** admit up to the select statement */
    method Admit(size: int) returns (r: AdmitResult)
      requires Inv(config, State())
      modifies this
      ensures (State(), r) == Admission.Admit(config, old(State()), size)
      ensures State() == Step(config, old(State()), Arrive(size)) && Inv(config, State())
      ensures r == if size < 0 then Rejected(BodyTooLarge) else if size > config.memoryMax then Rejected(StoreCapacity)
                   else if size == 0 then Unmetered
                   else if old(queue) == [] && old(used) + size <= config.memoryMax then Reserved
                   else if |old(queue)| < config.queueMax then Waiting else Rejected(QueueFull)
      ensures used == old(used) + (if r == Reserved then size else 0)
      ensures queue == old(queue) + if r == Waiting then [|old(calls)|] else []
      ensures r == Reserved ==> calls == old(calls) + [Call(size, Held, true)]
      ensures r == Waiting ==> calls == old(calls) + [Call(size, Queued, false)]
      ensures r !in {Reserved, Waiting} ==> unchanged(this)
    {
      AdmitKeeps(config, State(), size);
      AdmitSays(config, State(), size);
      if size < 0 {
        return Rejected(BodyTooLarge);
      }
      if size > config.memoryMax {
        return Rejected(StoreCapacity);
      }
      if size == 0 {
        return Unmetered;
      }
      if |queue| == 0 && used + size <= config.memoryMax {
        used := used + size;
        calls := calls + [Call(size, Held, true)];
        return Reserved;
      }
      if config.queueMax <= 0 || |queue| >= config.queueMax {
        return Rejected(QueueFull);
      }
      queue := queue + [|calls|];
      calls := calls + [Call(size, Queued, false)];
      r := Waiting;
    }

    /** The ready branch of the select; a reservation taken too late is closed. */
    method Collect(id: nat, ended: bool)
      requires Inv(config, State()) && Enabled(State(), Take(id, ended))
      modifies this
      ensures Inv(config, State())
      ensures State() ==
        var taken := Admission.Collect(old(State()), id, ended);
        if ended then Release(config, taken, id, Failed) else taken
      ensures !ended ==> State() == Step(config, old(State()), Take(id, false))
      ensures !ended ==>
        used == old(used) && queue == old(queue) && calls == old(calls)[id := old(calls)[id].(phase := Held)]
      ensures ended ==> id < |calls| && calls[id].phase == Failed
    {
      StepKeeps(config, State(), Take(id, ended));
      calls := WithPhase(calls, id, if ended then Surrendered else Held);
      if ended {
        Close(id);
      }
    }

    /** The context branch of the select: forget the waiter, or give a raced grant back. */
    method Expire(id: nat)
      requires Inv(config, State()) && Enabled(State(), Lapse(id))
      modifies this
      ensures Inv(config, State())
      ensures State() == ExpiredWait(config, old(State()), id)
      ensures id < |calls| && calls[id].phase == Failed && id !in queue
    {
      ExpireKeeps(config, State(), id);
      ExpiredIsForgotten(config, State(), id);
      if !calls[id].granted {
        RemoveSubset(queue, id);
        DropWaiterKeeps(config, State(), id);
        RemoveWaiter(id);
        calls := WithPhase(calls, id, Failed);
        DispatchLocked();
        return;
      }
      calls := WithPhase(calls, id, Surrendered);
      Close(id);
    }

    method RemoveWaiter(id: nat)
      modifies this`queue
      ensures queue == Remove(old(queue), id)
    {
      var index := 0;
      while index < |queue|
        invariant 0 <= index <= |queue| && queue == old(queue)
        invariant Remove(queue, id) == queue[..index] + Remove(queue[index..], id)
      {
        if queue[index] == id {
          queue := queue[..index] + queue[index + 1..];
          return;
        }
        assert queue[index..][1..] == queue[index + 1..];
        assert queue[..index] + [queue[index]] == queue[..index + 1];
        index := index + 1;
      }
    }

    /** Reservation.Close: the first call releases, later ones do nothing. */
    method Close(id: nat)
      requires Inv(config, State()) && Enabled(State(), GiveBack(id))
      modifies this
      ensures State() == Step(config, old(State()), GiveBack(id))
      ensures Inv(config, State()) && id < |calls|
      ensures calls[id].phase ==
        match old(calls)[id].phase case Held => Released case Surrendered => Failed case p => p
      ensures !Holding(old(calls)[id]) ==> State() == old(State())
    {
      GiveBackLeaves(config, State(), id);
      if Holding(calls[id]) {
        used := used - calls[id].size;
        calls := WithPhase(calls, id, if calls[id].phase == Held then Released else Failed);
        if used < 0 {
          used := 0;
        }
        DispatchLocked();
      }
    }
  }
}
