/** The handlers of one mounted module instance (internal/core/program/scope.go): dispatches on their
    callers' goroutines, an ordered lane with one worker, barriers, the failed flag and Finish. Every
    atomic operation is one step, so a run is any schedule of dispatchers, worker and finisher. */
module Lane {
  import opened Sums

  datatype Overflow = Block | Drop | FailRequest

  datatype Kind = Caller | Ordered(barrier: bool, overflow: Overflow)

  datatype Phase =
    | Submitting   // at the send on the lane's channel
    | Queued
    | Ready        // about to load the failed flag
    | Running      // inside the handler
    | Failing      // the handler returned an error that is not recorded yet
    | Done
    | Refused

  /** One dispatch to one handler; `place` is its position among the lane's accepted tasks. */
  datatype Task = Task(kind: Kind, phase: Phase, place: nat, returned: bool, canceled: bool)

  datatype Entry = Started(id: nat) | Ended(id: nat, failed: bool) | Recorded(id: nat) | Finished

  datatype Finisher = NotYet | Waiting | Over

  /** Which executors the instance's handlers use, and whether dispatches exclude each other. */
  datatype Config = Config(capacity: nat, caller: bool, lane: bool, serial: bool)

  datatype State = State(tasks: seq<Task>, failed: bool, accepted: seq<nat>, taken: nat, busy: bool,
                         finisher: Finisher, drained: bool, gaveUp: bool, log: seq<Entry>)

  function Start(): State { State([], false, [], 0, false, NotYet, false, false, []) }

  datatype Event =
    | Dispatch(kind: Kind)
    | Accept(i: nat)
    | Refuse(i: nat)
    | Cancel(i: nat)            // the dispatch's context ends while it waits
    | Pick                      // the worker receives
    | Check(i: nat)             // mountedInstance.call loads failed
    | Return(i: nat, err: bool) // the handler returns
    | Record(i: nat)            // failed.Store(true)
    | Leave(i: nat)             // the dispatch returns
    | BeginFinish
    | Drain
    | GiveUp                    // Finish's context ends while it waits for the lane
    | FinishInstance

  predicate In(s: State, i: nat, phase: Phase) { i < |s.tasks| && s.tasks[i].phase == phase }

  predicate AllReturned(s: State) { forall i :: 0 <= i < |s.tasks| ==> s.tasks[i].returned }

  /** The dispatch has nothing left to wait for. */
  predicate MayLeave(t: Task) {
    match t.kind
    case Caller => t.phase == Done
    case Ordered(barrier, _) => t.phase in {Done, Refused} || (!barrier && t.phase != Submitting)
  }

  predicate Enabled(cfg: Config, s: State, e: Event) {
    match e
    case Dispatch(kind) => s.finisher == NotYet && (if kind.Caller? then cfg.caller else cfg.lane) &&
        (cfg.serial ==> AllReturned(s))
    case Accept(i) => In(s, i, Submitting) && s.taken <= |s.accepted| && |s.accepted| - s.taken < cfg.capacity
    case Refuse(i) => In(s, i, Submitting) && s.taken <= |s.accepted| && |s.accepted| - s.taken >= cfg.capacity &&
      s.tasks[i].kind.Ordered? && s.tasks[i].kind.overflow != Block
    case Cancel(i) => i < |s.tasks| && s.tasks[i].kind.Ordered? && !s.tasks[i].returned &&
      (if s.tasks[i].phase == Submitting then s.tasks[i].kind.overflow == Block else s.tasks[i].kind.barrier)
    case Pick => !s.busy && s.taken < |s.accepted| && s.accepted[s.taken] < |s.tasks|
    case Check(i) => In(s, i, Ready)
    case Return(i, _) => In(s, i, Running)
    case Record(i) => In(s, i, Failing)
    case Leave(i) => i < |s.tasks| && !s.tasks[i].returned && MayLeave(s.tasks[i])
    case BeginFinish => s.finisher == NotYet && AllReturned(s)
    case Drain => s.finisher == Waiting && s.taken == |s.accepted| && !s.busy
    case GiveUp => s.finisher == Waiting
    case FinishInstance => s.finisher == Waiting && (s.drained || s.gaveUp)
  }

  function With(s: State, i: nat, t: Task): State
    requires i < |s.tasks|
  {
    s.(tasks := s.tasks[i := t])
  }

  /** A task is over: the worker, if it ran it, is idle again. */
  function Complete(s: State, i: nat): State
    requires i < |s.tasks|
  {
    With(s, i, s.tasks[i].(phase := Done)).(busy := if s.tasks[i].kind.Caller? then s.busy else false)
  }

  function Step(cfg: Config, s: State, e: Event): State
    requires Enabled(cfg, s, e)
  {
    match e
    case Dispatch(kind) => s.(tasks := s.tasks + [
        Task(kind, if kind.Caller? then Ready else Submitting, 0, false, false)])
    case Accept(i) => With(s, i, s.tasks[i].(phase := Queued, place := |s.accepted|)).(accepted := s.accepted + [i])
    case Refuse(i) => With(s, i, s.tasks[i].(phase := Refused))
    case Cancel(i) =>
      var t := s.tasks[i];
      With(s, i, t.(phase := if t.phase == Submitting then Refused else t.phase, returned := true, canceled := true))
    case Pick =>
      var i := s.accepted[s.taken];
      With(s, i, s.tasks[i].(phase := Ready)).(taken := s.taken + 1, busy := true)
    case Check(i) =>
      if s.failed then Complete(s, i)
      else With(s, i, s.tasks[i].(phase := Running)).(log := s.log + [Started(i)])
    case Return(i, err) =>
      var t := s.(log := s.log + [Ended(i, err)]);
      if err then With(t, i, s.tasks[i].(phase := Failing)) else Complete(t, i)
    case Record(i) => Complete(s, i).(failed := true, log := s.log + [Recorded(i)])
    case Leave(i) => With(s, i, s.tasks[i].(returned := true))
    case BeginFinish => s.(finisher := Waiting)
    case Drain => s.(drained := true)
    case GiveUp => s.(gaveUp := true)
    case FinishInstance => s.(finisher := Over, log := s.log + [Finished])
  }

  // ---- Places ------------------------------------------------------------

  predicate Active(phase: Phase) { phase in {Ready, Running, Failing} }

  /** What a task's phase says about its position. */
  predicate TaskOk(s: State, i: nat)
    requires i < |s.tasks|
  {
    var t := s.tasks[i];
    && (t.kind.Caller? ==> (Active(t.phase) || t.phase == Done) && (Active(t.phase) ==> !t.returned))
    && (t.kind.Ordered? && t.phase !in {Submitting, Refused} ==> t.place < |s.accepted| && s.accepted[t.place] == i)
    && (t.phase == Submitting ==> !t.returned)
    && (t.returned && !t.canceled ==> MayLeave(t))
  }

  /** The accepted tasks: done, then the one the worker has, then the queued ones. */
  predicate PlaceOk(s: State, p: nat)
    requires p < |s.accepted|
  {
    var i := s.accepted[p];
    && i < |s.tasks| && s.tasks[i].kind.Ordered? && s.tasks[i].place == p
    && (if p >= s.taken then s.tasks[i].phase == Queued
        else if p == s.taken - 1 && s.busy then Active(s.tasks[i].phase)
        else s.tasks[i].phase == Done)
  }

  predicate LogOk(s: State, entry: Entry) {
    match entry
    case Started(i) => i < |s.tasks| && s.tasks[i].phase in {Running, Failing, Done}
    case Ended(i, err) => i < |s.tasks| &&
        if err then s.tasks[i].phase == Failing || (s.tasks[i].phase == Done && s.failed) else s.tasks[i].phase == Done
    case Recorded(i) => i < |s.tasks| && s.tasks[i].phase == Done && s.failed
    case Finished => s.finisher == Over
  }

  ghost predicate Inv(cfg: Config, s: State) {
    && s.taken <= |s.accepted| <= s.taken + cfg.capacity
    && (s.busy ==> s.taken > 0)
    && (forall i :: 0 <= i < |s.tasks| ==> TaskOk(s, i) && (if s.tasks[i].kind.Caller? then cfg.caller else cfg.lane))
    && (forall p :: 0 <= p < |s.accepted| ==> PlaceOk(s, p))
    && (forall p :: 0 <= p < |s.log| ==> LogOk(s, s.log[p]))
    && (cfg.serial ==> forall i, j ::
          0 <= i < |s.tasks| && 0 <= j < |s.tasks| && !s.tasks[i].returned && !s.tasks[j].returned ==> i == j)
    && (s.finisher != NotYet ==> AllReturned(s))
    && (s.drained ==> s.finisher != NotYet && s.taken == |s.accepted| && !s.busy)
    && (s.finisher == Over ==> s.drained || s.gaveUp)
  }

  // ---- Every step keeps it ----------------------------------------------

  lemma DispatchKeeps(cfg: Config, s: State, kind: Kind)
    requires Inv(cfg, s) && Enabled(cfg, s, Dispatch(kind))
    ensures Inv(cfg, Step(cfg, s, Dispatch(kind)))
  {
    var t := Step(cfg, s, Dispatch(kind));
    forall i | 0 <= i < |s.tasks| ensures TaskOk(t, i) { assert TaskOk(s, i); }
    forall p | 0 <= p < |t.accepted| ensures PlaceOk(t, p) { assert PlaceOk(s, p); }
    forall p | 0 <= p < |t.log| ensures LogOk(t, t.log[p]) { assert LogOk(s, s.log[p]); }
  }

  lemma AcceptKeeps(cfg: Config, s: State, i: nat)
    requires Inv(cfg, s) && Enabled(cfg, s, Accept(i))
    ensures Inv(cfg, Step(cfg, s, Accept(i)))
  {
    var t := Step(cfg, s, Accept(i));
    assert TaskOk(s, i);
    forall k | 0 <= k < |t.tasks| ensures TaskOk(t, k) { assert TaskOk(s, k); }
    forall p | 0 <= p < |t.accepted| ensures PlaceOk(t, p) {
      if p < |s.accepted| { assert PlaceOk(s, p); }
    }
    forall p | 0 <= p < |t.log| ensures LogOk(t, t.log[p]) { assert LogOk(s, s.log[p]); }
  }

  /** Steps that change only whether a dispatch waits. */
  lemma DispatcherKeeps(cfg: Config, s: State, e: Event)
    requires Inv(cfg, s) && Enabled(cfg, s, e) && (e.Refuse? || e.Cancel? || e.Leave?)
    ensures Inv(cfg, Step(cfg, s, e))
  {
    var t := Step(cfg, s, e);
    assert TaskOk(s, e.i);
    forall k | 0 <= k < |t.tasks| ensures TaskOk(t, k) { assert TaskOk(s, k); }
    forall p | 0 <= p < |t.accepted| ensures PlaceOk(t, p) { assert PlaceOk(s, p); }
    forall p | 0 <= p < |t.log| ensures LogOk(t, t.log[p]) { assert LogOk(s, s.log[p]); }
  }

  lemma PickKeeps(cfg: Config, s: State)
    requires Inv(cfg, s) && Enabled(cfg, s, Pick)
    ensures Inv(cfg, Step(cfg, s, Pick))
  {
    var t := Step(cfg, s, Pick);
    assert PlaceOk(s, s.taken);
    forall k | 0 <= k < |t.tasks| ensures TaskOk(t, k) { assert TaskOk(s, k); }
    forall p | 0 <= p < |t.accepted| ensures PlaceOk(t, p) { assert PlaceOk(s, p); }
    forall p | 0 <= p < |t.log| ensures LogOk(t, t.log[p]) { assert LogOk(s, s.log[p]); }
  }

  /** The task the worker has is the last one taken. */
  lemma ActiveIsLast(cfg: Config, s: State, i: nat)
    requires Inv(cfg, s) && i < |s.tasks| && s.tasks[i].kind.Ordered? && Active(s.tasks[i].phase)
    ensures s.busy && s.tasks[i].place == s.taken - 1 < |s.accepted| && s.accepted[s.taken - 1] == i
  {
    assert TaskOk(s, i) && PlaceOk(s, s.tasks[i].place);
  }

  lemma CallShape(cfg: Config, s: State, e: Event)
    requires Enabled(cfg, s, e) && (e.Check? || e.Return? || e.Record?)
    ensures var t := Step(cfg, s, e);
      && |t.tasks| == |s.tasks| && t.accepted == s.accepted && t.taken == s.taken
      && t.finisher == s.finisher && t.drained == s.drained && t.gaveUp == s.gaveUp
      && (forall k :: 0 <= k < |s.tasks| && k != e.i ==> t.tasks[k] == s.tasks[k])
      && (Active(t.tasks[e.i].phase) || t.tasks[e.i].phase == Done)
      && t.tasks[e.i] == s.tasks[e.i].(phase := t.tasks[e.i].phase)
      && t.busy == if s.tasks[e.i].kind.Caller? || t.tasks[e.i].phase != Done then s.busy else false
  {}

  lemma CallRest(cfg: Config, s: State, t: State, i: nat)
    requires Inv(cfg, s) && i < |s.tasks| == |t.tasks| && t.accepted == s.accepted && t.taken == s.taken
    requires t.finisher == s.finisher && t.drained == s.drained && t.gaveUp == s.gaveUp && (t.busy ==> s.busy)
    requires forall k :: 0 <= k < |s.tasks| && k != i ==> t.tasks[k] == s.tasks[k]
    requires t.tasks[i] == s.tasks[i].(phase := t.tasks[i].phase)
    requires forall k :: 0 <= k < |t.tasks| ==> TaskOk(t, k)
    requires forall p :: 0 <= p < |t.accepted| ==> PlaceOk(t, p)
    requires forall p :: 0 <= p < |t.log| ==> LogOk(t, t.log[p])
    ensures Inv(cfg, t)
  {
    forall k | 0 <= k < |t.tasks|
      ensures t.tasks[k].returned == s.tasks[k].returned && t.tasks[k].kind == s.tasks[k].kind {}
  }

  lemma CallTasks(cfg: Config, s: State, t: State, i: nat)
    requires Inv(cfg, s) && i < |s.tasks| == |t.tasks|
    requires Active(s.tasks[i].phase) && t.accepted == s.accepted && t.taken == s.taken
    requires forall k :: 0 <= k < |s.tasks| && k != i ==> t.tasks[k] == s.tasks[k]
    requires Active(t.tasks[i].phase) || t.tasks[i].phase == Done
    requires t.tasks[i] == s.tasks[i].(phase := t.tasks[i].phase)
    requires t.busy == if s.tasks[i].kind.Caller? || t.tasks[i].phase != Done then s.busy else false
    ensures forall k :: 0 <= k < |t.tasks| ==> TaskOk(t, k)
    ensures forall p :: 0 <= p < |t.accepted| ==> PlaceOk(t, p)
  {
    if s.tasks[i].kind.Ordered? { ActiveIsLast(cfg, s, i); }
    forall k | 0 <= k < |t.tasks| ensures TaskOk(t, k) { assert TaskOk(s, k); }
    forall p | 0 <= p < |t.accepted| ensures PlaceOk(t, p) { assert PlaceOk(s, p); }
  }

  /** Changing an active task leaves what the log says true. */
  lemma LogStays(s: State, t: State, i: nat, entry: Entry)
    requires LogOk(s, entry) && i < |s.tasks| == |t.tasks| && Active(s.tasks[i].phase)
    requires forall k :: 0 <= k < |s.tasks| && k != i ==> t.tasks[k] == s.tasks[k]
    requires s.tasks[i].phase == Ready ==> t.tasks[i].phase in {Running, Done}
    requires s.tasks[i].phase == Running ==> t.tasks[i].phase in {Failing, Done}
    requires s.tasks[i].phase == Failing ==> t.tasks[i].phase == Done && t.failed
    requires (s.failed ==> t.failed) && t.finisher == s.finisher
    ensures LogOk(t, entry)
  {}

  lemma CallLog(cfg: Config, s: State, t: State, e: Event)
    requires Inv(cfg, s) && Enabled(cfg, s, e) && (e.Check? || e.Return? || e.Record?) && t == Step(cfg, s, e)
    ensures forall p :: 0 <= p < |t.log| ==> LogOk(t, t.log[p])
  {
    forall p | 0 <= p < |t.log| ensures LogOk(t, t.log[p]) {
      if p < |s.log| { LogStays(s, t, e.i, s.log[p]); }
    }
  }

  /** Steps inside mountedInstance.call. */
  lemma CallKeeps(cfg: Config, s: State, e: Event)
    requires Inv(cfg, s) && Enabled(cfg, s, e) && (e.Check? || e.Return? || e.Record?)
    ensures Inv(cfg, Step(cfg, s, e))
  {
    var t := Step(cfg, s, e);
    CallShape(cfg, s, e);
    CallTasks(cfg, s, t, e.i);
    CallLog(cfg, s, t, e);
    CallRest(cfg, s, t, e.i);
  }

  lemma FinisherKeeps(cfg: Config, s: State, e: Event)
    requires Inv(cfg, s) && Enabled(cfg, s, e) && (e.BeginFinish? || e.Drain? || e.GiveUp? || e.FinishInstance?)
    ensures Inv(cfg, Step(cfg, s, e))
  {
    var t := Step(cfg, s, e);
    forall k | 0 <= k < |t.tasks| ensures TaskOk(t, k) { assert TaskOk(s, k); }
    forall p | 0 <= p < |t.accepted| ensures PlaceOk(t, p) { assert PlaceOk(s, p); }
    forall p | 0 <= p < |t.log| ensures LogOk(t, t.log[p]) {
      if p < |s.log| { assert LogOk(s, s.log[p]); }
    }
  }

  lemma StepKeeps(cfg: Config, s: State, e: Event)
    requires Inv(cfg, s) && Enabled(cfg, s, e)
    ensures Inv(cfg, Step(cfg, s, e))
  {
    match e
    case Dispatch(kind) => DispatchKeeps(cfg, s, kind);
    case Accept(i) => AcceptKeeps(cfg, s, i);
    case Refuse(i) => DispatcherKeeps(cfg, s, e);
    case Cancel(i) => DispatcherKeeps(cfg, s, e);
    case Leave(i) => DispatcherKeeps(cfg, s, e);
    case Pick => PickKeeps(cfg, s);
    case Check(i) => CallKeeps(cfg, s, e);
    case Return(i, err) => CallKeeps(cfg, s, e);
    case Record(i) => CallKeeps(cfg, s, e);
    case BeginFinish => FinisherKeeps(cfg, s, e);
    case Drain => FinisherKeeps(cfg, s, e);
    case GiveUp => FinisherKeeps(cfg, s, e);
    case FinishInstance => FinisherKeeps(cfg, s, e);
  }

  // ---- The log -----------------------------------------------------------

  /** Different tasks, on the lane in the order in which they were accepted. */
  predicate Before(s: State, i: nat, j: nat) {
    && i < |s.tasks| && j < |s.tasks| && i != j
    && (s.tasks[i].kind.Ordered? && s.tasks[j].kind.Ordered? ==> s.tasks[i].place < s.tasks[j].place)
  }

  /** No handler can be checked while another one's error is not recorded yet: there are none on
      callers' goroutines, or there are only those and dispatches exclude each other. */
  predicate Safe(cfg: Config) { !cfg.caller || (cfg.serial && !cfg.lane) }

  /** Two entries of the log, the second later than the first. */
  predicate PairOk(cfg: Config, s: State, a: Entry, b: Entry) {
    && (a.Started? && b.Started? ==> Before(s, a.id, b.id))
    && (a.Recorded? ==> !b.Started?)
    && (a.Ended? && a.failed && b.Started? ==> !Safe(cfg))
    && (a.Finished? ==> b != Finished && (b.Started? ==> s.gaveUp))
  }

  ghost predicate LogOrdered(cfg: Config, s: State) {
    forall p, q :: 0 <= p < q < |s.log| ==> PairOk(cfg, s, s.log[p], s.log[q])
  }

  /** A task about to check the flag comes after every lane task that started, and under a safe
      configuration no other task's failure is unrecorded. */
  lemma OnlyOneActive(cfg: Config, s: State, i: nat, j: nat)
    requires Inv(cfg, s) && i < |s.tasks| && In(s, j, Ready) && s.tasks[i].phase in {Running, Failing, Done}
    ensures i != j
    ensures s.tasks[i].kind.Ordered? && s.tasks[j].kind.Ordered? ==> s.tasks[i].place < s.tasks[j].place
    ensures Safe(cfg) ==> s.tasks[i].phase != Failing
  {
    assert TaskOk(s, i) && TaskOk(s, j);
    if s.tasks[j].kind.Ordered? {
      ActiveIsLast(cfg, s, j);
      if s.tasks[i].kind.Ordered? {
        assert PlaceOk(s, s.tasks[i].place);
        if s.tasks[i].phase == Failing { ActiveIsLast(cfg, s, i); }
      }
    }
  }

  lemma DrainedIsIdle(cfg: Config, s: State, j: nat)
    requires Inv(cfg, s) && s.finisher == Over && s.drained && j < |s.tasks|
    ensures !Active(s.tasks[j].phase) && s.tasks[j].phase != Queued
  {
    assert TaskOk(s, j);
    if s.tasks[j].kind.Ordered? && s.tasks[j].phase !in {Submitting, Refused} { assert PlaceOk(s, s.tasks[j].place); }
  }

  /** What has to hold of the entry a step appends. */
  lemma Appends(cfg: Config, s: State, e: Event, p: nat)
    requires Inv(cfg, s) && Enabled(cfg, s, e) && p < |s.log|
    requires var t := Step(cfg, s, e); |t.log| > |s.log|
    ensures var t := Step(cfg, s, e); PairOk(cfg, t, s.log[p], t.log[|s.log|])
  {
    var a := s.log[p];
    assert LogOk(s, a);
    if e.Check? {
      var j := e.i;
      assert TaskOk(s, j);
      if a.Started? || a.Ended? { OnlyOneActive(cfg, s, a.id, j); }
      if s.finisher == Over && !s.gaveUp { DrainedIsIdle(cfg, s, j); }
    }
  }

  lemma PlaceStays(cfg: Config, s: State, e: Event, i: nat)
    requires Enabled(cfg, s, e) && i < |s.tasks| && s.tasks[i].phase != Submitting
    ensures var t := Step(cfg, s, e);
      i < |t.tasks| && t.tasks[i].kind == s.tasks[i].kind && t.tasks[i].place == s.tasks[i].place
  {
    if e.Check? || e.Return? || e.Record? { CallShape(cfg, s, e); }
  }

  lemma BeforeStays(cfg: Config, s: State, e: Event, i: nat, j: nat)
    requires Inv(cfg, s) && Enabled(cfg, s, e) && Before(s, i, j)
    requires s.tasks[i].phase in {Running, Failing, Done} && s.tasks[j].phase in {Running, Failing, Done}
    ensures Before(Step(cfg, s, e), i, j)
  {
    PlaceStays(cfg, s, e, i);
    PlaceStays(cfg, s, e, j);
  }

  lemma GaveUpStays(cfg: Config, s: State, e: Event)
    requires Enabled(cfg, s, e)
    ensures s.gaveUp ==> Step(cfg, s, e).gaveUp
    ensures Step(cfg, s, e).log == s.log ||
      (|Step(cfg, s, e).log| == |s.log| + 1 && Step(cfg, s, e).log[..|s.log|] == s.log)
  {}

  lemma PairStays(cfg: Config, s: State, e: Event, a: Entry, b: Entry)
    requires Inv(cfg, s) && Enabled(cfg, s, e) && PairOk(cfg, s, a, b) && LogOk(s, a) && LogOk(s, b)
    ensures PairOk(cfg, Step(cfg, s, e), a, b)
  {
    GaveUpStays(cfg, s, e);
    if a.Started? && b.Started? { BeforeStays(cfg, s, e, a.id, b.id); }
  }

  lemma OrderKept(cfg: Config, s: State, e: Event)
    requires Inv(cfg, s) && LogOrdered(cfg, s) && Enabled(cfg, s, e)
    ensures LogOrdered(cfg, Step(cfg, s, e))
  {
    var t := Step(cfg, s, e);
    GaveUpStays(cfg, s, e);
    forall p, q | 0 <= p < q < |t.log| ensures PairOk(cfg, t, t.log[p], t.log[q]) {
      assert t.log[p] == s.log[p];
      if q < |s.log| {
        assert t.log[q] == s.log[q];
        PairStays(cfg, s, e, s.log[p], s.log[q]);
      } else {
        Appends(cfg, s, e, p);
      }
    }
  }

  // ---- Results -----------------------------------------------------------

  ghost predicate Reaches(cfg: Config, s: State, events: seq<Event>, t: State)
    decreases |events|
  {
    if events == [] then s == t
    else Enabled(cfg, s, events[0]) && Reaches(cfg, Step(cfg, s, events[0]), events[1..], t)
  }

  lemma {:induction false} RunKeeps(cfg: Config, s: State, events: seq<Event>, t: State)
    requires Inv(cfg, s) && LogOrdered(cfg, s) && Reaches(cfg, s, events, t)
    ensures Inv(cfg, t) && LogOrdered(cfg, t)
    decreases |events|
  {
    if events != [] {
      StepKeeps(cfg, s, events[0]);
      OrderKept(cfg, s, events[0]);
      RunKeeps(cfg, Step(cfg, s, events[0]), events[1..], t);
    }
  }

  /** Lane handlers run in the order in which their tasks were accepted, and every handler at most once per dispatch. */
  lemma LaneOrder(cfg: Config, events: seq<Event>, s: State, p: nat, q: nat)
    requires Reaches(cfg, Start(), events, s) && p < q < |s.log| && s.log[p].Started? && s.log[q].Started?
    ensures Before(s, s.log[p].id, s.log[q].id)
  {
    RunKeeps(cfg, Start(), events, s);
    assert PairOk(cfg, s, s.log[p], s.log[q]);
  }

  /** Once a failure is recorded no handler of the instance starts, whatever its executor. */
  lemma NothingAfterRecord(cfg: Config, events: seq<Event>, s: State, p: nat, q: nat)
    requires Reaches(cfg, Start(), events, s) && p < q < |s.log| && s.log[p].Recorded?
    ensures !s.log[q].Started?
  {
    RunKeeps(cfg, Start(), events, s);
    assert PairOk(cfg, s, s.log[p], s.log[q]);
  }

  /** A before-commit dispatch whose wait was not cut short returns only after every task accepted
      before its own is over, run or skipped. */
  lemma BarrierWaits(cfg: Config, events: seq<Event>, s: State, i: nat, j: nat)
    requires Reaches(cfg, Start(), events, s) && i < |s.tasks| && s.tasks[i].returned && !s.tasks[i].canceled
    requires s.tasks[i].kind.Ordered? && s.tasks[i].kind.barrier && s.tasks[i].phase != Refused
    requires j < |s.tasks| && s.tasks[j].kind.Ordered?
    requires s.tasks[j].phase !in {Submitting, Refused} && s.tasks[j].place <= s.tasks[i].place
    ensures s.tasks[i].phase == Done && s.tasks[j].phase == Done
  {
    RunKeeps(cfg, Start(), events, s);
    assert TaskOk(s, i) && TaskOk(s, j);
    assert PlaceOk(s, s.tasks[i].place) && PlaceOk(s, s.tasks[j].place);
  }

  /** Finish finishes the instance at most once and, unless its context ended, after the lane is
      drained: by then every accepted task is over and no handler starts any more. */
  lemma FinishDrains(cfg: Config, events: seq<Event>, s: State, p: nat)
    requires Reaches(cfg, Start(), events, s) && p < |s.log| && s.log[p] == Finished
    ensures forall q :: 0 <= q < |s.log| && q != p ==> s.log[q] != Finished
    ensures !s.gaveUp ==> forall q :: p < q < |s.log| ==> !s.log[q].Started?
    ensures !s.gaveUp ==> forall i :: 0 <= i < |s.tasks| ==> s.tasks[i].phase in {Done, Refused} && s.tasks[i].returned
  {
    RunKeeps(cfg, Start(), events, s);
    assert LogOk(s, s.log[p]);
    forall q | 0 <= q < |s.log| && q != p ensures s.log[q] != Finished && (!s.gaveUp && p < q ==> !s.log[q].Started?) {
      if q < p { assert PairOk(cfg, s, s.log[q], s.log[p]); } else { assert PairOk(cfg, s, s.log[p], s.log[q]); }
    }
    if !s.gaveUp {
      forall i | 0 <= i < |s.tasks| ensures s.tasks[i].phase in {Done, Refused} {
        DrainedIsIdle(cfg, s, i);
        assert TaskOk(s, i);
      }
    }
  }

  // ---- When failing stops everything ------------------------------------

  /** A handler starts although another one returned an error before. */
  ghost predicate RunsOn(log: seq<Entry>) {
    exists p, q :: 0 <= p < q < |log| && log[p].Ended? && log[p].failed && log[q].Started?
  }

  ghost predicate Reachable(cfg: Config, s: State) {
    exists events :: Reaches(cfg, Start(), events, s)
  }

  lemma {:induction false} RunExtends(cfg: Config, s: State, events: seq<Event>, t: State, e: Event)
    requires Reaches(cfg, s, events, t) && Enabled(cfg, t, e)
    ensures Reaches(cfg, s, events + [e], Step(cfg, t, e))
    decreases |events|
  {
    if events == [] {
      assert Reaches(cfg, Step(cfg, t, e), [], Step(cfg, t, e));
      assert ([] + [e])[1..] == [];
    } else {
      RunExtends(cfg, Step(cfg, s, events[0]), events[1..], t, e);
      assert (events + [e])[1..] == events[1..] + [e];
    }
  }

  lemma Take(cfg: Config, s: State, e: Event, t: State)
    requires Reachable(cfg, s) && Enabled(cfg, s, e) && t == Step(cfg, s, e)
    ensures Reachable(cfg, t)
  {
    var events :| Reaches(cfg, Start(), events, s);
    RunExtends(cfg, Start(), events, s, e);
  }

  function Alone(tasks: seq<Task>, log: seq<Entry>): State { Start().(tasks := tasks, log := log) }

  function At(phase: Phase): Task { Task(Caller, phase, 0, false, false) }

  /** Two caller handlers on overlapping dispatches: the second is checked before the first one's
      error is recorded. */
  lemma CallersOverlap(cfg: Config)
    requires cfg.caller && !cfg.serial
    ensures Reachable(cfg, Alone([At(Failing), At(Running)], [Started(0), Ended(0, true), Started(1)]))
  {
    assert Reaches(cfg, Start(), [], Start());
    Take(cfg, Start(), Dispatch(Caller), Alone([At(Ready)], []));
    Take(cfg, Alone([At(Ready)], []), Dispatch(Caller), Alone([At(Ready), At(Ready)], []));
    Take(cfg, Alone([At(Ready), At(Ready)], []), Check(0), Alone([At(Running), At(Ready)], [Started(0)]));
    Take(cfg, Alone([At(Running), At(Ready)], [Started(0)]), Return(0, true),
      Alone([At(Failing), At(Ready)], [Started(0), Ended(0, true)]));
    Take(cfg, Alone([At(Failing), At(Ready)], [Started(0), Ended(0, true)]), Check(1),
      Alone([At(Failing), At(Running)], [Started(0), Ended(0, true), Started(1)]));
  }

  function Lanes(first: Phase, more: seq<Task>, busy: bool, log: seq<Entry>): State {
    Alone([Task(Ordered(false, Drop), first, 0, true, false)] + more, log).(accepted := [0],
      taken := if busy then 1 else 0, busy := busy)
  }

  lemma WorkerFails(cfg: Config)
    requires Reachable(cfg, Lanes(Queued, [At(Ready)], false, []))
    ensures Reachable(cfg, Lanes(Failing, [At(Running)], true, [Started(0), Ended(0, true), Started(1)]))
  {
    Take(cfg, Lanes(Queued, [At(Ready)], false, []), Pick, Lanes(Ready, [At(Ready)], true, []));
    Take(cfg, Lanes(Ready, [At(Ready)], true, []), Check(0), Lanes(Running, [At(Ready)], true, [Started(0)]));
    Take(cfg, Lanes(Running, [At(Ready)], true, [Started(0)]), Return(0, true),
      Lanes(Failing, [At(Ready)], true, [Started(0), Ended(0, true)]));
    Take(cfg, Lanes(Failing, [At(Ready)], true, [Started(0), Ended(0, true)]), Check(1),
      Lanes(Failing, [At(Running)], true, [Started(0), Ended(0, true), Started(1)]));
  }

  /** A caller handler beside the lane's worker. */
  lemma CallerPassesWorker(cfg: Config)
    requires cfg.caller && cfg.lane && cfg.capacity > 0
    ensures Reachable(cfg, Lanes(Failing, [At(Running)], true, [Started(0), Ended(0, true), Started(1)]))
  {
    var lane := Task(Ordered(false, Drop), Submitting, 0, false, false);
    assert Reaches(cfg, Start(), [], Start());
    Take(cfg, Start(), Dispatch(Ordered(false, Drop)), Alone([lane], []));
    Take(cfg, Alone([lane], []), Accept(0), Alone([lane.(phase := Queued)], []).(accepted := [0]));
    Take(cfg, Alone([lane.(phase := Queued)], []).(accepted := [0]), Leave(0), Lanes(Queued, [], false, []));
    Take(cfg, Lanes(Queued, [], false, []), Dispatch(Caller), Lanes(Queued, [At(Ready)], false, []));
    WorkerFails(cfg);
  }

  /** The instance's handlers stop for good at the first failure, under every schedule, exactly when
      it has no handler on callers' goroutines, or has only those and dispatches exclude each other. */
  lemma FailureStopsAll(cfg: Config)
    requires cfg.capacity > 0
    ensures (forall s :: Reachable(cfg, s) ==> !RunsOn(s.log)) <==> Safe(cfg)
  {
    if Safe(cfg) {
      forall s | Reachable(cfg, s) ensures !RunsOn(s.log) {
        var events :| Reaches(cfg, Start(), events, s);
        RunKeeps(cfg, Start(), events, s);
        forall p, q | 0 <= p < q < |s.log| ensures !(s.log[p].Ended? && s.log[p].failed && s.log[q].Started?) {
          assert PairOk(cfg, s, s.log[p], s.log[q]);
        }
      }
    } else {
      var log := [Started(0), Ended(0, true), Started(1)];
      assert log[1].failed && log[2].Started?;
      var s;
      if cfg.serial {
        CallerPassesWorker(cfg);
        s := Lanes(Failing, [At(Running)], true, log);
      } else {
        CallersOverlap(cfg);
        s := Alone([At(Failing), At(Running)], log);
      }
      assert Reachable(cfg, s) && RunsOn(s.log);
    }
  }

  // ---- Progress ----------------------------------------------------------

  /** What a dispatch that does not wait in vain goes through until it has returned. */
  function ToDo(t: Task): int {
    (match t.phase
     case Submitting => 6 case Queued => 5 case Ready => 4 case Running => 3 case Failing => 2
     case Done => 0 case Refused => 0) + if t.returned then 0 else 1
  }

  /** A step that brings every dispatch nearer to its return: a handler is checked, returns, or has its failure
      recorded; then the worker takes the next task; then a waiting dispatch is accepted; then one returns. */
  ghost predicate Helps(cfg: Config, s: State, e: Event, t: State) {
    && Enabled(cfg, s, e) && t == Step(cfg, s, e)
    && |t.tasks| == |s.tasks| && SumOf(t.tasks, ToDo) < SumOf(s.tasks, ToDo)
    && t.finisher == s.finisher && t.gaveUp == s.gaveUp
  }

  lemma OneNearer(s: State, t: State, i: nat)
    requires i < |s.tasks| == |t.tasks| && ToDo(t.tasks[i]) < ToDo(s.tasks[i])
    requires forall k :: 0 <= k < |s.tasks| && k != i ==> t.tasks[k] == s.tasks[k]
    ensures SumOf(t.tasks, ToDo) < SumOf(s.tasks, ToDo)
  {
    assert t.tasks == s.tasks[i := t.tasks[i]];
    Update(s.tasks, i, t.tasks[i], ToDo);
  }

  lemma CallGoesOn(cfg: Config, s: State, e: Event)
    requires Enabled(cfg, s, e) && (e.Check? || e.Record? || (e.Return? && !e.err))
    ensures var (p, q) := (s.tasks[e.i].phase, Step(cfg, s, e).tasks[e.i].phase);
      if p == Ready then q in {Running, Done} else q == Done
  {}

  lemma CallHelps(cfg: Config, s: State, e: Event)
    requires Enabled(cfg, s, e) && (e.Check? || e.Record? || (e.Return? && !e.err))
    ensures Helps(cfg, s, e, Step(cfg, s, e))
  {
    CallShape(cfg, s, e);
    CallGoesOn(cfg, s, e);
    OneNearer(s, Step(cfg, s, e), e.i);
  }

  lemma ActiveHelps(cfg: Config, s: State, i: nat) returns (e: Event)
    requires i < |s.tasks| && Active(s.tasks[i].phase)
    ensures Enabled(cfg, s, e) && Helps(cfg, s, e, Step(cfg, s, e))
  {
    e := match s.tasks[i].phase case Ready => Check(i) case Running => Return(i, false) case _ => Record(i);
    CallHelps(cfg, s, e);
  }

  lemma PickHelps(cfg: Config, s: State)
    requires Inv(cfg, s) && !s.busy && s.taken < |s.accepted|
    ensures Enabled(cfg, s, Pick) && Helps(cfg, s, Pick, Step(cfg, s, Pick))
  {
    assert PlaceOk(s, s.taken);
    OneNearer(s, Step(cfg, s, Pick), s.accepted[s.taken]);
  }

  lemma DispatcherHelps(cfg: Config, s: State, i: nat) returns (e: Event)
    requires Inv(cfg, s) && cfg.capacity > 0 && s.taken == |s.accepted| && !s.busy && i < |s.tasks|
    requires s.tasks[i].phase == Submitting || (s.tasks[i].phase in {Done, Refused} && !s.tasks[i].returned)
    ensures Enabled(cfg, s, e) && Helps(cfg, s, e, Step(cfg, s, e))
  {
    assert TaskOk(s, i);
    e := if s.tasks[i].phase == Submitting then Accept(i) else Leave(i);
    OneNearer(s, Step(cfg, s, e), i);
  }

  /** With nothing active, queued or taken, the only phases left are those before and behind the lane. */
  lemma LaneIsIdle(cfg: Config, s: State, i: nat)
    requires Inv(cfg, s) && s.taken == |s.accepted| && i < |s.tasks| && !Active(s.tasks[i].phase)
    ensures s.tasks[i].phase in {Submitting, Done, Refused}
  {
    assert TaskOk(s, i);
    assert s.tasks[i].phase == Queued ==> PlaceOk(s, s.tasks[i].place);
  }

  ghost predicate Quiet(s: State) {
    forall i :: 0 <= i < |s.tasks| ==> s.tasks[i].returned && s.tasks[i].phase in {Done, Refused}
  }

  lemma SomethingHelps(cfg: Config, s: State) returns (e: Event)
    requires Inv(cfg, s) && cfg.capacity > 0 && !Quiet(s)
    ensures Enabled(cfg, s, e) && Helps(cfg, s, e, Step(cfg, s, e))
  {
    if i :| 0 <= i < |s.tasks| && Active(s.tasks[i].phase) {
      e := ActiveHelps(cfg, s, i);
    } else {
      assert s.busy ==> PlaceOk(s, s.taken - 1);
      if s.taken < |s.accepted| {
        e := Pick;
        PickHelps(cfg, s);
      } else {
        var i :| 0 <= i < |s.tasks| && !(s.tasks[i].returned && s.tasks[i].phase in {Done, Refused});
        LaneIsIdle(cfg, s, i);
        assert TaskOk(s, i);
        e := DispatcherHelps(cfg, s, i);
      }
    }
  }

  lemma RunGoesOn(cfg: Config, s: State, e: Event, events: seq<Event>, t: State)
    requires Enabled(cfg, s, e) && Reaches(cfg, Step(cfg, s, e), events, t)
    ensures Reaches(cfg, s, [e] + events, t)
  {
    assert ([e] + events)[1..] == events;
  }

  /** No dispatch waits in vain: from every state there is a run after which all have returned, their tasks over. */
  lemma {:induction false} EveryDispatchReturns(cfg: Config, s: State) returns (events: seq<Event>, t: State)
    requires Inv(cfg, s) && cfg.capacity > 0
    ensures Reaches(cfg, s, events, t) && Inv(cfg, t) && Quiet(t)
    ensures |t.tasks| == |s.tasks| && t.finisher == s.finisher && t.gaveUp == s.gaveUp
    decreases SumOf(s.tasks, ToDo)
  {
    if Quiet(s) {
      events, t := [], s;
    } else {
      var e := SomethingHelps(cfg, s);
      var m := Step(cfg, s, e);
      StepKeeps(cfg, s, e);
      NonNegative(s.tasks, ToDo);
      NonNegative(m.tasks, ToDo);
      events, t := EveryDispatchReturns(cfg, m);
      RunGoesOn(cfg, s, e, events, t);
      events := [e] + events;
    }
  }

  lemma QuietIsDrained(cfg: Config, s: State)
    requires Inv(cfg, s) && Quiet(s)
    ensures AllReturned(s) && s.taken == |s.accepted| && !s.busy
  {
    assert s.taken < |s.accepted| ==> PlaceOk(s, s.taken);
    assert s.busy ==> PlaceOk(s, s.taken - 1);
  }

  const CLOSING: seq<Event> := [BeginFinish] + ([Drain] + ([FinishInstance] + []))

  /** Finish can always complete: once all dispatches have returned it begins, finds the lane drained, and finishes
      the instance. */
  lemma FinishCompletes(cfg: Config, s: State)
    requires Inv(cfg, s) && Quiet(s) && s.finisher == NotYet
    ensures Reaches(cfg, s, CLOSING, s.(finisher := Over, drained := true, log := s.log + [Finished]))
  {
    QuietIsDrained(cfg, s);
    var begun := Step(cfg, s, BeginFinish);
    var drained := Step(cfg, begun, Drain);
    var over := Step(cfg, drained, FinishInstance);
    RunGoesOn(cfg, drained, FinishInstance, [], over);
    RunGoesOn(cfg, begun, Drain, [FinishInstance] + [], over);
    RunGoesOn(cfg, s, BeginFinish, [Drain] + ([FinishInstance] + []), over);
  }

  /** A Finish that waits, and only such a one, gives up when its context ends, and then finishes the instance. */
  lemma FinishGivesUp(cfg: Config, s: State)
    ensures Enabled(cfg, s, GiveUp) <==> s.finisher == Waiting
    ensures s.finisher == Waiting ==>
      Reaches(cfg, s, [GiveUp] + ([FinishInstance] + []),
        s.(gaveUp := true, finisher := Over, log := s.log + [Finished]))
  {
    if s.finisher == Waiting {
      var m := Step(cfg, s, GiveUp);
      var over := Step(cfg, m, FinishInstance);
      RunGoesOn(cfg, m, FinishInstance, [], over);
      RunGoesOn(cfg, s, GiveUp, [FinishInstance] + [], over);
    }
  }

  /** A handler that returned an error has its failure recorded next: the instance has failed and the log says so. */
  lemma FailureIsRecorded(cfg: Config, s: State, i: nat)
    requires In(s, i, Running)
    ensures Enabled(cfg, s, Return(i, true))
    ensures var m := Step(cfg, s, Return(i, true));
      && m.log == s.log + [Ended(i, true)] && m.failed == s.failed
      && Enabled(cfg, m, Record(i))
      && Step(cfg, m, Record(i)).failed && Step(cfg, m, Record(i)).log == m.log + [Recorded(i)]
  {}

  /** At a full lane a dispatch is refused at once, unless its policy makes it wait; that wait may be cut short, and
      then the dispatch has returned and its task is refused. */
  lemma FullLane(cfg: Config, s: State, i: nat)
    requires Inv(cfg, s) && In(s, i, Submitting)
    ensures |s.accepted| - s.taken < cfg.capacity <==> Enabled(cfg, s, Accept(i))
    ensures Enabled(cfg, s, Refuse(i)) <==>
      |s.accepted| - s.taken >= cfg.capacity && s.tasks[i].kind.Ordered? && s.tasks[i].kind.overflow != Block
    ensures Enabled(cfg, s, Refuse(i)) ==> Step(cfg, s, Refuse(i)).tasks[i] == s.tasks[i].(phase := Refused)
    ensures Enabled(cfg, s, Cancel(i)) <==> s.tasks[i].kind.Ordered? && s.tasks[i].kind.overflow == Block
    ensures Enabled(cfg, s, Cancel(i)) ==>
      Step(cfg, s, Cancel(i)).tasks[i] == s.tasks[i].(phase := Refused, returned := true, canceled := true)
  {
    assert TaskOk(s, i);
  }

  lemma BarrierMayBeCutShort(cfg: Config, s: State, i: nat)
    requires i < |s.tasks| && !s.tasks[i].returned && s.tasks[i].kind.Ordered? && s.tasks[i].phase != Submitting
    ensures Enabled(cfg, s, Cancel(i)) <==> s.tasks[i].kind.barrier
    ensures s.tasks[i].kind.barrier ==>
      Step(cfg, s, Cancel(i)).tasks[i] == s.tasks[i].(returned := true, canceled := true)
    ensures !s.tasks[i].kind.barrier && s.tasks[i].phase != Submitting ==> Enabled(cfg, s, Leave(i))
    ensures s.tasks[i].kind.barrier && s.tasks[i].phase in {Queued, Ready, Running, Failing} ==>
      !Enabled(cfg, s, Leave(i))
  {}
}

/** An instance and its lane as objects, with the worker's loop running undisturbed. */
module LaneImpl {
  import opened Lane
  import opened Prelude

  datatype Submission = Taken | Dropped | Full | MustWait

  /** The tasks whose handlers run: all of them, or up to and including the first that fails. */
  function UpToFailure(fails: nat -> bool, tasks: seq<nat>): (r: seq<nat>) {
    if tasks == [] then []
    else if fails(tasks[0]) then [tasks[0]]
    else [tasks[0]] + UpToFailure(fails, tasks[1..])
  }

  lemma {:induction false} UpToFailureIsPrefix(fails: nat -> bool, tasks: seq<nat>)
    ensures var r := UpToFailure(fails, tasks);
      && r <= tasks
      && (forall i :: 0 <= i < |r| - 1 ==> !fails(r[i]))
      && (r != tasks ==> r != [] && fails(r[|r| - 1]))
  {
    if tasks != [] && !fails(tasks[0]) {
      UpToFailureIsPrefix(fails, tasks[1..]);
      assert tasks == [tasks[0]] + tasks[1..];
    }
  }

  /** How many of the queued tasks the worker handles before the context ends. */
  function Turns(ended: Option<nat>, queued: nat): (n: nat)
    ensures n <= queued
  {
    if ended.None? || ended.value > queued then queued else ended.value
  }

  lemma {:induction false} UpToFailureGrows(fails: nat -> bool, tasks: seq<nat>, task: nat)
    ensures UpToFailure(fails, tasks + [task]) ==
      if exists i :: 0 <= i < |tasks| && fails(tasks[i]) then UpToFailure(fails, tasks)
      else UpToFailure(fails, tasks) + [task]
  {
    if tasks == [] {
      assert [task][1..] == [] && [] + [task] == [task];
    } else if !fails(tasks[0]) {
      UpToFailureGrows(fails, tasks[1..], task);
      assert (tasks + [task])[1..] == tasks[1..] + [task];
      assert (exists i :: 0 <= i < |tasks| && fails(tasks[i])) <==>
        exists i :: 0 <= i < |tasks[1..]| && fails(tasks[1..][i]) by {
        if i :| 0 <= i < |tasks| && fails(tasks[i]) { assert tasks[1..][i - 1] == tasks[i]; }
      }
      assert [tasks[0]] + (UpToFailure(fails, tasks[1..]) + [task]) ==
        ([tasks[0]] + UpToFailure(fails, tasks[1..])) + [task];
    }
  }

  predicate AnyFails(fails: nat -> bool, tasks: seq<nat>) { exists i :: 0 <= i < |tasks| && fails(tasks[i]) }

  lemma AnyFailsGrows(fails: nat -> bool, tasks: seq<nat>, task: nat)
    ensures AnyFails(fails, tasks + [task]) <==> AnyFails(fails, tasks) || fails(task)
  {
    var more := tasks + [task];
    assert more[|tasks|] == task && forall i :: 0 <= i < |tasks| ==> more[i] == tasks[i];
    if i :| 0 <= i < |tasks| && fails(tasks[i]) { assert fails(more[i]); }
  }

  lemma OneMoreTurn(fails: nat -> bool, was: seq<nat>, n: nat)
    requires n < |was|
    ensures AnyFails(fails, was[..n + 1]) <==> AnyFails(fails, was[..n]) || fails(was[n])
    ensures UpToFailure(fails, was[..n + 1]) ==
      if AnyFails(fails, was[..n]) then UpToFailure(fails, was[..n]) else UpToFailure(fails, was[..n]) + [was[n]]
    ensures was[n..][0] == was[n] && was[n..][1..] == was[n + 1..]
  {
    assert was[..n + 1] == was[..n] + [was[n]];
    UpToFailureGrows(fails, was[..n], was[n]);
    AnyFailsGrows(fails, was[..n], was[n]);
  }

  /** What the worker and the handlers have done: the failed flag, the handlers that ran, the errors kept. */
  datatype Work = Work(failed: bool, ran: seq<nat>, errs: seq<nat>)

  /** One task: skipped by a failed instance, otherwise run. */
  function AfterTask(fails: nat -> bool, w: Work, task: nat): Work {
    if w.failed then w else Work(fails(task), w.ran + [task], if fails(task) then w.errs + [task] else w.errs)
  }

  /** The tasks run up to the first failure, whose error is kept. */
  predicate Worked(fails: nat -> bool, tasks: seq<nat>, before: Work, after: Work) {
    && after.ran == before.ran + (if before.failed then [] else UpToFailure(fails, tasks))
    && (after.failed <==> before.failed || AnyFails(fails, tasks))
    && (!before.failed && after.failed ==> after.ran != [] && after.errs == before.errs + [after.ran[|after.ran| - 1]])
    && (before.failed || !after.failed ==> after.errs == before.errs)
  }

  lemma Regroup(a: seq<nat>, b: seq<nat>, x: nat)
    ensures a + b + [x] == a + (b + [x])
  {}

  lemma WorkedMore(fails: nat -> bool, was: seq<nat>, n: nat, before: Work, after: Work)
    requires n < |was| && Worked(fails, was[..n], before, after)
    ensures Worked(fails, was[..n + 1], before, AfterTask(fails, after, was[n]))
    ensures was[n..][0] == was[n] && was[n..][1..] == was[n + 1..]
  {
    OneMoreTurn(fails, was, n);
    Regroup(before.ran, UpToFailure(fails, was[..n]), was[n]);
  }

  class Instance {
    const capacity: nat
    const fails: nat -> bool   // whether a task's handler returns an error
    var queue: seq<nat>
    var closed: bool
    var failed: bool
    var ran: seq<nat>
    var errs: seq<nat>         // the tasks whose errors the lane joined
    var finishes: nat

    constructor (capacity: int, fails: nat -> bool)
      ensures this.capacity == (if capacity <= 0 then 128 else capacity) && this.fails == fails
      ensures queue == [] && ran == [] && errs == [] && !closed && !failed && finishes == 0
    {
      this.capacity := if capacity <= 0 then 128 else capacity;
      this.fails := fails;
      queue, closed, failed, ran, errs, finishes := [], false, false, [], [], 0;
    }

    /** submit, for the channel as it is now; a blocking submission to a full lane has to wait. */
    method Submit(task: nat, overflow: Overflow) returns (r: Submission)
      requires !closed
      modifies `queue
      ensures r == Taken <==> |old(queue)| < capacity
      ensures r != Taken ==> r == match overflow case Block => MustWait case Drop => Dropped case FailRequest => Full
      ensures queue == if r == Taken then old(queue) + [task] else old(queue)
    {
      if |queue| < capacity {
        queue := queue + [task];
        return Taken;
      }
      r := match overflow case Block => MustWait case Drop => Dropped case FailRequest => Full;
    }

    /** mountedInstance.call */
    method Call(task: nat) returns (err: bool)
      modifies `failed, `ran
      ensures old(failed) ==> !err && failed && ran == old(ran)
      ensures !old(failed) ==> err == failed == fails(task) && ran == old(ran) + [task]
    {
      if failed {
        return false;
      }
      ran := ran + [task];
      err := fails(task);
      if err {
        failed := true;
      }
    }

    function Progress(): Work
      reads this
    {
      Work(failed, ran, errs)
    }

    /** The body of the worker's loop. */
    method Turn()
      requires queue != []
      modifies `queue, `failed, `ran, `errs
      ensures queue == old(queue)[1..] && Progress() == AfterTask(fails, old(Progress()), old(queue)[0])
    {
      var task := queue[0];
      queue := queue[1..];
      var err := Call(task);
      if err {
        errs := errs + [task];
      }
    }

    /** The worker's loop after at most so many turns: that much of the channel is gone, and the handlers that ran
        are those up to the first failure, whose error is kept. */
    method Run(turns: nat)
      modifies `queue, `failed, `ran, `errs
      ensures var n := if turns < |old(queue)| then turns else |old(queue)|;
        queue == old(queue)[n..] && Worked(fails, old(queue)[..n], old(Progress()), Progress())
    {
      ghost var (was, before) := (queue, Progress());
      var n := 0;
      while queue != [] && n < turns
        invariant n <= |was| && n <= turns && queue == was[n..] && Worked(fails, was[..n], before, Progress())
        decreases |queue|
      {
        WorkedMore(fails, was, n, before, Progress());
        Turn();
        n := n + 1;
      }
    }

    /** Scope.Finish: the lane is closed and drained, then the instance finished, all of it once. If the context
        ends after so many turns of the worker, the instance is finished with the rest still queued. */
    method Finish(ended: Option<nat>) returns (drained: bool)
      modifies this
      ensures closed
      ensures old(closed) ==> unchanged(this)
      ensures !old(closed) ==> finishes == old(finishes) + 1 && (drained <==> queue == [])
      ensures !old(closed) ==> (drained <==> ended.None? || ended.value >= |old(queue)|)
      ensures !old(closed) && !drained ==> queue == old(queue)[ended.value..]
      ensures !old(closed) ==> queue == old(queue)[Turns(ended, |old(queue)|)..]
      ensures !old(closed) ==> Worked(fails, old(queue)[..Turns(ended, |old(queue)|)], old(Progress()), Progress())
    {
      drained := true;
      if !closed {
        closed := true;
        Run(Turns(ended, |queue|));
        drained := queue == [];
        finishes := finishes + 1;
      }
    }
  }
}
