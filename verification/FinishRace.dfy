/** The end of a response body racing Exchange.Complete, one atomic operation per step.
    The closed flag makes the end of the round trip be reported once in every interleaving;
    whether it can come after RequestFinished depends on where the body's end stands when Complete is called. */
module FinishRace {

  datatype Finisher = Before | Won | Reported | Out                     // finishUpstream
  datatype Completer = Fresh | Holding | Winner | Ending | Complete     // Complete

  datatype State = State(finisher: Finisher, completer: Completer, current: bool, closed: bool,
                         reports: nat, requestFinished: bool, late: bool)

  const START := State(Before, Fresh, true, false, 0, false, false)

  datatype Event = Finish | Advance

  /** One atomic operation of the body's finisher: compare-and-swap, report, clear current. */
  function StepFinisher(s: State): State {
    match s.finisher
    case Before => if s.closed then s.(finisher := Reported) else s.(finisher := Won, closed := true)
    case Won => s.(finisher := Reported, reports := s.reports + 1, late := s.late || s.requestFinished)
    case Reported => s.(finisher := Out, current := false)
    case Out => s
  }

  /** One atomic operation of Complete: take current, compare-and-swap, report, RequestFinished. */
  function StepCompleter(s: State): State {
    match s.completer
    case Fresh => s.(completer := if s.current then Holding else Ending, current := false)
    case Holding => if s.closed then s.(completer := Ending) else s.(completer := Winner, closed := true)
    case Winner => s.(completer := Ending, reports := s.reports + 1, late := s.late || s.requestFinished)
    case Ending => s.(completer := Complete, requestFinished := true)
    case Complete => s
  }

  function Step(s: State, e: Event): State { if e == Finish then StepFinisher(s) else StepCompleter(s) }

  function Run(s: State, events: seq<Event>): State
    decreases |events|
  {
    if events == [] then s else Run(Step(s, events[0]), events[1..])
  }

  predicate Inv(s: State) {
    && (s.closed <==> s.finisher == Won || s.completer == Winner || s.reports == 1)
    && s.reports <= 1
    && (s.finisher == Won || s.completer == Winner ==> s.reports == 0) && !(s.finisher == Won && s.completer == Winner)
    && (s.completer in {Ending, Complete} ==> s.closed)
    && (s.finisher in {Reported, Out} ==> s.closed)
    && (s.current <==> s.completer == Fresh && s.finisher != Out)
    && (s.requestFinished <==> s.completer == Complete)
    && (s.late ==> s.requestFinished && s.finisher in {Reported, Out})
  }

  lemma {:induction false} RunKeeps(s: State, events: seq<Event>)
    requires Inv(s)
    ensures Inv(Run(s, events))
    decreases |events|
  {
    if events != [] { RunKeeps(Step(s, events[0]), events[1..]); }
  }

  /** Operations either side still has before it at most. */
  function Left(s: State, e: Event): nat {
    if e == Finish then match s.finisher case Before => 3 case Won => 2 case Reported => 1 case Out => 0
    else match s.completer case Fresh => 4 case Holding => 3 case Winner => 2 case Ending => 1 case Complete => 0
  }

  function Times(events: seq<Event>, e: Event): nat
    decreases |events|
  {
    if events == [] then 0 else Times(events[1..], e) + if events[0] == e then 1 else 0
  }

  lemma StepAdvances(s: State, e: Event, side: Event)
    ensures Left(Step(s, e), side) <= Left(s, side)
    ensures e == side && Left(s, side) > 0 ==> Left(Step(s, e), side) < Left(s, side)
  {}

  /** Every operation brings its side nearer to its end and leaves the other side where it is. */
  lemma {:induction false} RunAdvances(s: State, events: seq<Event>, e: Event)
    ensures Left(Run(s, events), e) <= if Times(events, e) < Left(s, e) then Left(s, e) - Times(events, e) else 0
    decreases |events|
  {
    if events != [] {
      StepAdvances(s, events[0], e);
      RunAdvances(Step(s, events[0]), events[1..], e);
    }
  }

  /** However the two interleave, the round trip's end is reported at most once; and when the finisher has made three
      operations and Complete four, both are through, it has been reported exactly once, the request has finished and
      no round trip is current. */
  lemma ReportedOnce(events: seq<Event>)
    ensures var t := Run(START, events);
      && t.reports <= 1
      && (Times(events, Finish) >= 3 ==> t.finisher == Out && t.closed)
      && (Times(events, Advance) >= 4 ==> t.completer == Complete && t.closed && t.requestFinished && !t.current)
      && (Times(events, Finish) >= 3 && Times(events, Advance) >= 4 ==> t.reports == 1)
  {
    RunKeeps(START, events);
    RunAdvances(START, events, Finish);
    RunAdvances(START, events, Advance);
  }

  // ---- When the report can come late -------------------------------------

  lemma {:induction false} Departed(s: State, events: seq<Event>)
    requires s.completer != Fresh
    ensures Run(s, events).completer != Fresh
    decreases |events|
  {
    if events != [] { Departed(Step(s, events[0]), events[1..]); }
  }

  lemma {:induction false} NeverBack(s: State, events: seq<Event>)
    requires s.finisher in {Reported, Out}
    ensures Run(s, events).finisher in {Reported, Out}
    decreases |events|
  {
    if events != [] { NeverBack(Step(s, events[0]), events[1..]); }
  }

  /** Before Complete is called, only the finisher has moved. */
  lemma {:induction false} OnlyFinisher(events: seq<Event>, s: State)
    requires s in {START, StepFinisher(START)} && Run(s, events).completer == Fresh
    ensures var t := Run(s, events);
      && (t.finisher == Before ==> t == START)
      && (t.finisher == Won ==> t == StepFinisher(START))
    decreases |events|
  {
    if events != [] {
      var next := Step(s, events[0]);
      if events[0] == Advance {
        Departed(next, events[1..]);
      } else if s == START {
        OnlyFinisher(events[1..], next);
      } else {
        NeverBack(next, events[1..]);
      }
    }
  }

  /** Once the body's end has been reported, nothing is reported late any more. */
  lemma {:induction false} Settled(s: State, events: seq<Event>)
    requires Inv(s) && s.finisher in {Reported, Out} && !s.late
    ensures !Run(s, events).late
    decreases |events|
  {
    if events != [] {
      RunKeeps(s, events[..1]);
      assert Inv(Step(s, events[0]));
      Settled(Step(s, events[0]), events[1..]);
    }
  }

  lemma {:induction false} RunInTurn(s: State, events: seq<Event>, more: seq<Event>)
    ensures Run(s, events + more) == Run(Run(s, events), more)
    decreases |events|
  {
    if events == [] {
      assert [] + more == more;
    } else {
      assert (events + more)[1..] == events[1..] + more;
      RunInTurn(Step(s, events[0]), events[1..], more);
    }
  }

  /** Complete runs to its end while the finisher stands between winning the flag and reporting. */
  const OVERTAKEN: seq<Event> := [Advance, Advance, Advance, Finish]

  lemma Overtaken()
    ensures Run(StepFinisher(START), OVERTAKEN).late
    ensures Run(START, [Finish] + OVERTAKEN).late
  {
    var won := StepFinisher(START);
    assert OVERTAKEN[1..] == [Advance, Advance, Finish] && OVERTAKEN[1..][1..] == [Advance, Finish];
    assert [Advance, Finish][1..] == [Finish] && [Finish][1..] == [];
    assert Run(won, OVERTAKEN) == Run(StepCompleter(won), OVERTAKEN[1..]);
    RunInTurn(START, [Finish], OVERTAKEN);
  }

  /** When Complete is about to be called: the round trip's end precedes RequestFinished under every
      continuation if and only if the body's end has been reported already. */
  lemma SafeToComplete(before: seq<Event>)
    requires Run(START, before).completer == Fresh
    ensures var s := Run(START, before);
      (forall after :: !Run(s, after).late) <==> s.finisher in {Reported, Out}
  {
    var s := Run(START, before);
    RunKeeps(START, before);
    if s.finisher in {Reported, Out} {
      forall after ensures !Run(s, after).late { Settled(s, after); }
    } else {
      OnlyFinisher(before, START);
      Overtaken();
    }
  }

  lemma {:induction false} NoBody(s: State, events: seq<Event>)
    requires Inv(s) && s.finisher == Before && !s.late && forall i :: 0 <= i < |events| ==> events[i] == Advance
    ensures !Run(s, events).late
    decreases |events|
  {
    if events != [] {
      RunKeeps(s, events[..1]);
      assert Inv(Step(s, events[0]));
      NoBody(Step(s, events[0]), events[1..]);
    }
  }

  /** The handler's order: the body is closed, or was never handed out, before Complete is called. */
  lemma HandlerIsInOrder(before: seq<Event>, after: seq<Event>)
    requires Run(START, before).completer == Fresh
    requires Run(START, before).finisher in {Reported, Out} ||
      (before == [] && forall i :: 0 <= i < |after| ==> after[i] == Advance)
    ensures !Run(Run(START, before), after).late
  {
    if before == [] {
      NoBody(START, after);
    } else {
      SafeToComplete(before);
    }
  }
}
