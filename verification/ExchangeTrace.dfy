/** What an exchange is allowed to do, as a monitor over the facts it reports, and what
    acceptance by the monitor means for the whole trace. */
module ExchangeTrace {
  import opened Prelude

  datatype Action = Retry | Forward | Fail | Unknown

  datatype Outcome = RetryRequested | Forwarded | Failed | ControllerError | InvalidDecision | BudgetRejected | Canceled

  /** The facts, in the order in which they take effect. Begun and Closed are the two round-trip
      metrics; Accepted is the commit of phase retry_requested; Responded is RoundTrip returning a response. */
  datatype Fact =
    | Begun(n: nat)
    | RecoveryStarted(n: nat)
    | RecoveryDecided(n: nat, action: Action, delay: nat, remaining: nat, allowed: bool)
    | Accepted(n: nat, elapsed: nat)
    | RecoveryFinished(n: nat, outcome: Outcome)
    | Responded(n: nat)
    | Closed(n: nat)
    | RequestFinished

  datatype Limits = Limits(maxRoundTrips: nat, maxElapsed: nat, needsKey: bool)

  datatype Cycle = NoCycle | Open |
    Chosen(action: Action, delay: nat, remaining: nat, allowed: bool) | Over(outcome: Outcome)

  /** What the monitor remembers about the latest round trip. */
  datatype Watch = Watch(begun: nat, closed: bool, cycle: Cycle, accepted: bool, responded: bool, finished: bool)

  const IDLE := Watch(0, true, NoCycle, false, false, false)

  predicate Running(c: Cycle) { c.Open? || c.Chosen? }

  /** The conditions under which a retry may be accepted. */
  predicate MayRetry(l: Limits, n: nat, c: Cycle, elapsed: nat) {
    && c.Chosen? && c.action == Retry && c.allowed
    && (c.delay > 0 && c.remaining > 0 ==> c.delay < c.remaining)
    && n < l.maxRoundTrips && !l.needsKey
    && (l.maxElapsed > 0 ==> elapsed < l.maxElapsed)
  }

  predicate Permits(l: Limits, w: Watch, f: Fact) {
    match f
    case Begun(n) =>
      n == w.begun + 1 && n <= l.maxRoundTrips && w.closed && !w.responded &&
      !w.finished && (w.begun > 0 ==> w.accepted)
    case RecoveryStarted(n) => n == w.begun && !w.closed && !w.responded && w.cycle == NoCycle
    case RecoveryDecided(n, _, _, _, _) => n == w.begun && !w.closed && w.cycle == Open
    case Accepted(n, elapsed) => n == w.begun && !w.closed && !w.accepted && !w.responded &&
        MayRetry(l, n, w.cycle, elapsed)
    case RecoveryFinished(n, outcome) =>
      n == w.begun && !w.closed && Running(w.cycle) && (outcome == RetryRequested <==> w.accepted)
      && (w.cycle == Open <==> outcome in {ControllerError, InvalidDecision})
    case Responded(n) => n == w.begun && !w.closed && !w.responded && !w.accepted && !Running(w.cycle)
    case Closed(n) => n == w.begun && !w.closed && !Running(w.cycle)
    case RequestFinished => w.closed && !w.finished
  }

  function Next(w: Watch, f: Fact): Watch {
    match f
    case Begun(n) => Watch(n, false, NoCycle, false, false, false)
    case RecoveryStarted(_) => w.(cycle := Open)
    case RecoveryDecided(_, action, delay, remaining, allowed) => w.(cycle := Chosen(action, delay, remaining, allowed))
    case Accepted(_, _) => w.(accepted := true)
    case RecoveryFinished(_, outcome) => w.(cycle := Over(outcome))
    case Responded(_) => w.(responded := true)
    case Closed(_) => w.(closed := true)
    case RequestFinished => w.(finished := true)
  }

  function After(trace: seq<Fact>): Watch
    decreases |trace|
  {
    if trace == [] then IDLE else Next(After(trace[..|trace| - 1]), trace[|trace| - 1])
  }

  predicate Accepts(l: Limits, trace: seq<Fact>)
    decreases |trace|
  {
    trace == [] ||
    (Accepts(l, trace[..|trace| - 1]) && Permits(l, After(trace[..|trace| - 1]), trace[|trace| - 1]))
  }

  lemma Extend(l: Limits, trace: seq<Fact>, f: Fact)
    requires Accepts(l, trace) && Permits(l, After(trace), f)
    ensures Accepts(l, trace + [f]) && After(trace + [f]) == Next(After(trace), f)
  {
    assert (trace + [f])[..|trace|] == trace;
  }

  // ---- What acceptance means for a whole trace ---------------------------

  predicate IsBegun(f: Fact) { f.Begun? }
  predicate IsClosed(f: Fact) { f.Closed? }
  predicate IsStarted(f: Fact) { f.RecoveryStarted? }
  predicate IsDecided(f: Fact) { f.RecoveryDecided? }
  predicate IsFinished(f: Fact) { f.RecoveryFinished? }
  predicate IsRetry(f: Fact) { f.RecoveryFinished? && f.outcome == RetryRequested }
  predicate IsAccepted(f: Fact) { f.Accepted? }

  function Count(trace: seq<Fact>, p: Fact -> bool): nat
    decreases |trace|
  {
    if trace == [] then 0
    else Count(trace[..|trace| - 1], p) + if p(trace[|trace| - 1]) then 1 else 0
  }

  lemma {:induction false} PrefixAccepted(l: Limits, trace: seq<Fact>, i: nat)
    requires Accepts(l, trace) && i <= |trace|
    ensures Accepts(l, trace[..i])
    ensures i < |trace| ==> Permits(l, After(trace[..i]), trace[i])
    decreases |trace|
  {
    if i < |trace| - 1 {
      PrefixAccepted(l, trace[..|trace| - 1], i);
      assert trace[..|trace| - 1][..i] == trace[..i];
    } else if i == |trace| {
      assert trace[..i] == trace;
    }
  }

  /** Round trips are numbered 1, 2, 3..., at most the budget of them begin,
      and each is closed before the next begins. */
  lemma {:induction false} Numbered(l: Limits, trace: seq<Fact>)
    requires Accepts(l, trace)
    ensures Count(trace, IsBegun) == After(trace).begun
    ensures Count(trace, IsClosed) == Count(trace, IsBegun) - (if After(trace).closed then 0 else 1)
    ensures After(trace).begun <= l.maxRoundTrips
    decreases |trace|
  {
    if trace != [] {
      Numbered(l, trace[..|trace| - 1]);
    }
  }

  lemma {:induction false} BeginsInOrder(l: Limits, trace: seq<Fact>, i: nat)
    requires Accepts(l, trace) && i < |trace| && trace[i].Begun?
    ensures trace[i].n == Count(trace[..i], IsBegun) + 1 <= l.maxRoundTrips
    ensures Count(trace[..i], IsClosed) == Count(trace[..i], IsBegun)
  {
    PrefixAccepted(l, trace, i);
    Numbered(l, trace[..i]);
  }

  /** Fact f occurs in the trace since the latest round trip began. */
  predicate Since(trace: seq<Fact>, f: Fact)
    decreases |trace|
  {
    trace != [] && (trace[|trace| - 1] == f || (!trace[|trace| - 1].Begun? && Since(trace[..|trace| - 1], f)))
  }

  /** Why the latest round trip could be accepted for a retry: the facts that are on record for it. */
  ghost predicate Justified(l: Limits, trace: seq<Fact>) {
    var w := After(trace);
    && (w.cycle.Chosen? ==>
            Since(trace, RecoveryDecided(w.begun, w.cycle.action, w.cycle.delay, w.cycle.remaining, w.cycle.allowed)))
    && (w.accepted ==> exists elapsed: nat, delay: nat, remaining: nat ::
          && Since(trace, RecoveryDecided(w.begun, Retry, delay, remaining, true))
          && Since(trace, Accepted(w.begun, elapsed))
          && (delay > 0 && remaining > 0 ==> delay < remaining)
          && w.begun < l.maxRoundTrips && !l.needsKey && (l.maxElapsed > 0 ==> elapsed < l.maxElapsed))
    && (w.responded <==> Since(trace, Responded(w.begun)))
    && (w.closed && w.begun > 0 ==> Since(trace, Closed(w.begun)))
    && (w.accepted ==> !w.responded)
  }

  lemma SinceExtends(trace: seq<Fact>, f: Fact, g: Fact)
    ensures Since(trace + [f], g) <==> f == g || (!f.Begun? && Since(trace, g))
  {
    assert (trace + [f])[..|trace|] == trace;
  }

  lemma JustifiedStep(l: Limits, trace: seq<Fact>, f: Fact)
    requires Justified(l, trace) && Permits(l, After(trace), f)
    ensures After(trace + [f]) == Next(After(trace), f) && Justified(l, trace + [f])
  {
    assert (trace + [f])[..|trace|] == trace;
    forall g ensures Since(trace + [f], g) <==> f == g || (!f.Begun? && Since(trace, g)) {
      SinceExtends(trace, f, g);
    }
    var w := After(trace);
    if f.Accepted? {
      assert Since(trace + [f], RecoveryDecided(w.begun, Retry, w.cycle.delay, w.cycle.remaining, true));
      assert Since(trace + [f], Accepted(w.begun, f.elapsed));
    }
    if w.accepted && !f.Begun? {
      var elapsed: nat, delay: nat, remaining: nat :|
        && Since(trace, RecoveryDecided(w.begun, Retry, delay, remaining, true))
        && Since(trace, Accepted(w.begun, elapsed))
        && (delay > 0 && remaining > 0 ==> delay < remaining)
        && w.begun < l.maxRoundTrips && !l.needsKey && (l.maxElapsed > 0 ==> elapsed < l.maxElapsed);
      assert Since(trace + [f], RecoveryDecided(w.begun, Retry, delay, remaining, true));
      assert Since(trace + [f], Accepted(w.begun, elapsed));
    }
  }

  lemma {:induction false} AlwaysJustified(l: Limits, trace: seq<Fact>)
    requires Accepts(l, trace)
    ensures Justified(l, trace)
    decreases |trace|
  {
    if trace != [] {
      var init := trace[..|trace| - 1];
      AlwaysJustified(l, init);
      assert init + [trace[|trace| - 1]] == trace;
      JustifiedStep(l, init, trace[|trace| - 1]);
    }
  }

  /** A further round trip begins only after the previous one was closed and its retry was decided and
      accepted within every budget, with the request replayable; no response of it was handed out. */
  lemma RetriesAreEarned(l: Limits, trace: seq<Fact>, i: nat)
    requires Accepts(l, trace) && i < |trace| && trace[i].Begun? && trace[i].n > 1
    ensures var (before, n) := (trace[..i], trace[i].n - 1);
      && Since(before, Closed(n)) && !Since(before, Responded(n))
      && n < l.maxRoundTrips && !l.needsKey
      && exists elapsed: nat, delay: nat, remaining: nat ::
           && Since(before, RecoveryDecided(n, Retry, delay, remaining, true))
           && Since(before, Accepted(n, elapsed))
           && (delay > 0 && remaining > 0 ==> delay < remaining)
           && (l.maxElapsed > 0 ==> elapsed < l.maxElapsed)
  {
    PrefixAccepted(l, trace, i);
    AlwaysJustified(l, trace[..i]);
  }

  predicate Shut(w: Watch) { w.responded && !w.accepted && !Running(w.cycle) }

  predicate Done(w: Watch) { w.finished && w.closed }

  lemma {:induction false} Sticky(l: Limits, trace: seq<Fact>, i: nat, j: nat)
    requires Accepts(l, trace) && i <= j <= |trace|
    ensures Shut(After(trace[..i])) ==> Shut(After(trace[..j])) && After(trace[..j]).begun == After(trace[..i]).begun
    ensures Done(After(trace[..i])) ==> Done(After(trace[..j]))
    decreases j
  {
    if i < j {
      Sticky(l, trace, i, j - 1);
      PrefixAccepted(l, trace, j - 1);
      assert trace[..j][..j - 1] == trace[..j - 1];
    }
  }

  /** After a response was handed out, or the request finished, nothing begins any more. */
  lemma {:induction false} NothingAfterResponse(l: Limits, trace: seq<Fact>, i: nat, j: nat)
    requires Accepts(l, trace) && i < j < |trace| && (trace[i].Responded? || trace[i].RequestFinished?)
    ensures !trace[j].Begun? && !trace[j].RecoveryStarted? && !trace[j].Accepted?
    ensures trace[i].RequestFinished? ==> !trace[j].Closed? && !trace[j].RequestFinished?
    decreases j - i
  {
    Sticky(l, trace, i + 1, j);
    PrefixAccepted(l, trace, i);
    PrefixAccepted(l, trace, j);
    assert trace[..i + 1][..i] == trace[..i];
  }

  /** Recovery cycles balance: each one started is finished exactly once, decided at most once, and
      finishes with retry_requested exactly when its retry was accepted. */
  lemma {:induction false} CyclesBalance(l: Limits, trace: seq<Fact>)
    requires Accepts(l, trace)
    ensures var w := After(trace);
      && Count(trace, IsStarted) == Count(trace, IsFinished) + One(Running(w.cycle))
      && Count(trace, IsDecided) + One(w.cycle == Open) <= Count(trace, IsStarted)
      && Count(trace, IsAccepted) == Count(trace, IsRetry) + One(Running(w.cycle) && w.accepted)
      && Count(trace, IsStarted) <= w.begun
      && (w.cycle == NoCycle ==> Count(trace, IsStarted) <= if w.begun > 0 then w.begun - 1 else 0)
      && (w.accepted ==> w.cycle.Chosen? || w.cycle == Over(RetryRequested))
    decreases |trace|
  {
    if trace != [] {
      CyclesBalance(l, trace[..|trace| - 1]);
    }
  }

  lemma {:induction false} ClosedMeansOver(l: Limits, trace: seq<Fact>)
    requires Accepts(l, trace)
    ensures After(trace).closed ==> !Running(After(trace).cycle)
    decreases |trace|
  {
    if trace != [] { ClosedMeansOver(l, trace[..|trace| - 1]); }
  }

  /** No round trip is closed, and no response handed out, with a recovery cycle left open. */
  lemma CyclesEndFirst(l: Limits, trace: seq<Fact>, i: nat)
    requires Accepts(l, trace) && i < |trace|
    requires (trace[i].Closed? || trace[i].Responded? || trace[i].Begun? || trace[i].RequestFinished?)
    ensures Count(trace[..i], IsStarted) == Count(trace[..i], IsFinished)
    ensures Count(trace[..i], IsAccepted) == Count(trace[..i], IsRetry)
  {
    PrefixAccepted(l, trace, i);
    CyclesBalance(l, trace[..i]);
    ClosedMeansOver(l, trace[..i]);
  }
}
