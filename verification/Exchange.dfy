/** The exchange, its recovery cycle and the transport loop that drives them
    (internal/core/exchange, internal/core/proxy/recovery_transport.go). Every answer from
    outside (contexts, clocks, modules, upstream, controller) is a parameter. */
module ExchangeImpl {
  import opened Prelude
  import opened ExchangeTrace

  datatype Phase =
    | StartingBody | StreamingRequest | Preparing | AwaitingResponse | Recovering
    | RetryWanted | StreamingResponse | Ended

  datatype Error =
    | ContextEnded | RoundTripActive | MaxRoundTrips | NotConfigured | AlreadyConfigured | BudgetExceeded | KeyRequired
    | DirectiveInvalid | ProgramFailed
    | ScopeRejected | BodyUnavailable | ResolverFailed | ModuleFailed | CaptureFailed | RecoveryFailed | TransportFailed

  datatype Result<+T> = Ok(value: T) | Err(error: Error)

  datatype Info = Info(allowed: bool, remaining: nat)

  const MILLISECOND: nat := 1_000_000

  /** Whether a retry of round trip n is within the limits, and how much time is left. */
  function Advice(l: Limits, n: nat, elapsed: nat): Info {
    Info(n < l.maxRoundTrips && (l.maxElapsed == 0 || elapsed < l.maxElapsed) && !l.needsKey,
         if l.maxElapsed > 0 && elapsed < l.maxElapsed then l.maxElapsed - elapsed else 0)
  }

  function Budget(policy: int, server: int): nat {
    var trips := if server > 0 && (policy == 0 || policy > server) then server else policy;
    if trips < 1 then 1 else trips
  }

  function TimeBudget(policy: nat, server: nat): nat {
    if server > 0 && (policy == 0 || policy > server) then server else policy
  }

  /** Round trips are objects in the source; here they are known by their number, and `closed` holds
      the numbers whose closed flag is set. `current` is 0 when the pointer is nil. */
  class Exchange {
    const needsKey: bool   // POST or PATCH without an Idempotency-Key
    var phase: Phase
    var current: nat
    var count: nat
    var maxRoundTrips: nat
    var maxElapsed: nat
    var configured: bool
    var completed: bool
    var requestEnded: bool
    var closed: set<nat>
    var trace: seq<Fact>

    constructor (managerMax: int, needsKey: bool)
      ensures this.needsKey == needsKey
      ensures maxRoundTrips == (if managerMax < 1 then 1 else managerMax) && maxElapsed == 0
      ensures phase == StartingBody && current == 0 && count == 0 && closed == {} && trace == []
      ensures !configured && !completed && !requestEnded
    {
      this.needsKey := needsKey;
      phase, current, count, maxRoundTrips, maxElapsed := StartingBody, 0, 0,
          if managerMax < 1 then 1 else managerMax, 0;
      configured, completed, requestEnded, closed, trace := false, false, false, {}, [];
    }

    function Limits(): Limits
      reads this
    {
      ExchangeTrace.Limits(maxRoundTrips, maxElapsed, needsKey)
    }

    /** Once, before any round trip; a program that does not start leaves the exchange configured. */
    method Configure(hasTarget: bool, programStarts: bool) returns (err: Option<Error>)
      modifies `configured
      ensures err == if !hasTarget then Some(DirectiveInvalid) else if old(configured) then Some(AlreadyConfigured)
                     else if completed || phase == Ended || count > 0 then Some(ContextEnded)
                     else if !programStarts then Some(ProgramFailed) else None
      ensures configured <==> old(configured) || (hasTarget && !completed && phase != Ended && count == 0)
    {
      if !hasTarget {
        return Some(DirectiveInvalid);
      }
      if configured {
        return Some(AlreadyConfigured);
      }
      if completed || phase == Ended || count > 0 {
        return Some(ContextEnded);
      }
      configured := true;
      err := if programStarts then None else Some(ProgramFailed);
    }

    /** The tightest of the policy's and the server's budgets; zero means none was set. */
    method ConfigureRecovery(roundTrips: int, elapsed: nat, serverRoundTrips: int, serverElapsed: nat)
      modifies `maxRoundTrips, `maxElapsed
      ensures maxRoundTrips == Budget(roundTrips, serverRoundTrips) && maxElapsed == TimeBudget(elapsed, serverElapsed)
    {
      var trips := roundTrips;
      if serverRoundTrips > 0 && (trips == 0 || trips > serverRoundTrips) {
        trips := serverRoundTrips;
      }
      if trips < 1 {
        trips := 1;
      }
      var limit := elapsed;
      if serverElapsed > 0 && (limit == 0 || limit > serverElapsed) {
        limit := serverElapsed;
      }
      maxRoundTrips, maxElapsed := trips, limit;
    }

    method BeginRoundTrip(canceled: bool) returns (r: Result<nat>)
      modifies `phase, `current, `count, `trace
      ensures r == if completed || canceled || old(phase) == Ended then Err(ContextEnded)
                   else if old(current) != 0 && old(current) !in closed then Err(RoundTripActive)
                   else if old(count) >= maxRoundTrips then Err(MaxRoundTrips)
                   else if !configured then Err(NotConfigured) else Ok(old(count) + 1)
      ensures r.Ok? ==> r.value == count == current && phase == Preparing && trace == old(trace) + [Begun(count)]
      ensures r.Err? ==> phase == old(phase) && current == old(current) && count == old(count) && trace == old(trace)
    {
      if completed || canceled {
        return Err(ContextEnded);
      }
      if phase == Ended {
        return Err(ContextEnded);
      }
      if current != 0 && current !in closed {
        return Err(RoundTripActive);
      }
      if count >= maxRoundTrips {
        return Err(MaxRoundTrips);
      }
      if !configured {
        return Err(NotConfigured);
      }
      count := count + 1;
      current := count;
      phase := Preparing;
      trace := trace + [Begun(count)];
      r := Ok(count);
    }

    method BeginUpstream(n: nat, canceled: bool) returns (ok: bool)
      modifies `phase
      ensures ok <==> current == n && !canceled
      ensures phase == if ok then AwaitingResponse else old(phase)
    {
      if current != n || canceled {
        return false;
      }
      phase := AwaitingResponse;
      ok := true;
    }

    method BeginRecovery(n: nat) returns (ok: bool)
      modifies `phase
      ensures ok <==> current == n && !completed && old(phase) != StreamingResponse && old(phase) != Ended
      ensures phase == if ok then Recovering else old(phase)
    {
      if current != n || completed || phase == StreamingResponse || phase == Ended {
        return false;
      }
      phase := Recovering;
      ok := true;
    }

    /** Why a retry of round trip n is refused now, if it is. */
    function Refusal(n: nat, elapsed: nat): Option<Error>
      reads this
    {
      if completed || current == 0 || current != n || phase !in {AwaitingResponse, Recovering, RetryWanted}
        then Some(ContextEnded)
      else if phase == RetryWanted then None
      else if needsKey then Some(KeyRequired)
      else if n >= maxRoundTrips then Some(MaxRoundTrips)
      else if maxElapsed > 0 && elapsed >= maxElapsed then Some(BudgetExceeded)
      else None
    }

    /** Round trip n waits for its response or for a recovery decision. */
    predicate Recoverable(n: nat)
      reads this
    {
      !completed && n == current != 0 && phase in {AwaitingResponse, Recovering}
    }

    method RequestRecoveryRetry(n: nat, elapsed: nat) returns (err: Option<Error>)
      modifies `phase, `trace
      ensures err == old(Refusal(n, elapsed))
      ensures err == if completed || current == 0 || current != n then Some(ContextEnded)
                     else if old(phase) == RetryWanted then None
                     else if old(phase) != AwaitingResponse && old(phase) != Recovering then Some(ContextEnded)
                     else if needsKey then Some(KeyRequired)
                     else if n >= maxRoundTrips then Some(MaxRoundTrips)
                     else if maxElapsed > 0 && elapsed >= maxElapsed then Some(BudgetExceeded) else None
      ensures if err.None? && old(phase) != RetryWanted
              then phase == RetryWanted && trace == old(trace) + [Accepted(n, elapsed)]
              else phase == old(phase) && trace == old(trace)
    {
      if completed {
        return Some(ContextEnded);
      }
      if current == 0 || current != n {
        return Some(ContextEnded);
      }
      if phase == RetryWanted {
        return None;
      }
      if phase != AwaitingResponse && phase != Recovering {
        return Some(ContextEnded);
      }
      if needsKey {
        return Some(KeyRequired);
      }
      if n >= maxRoundTrips {
        return Some(MaxRoundTrips);
      }
      if maxElapsed > 0 && elapsed >= maxElapsed {
        return Some(BudgetExceeded);
      }
      phase := RetryWanted;
      trace := trace + [Accepted(n, elapsed)];
      err := None;
    }

    /** What the controller is told holds when it answers: the guard here and the one in RequestRecoveryRetry
        agree, a retry allowed now is not refused before the remaining time is over, and nothing remains just
        when no time budget is set or it is spent. */
    method RecoveryContext(n: nat, elapsed: nat) returns (info: Info)
      ensures info == Advice(Limits(), n, elapsed)
      ensures Recoverable(n) ==> (info.allowed <==> Refusal(n, elapsed).None?)
      ensures Recoverable(n) && info.allowed ==>
        forall later: nat :: info.remaining == 0 || later < elapsed + info.remaining ==> Refusal(n, later).None?
      ensures info.remaining == 0 <==> maxElapsed == 0 || elapsed >= maxElapsed
      ensures info.remaining > 0 ==> elapsed + info.remaining == maxElapsed
    {
      var remaining := 0;
      if maxElapsed > 0 && elapsed < maxElapsed {
        remaining := maxElapsed - elapsed;
      }
      var allowed := n < maxRoundTrips && (maxElapsed == 0 || elapsed < maxElapsed);
      if needsKey {
        allowed := false;
      }
      info := Info(allowed, remaining);
    }

    /** FinishRoundTrip; true is DecisionRetry. */
    method FinishRoundTrip(n: nat, started: bool, failed: bool, canceled: bool) returns (retry: bool)
      modifies `phase, `current, `closed, `trace
      ensures retry <==> old(current) == n && old(phase) == RetryWanted && !canceled
      ensures var streams := !retry && started && !failed;
        if old(current) != n then
          phase == old(phase) && current == old(current) && closed == old(closed) && trace == old(trace)
        else if streams then
          phase == StreamingResponse && current == n && closed == old(closed) && trace == old(trace)
        else
          && phase == (if retry then RetryWanted else Ended) && current == 0 && closed == old(closed) + {n}
          && trace == old(trace) + if n in old(closed) then [] else [Closed(n)]
    {
      if current != n {
        return false;
      }
      retry := false;
      if phase == RetryWanted && !canceled {
        retry := true;
        current := 0;
      } else if started && !failed {
        phase := StreamingResponse;
        return false;
      } else {
        current := 0;
        phase := Ended;
      }
      FinishLifecycle(n);
    }

    /** finishLifecycle: only the caller that wins the compare-and-swap reports the end. */
    method FinishLifecycle(n: nat)
      modifies `closed, `trace
      ensures closed == old(closed) + {n}
      ensures trace == old(trace) + if n in old(closed) then [] else [Closed(n)]
    {
      if n in closed {
        return;
      }
      closed := closed + {n};
      trace := trace + [Closed(n)];
    }

    /** End of the observed response body, by EOF, error or Close. */
    method FinishUpstream(n: nat)
      modifies `closed, `trace, `current
      ensures closed == old(closed) + {n}
      ensures trace == old(trace) + if n in old(closed) then [] else [Closed(n)]
      ensures current == if old(current) == n then 0 else old(current)
    {
      FinishLifecycle(n);
      if current == n {
        current := 0;
      }
    }

    method Complete()
      modifies `phase, `current, `closed, `trace, `requestEnded, `completed
      ensures completed && requestEnded
      ensures old(requestEnded) ==>
        phase == old(phase) && current == old(current) && closed == old(closed) && trace == old(trace)
      ensures !old(requestEnded) ==>
        && phase == Ended && current == 0
        && closed == (if old(current) == 0 then old(closed) else old(closed) + {old(current)})
        && trace == old(trace)
             + (if old(current) == 0 || old(current) in old(closed) then [] else [Closed(old(current))])
             + [RequestFinished]
    {
      if requestEnded {   // completeOnce
        completed := true;
        return;
      }
      var n := current;
      current := 0;
      phase := Ended;
      if n != 0 {
        FinishLifecycle(n);
      }
      trace := trace + [RequestFinished];
      requestEnded := true;
      completed := true;
    }
  }

  /** limitRecoveryPolicy: only budgets above the server's limits are lowered. */
  function Limited(policy: int, server: int): int { if server > 0 && policy > server then server else policy }

  /** The effective budget is within both limits, allows one round trip, and is the same whether or not the
      policy was limited beforehand. */
  lemma BudgetTightens(policy: int, server: int, elapsed: nat, serverElapsed: nat)
    ensures Budget(policy, server) >= 1
    ensures server > 0 ==> Budget(policy, server) <= server
    ensures policy > 0 ==> Budget(policy, server) <= policy
    ensures policy > 0 && server > 0 ==> Budget(policy, server) in {policy, server}
    ensures policy > 0 && server <= 0 ==> Budget(policy, server) == policy
    ensures policy == 0 && server > 0 ==> Budget(policy, server) == server
    ensures policy < 0 || (policy == 0 && server <= 0) ==> Budget(policy, server) == 1
    ensures Limited(policy, server) in {policy, server} && (server > 0 ==> Limited(policy, server) <= server)
    ensures Budget(Limited(policy, server), server) == Budget(policy, server)
    ensures serverElapsed > 0 ==> 0 < TimeBudget(elapsed, serverElapsed) <= serverElapsed
    ensures elapsed > 0 ==> 0 < TimeBudget(elapsed, serverElapsed) <= elapsed
    ensures TimeBudget(elapsed, serverElapsed) in {elapsed, serverElapsed}
    ensures TimeBudget(Limited(elapsed, serverElapsed), serverElapsed) == TimeBudget(elapsed, serverElapsed)
  {}

  // ---- One recovery cycle ------------------------------------------------

  /** What the controller answers: an error, or an action with a delay in milliseconds. */
  datatype Answer = Unreachable | Answered(action: Action, afterMs: int)

  datatype Consult = Consult(answer: Answer, elapsed: nat, interrupted: bool, elapsedAfter: nat)

  predicate Said(c: Consult, action: Action) { c.answer.Answered? && c.answer.action == action }

  function ErrorOutcome(e: Error): Outcome {
    if e == ContextEnded then Canceled
    else if e in {MaxRoundTrips, BudgetExceeded, KeyRequired} then BudgetRejected
    else Failed
  }

  datatype Recovered = NotStarted | RetryIt | CarryOn | FailIt

  class RecoveryCycle {
    const exchange: Exchange
    const n: nat
    const forwardable: bool   // an unexpected status with a captured response
    var decision: Option<(Action, nat)>
    var finished: bool

    constructor (exchange: Exchange, n: nat, forwardable: bool)
      ensures this.exchange == exchange && this.n == n && this.forwardable == forwardable && decision.None? && !finished
      ensures exchange.trace == old(exchange.trace) + [RecoveryStarted(n)]
      modifies exchange`trace
    {
      this.exchange, this.n, this.forwardable, decision, finished := exchange, n, forwardable, None, false;
      new;
      exchange.trace := exchange.trace + [RecoveryStarted(n)];
    }

    method Finish(outcome: Outcome)
      modifies `finished, exchange`trace
      ensures finished
      ensures exchange.trace == old(exchange.trace) + if old(finished) then [] else [RecoveryFinished(n, outcome)]
    {
      if finished {
        return;
      }
      finished := true;
      exchange.trace := exchange.trace + [RecoveryFinished(n, outcome)];
    }

    /** validRecoveryDecision and the sign check on the delay */
    predicate Valid(action: Action, afterMs: int) {
      && (action == Retry || action == Fail || (action == Forward && forwardable))
      && afterMs >= 0
    }

    /** Decide, up to the return of an action whose delay has passed. A cycle decides once. */
    method Decide(c: Consult) returns (ok: bool)
      modifies this, exchange`trace
      ensures old(decision.Some? || finished) ==>
        !ok && decision == old(decision) && finished == old(finished) && exchange.trace == old(exchange.trace)
      ensures old(decision.None? && !finished) ==>
        && (finished <==> !ok) && (ok <==> Survives(c, old(exchange.Limits())))
        && exchange.trace == old(exchange.trace) + Decided(c, old(exchange.Limits()))
      ensures ok ==> decision.Some? && c.answer.Answered? && Valid(c.answer.action, c.answer.afterMs) && !finished
      ensures ok ==> decision.value.0 == c.answer.action
    {
      if decision.Some? || finished {
        return false;
      }
      if c.answer.Unreachable? {
        Finish(ControllerError);
        return false;
      }
      var (action, afterMs) := (c.answer.action, c.answer.afterMs);
      if !Valid(action, afterMs) {
        Finish(InvalidDecision);
        return false;
      }
      var info := exchange.RecoveryContext(n, c.elapsed);
      var delay := afterMs * MILLISECOND;
      decision := Some((action, delay));
      exchange.trace := exchange.trace + [RecoveryDecided(n, action, delay, info.remaining, info.allowed)];
      if action == Retry && !info.allowed {
        Finish(BudgetRejected);
        return false;
      }
      if delay > 0 {
        if info.remaining > 0 && delay >= info.remaining {
          Finish(BudgetRejected);
          return false;
        }
        if c.interrupted {
          Finish(Canceled);
          return false;
        }
      }
      ok := true;
    }

    function Allowed(c: Consult, l: Limits): bool { Advice(l, n, c.elapsed).allowed }

    function Remaining(c: Consult, l: Limits): nat { Advice(l, n, c.elapsed).remaining }

    function Verdict(c: Consult, l: Limits): Fact
      requires c.answer.Answered? && c.answer.afterMs >= 0
    {
      RecoveryDecided(n, c.answer.action, c.answer.afterMs * MILLISECOND, Remaining(c, l), Allowed(c, l))
    }

    /** What the monitor remembers of a decision. */
    function Choice(c: Consult, l: Limits): Cycle
      requires c.answer.Answered? && c.answer.afterMs >= 0
    {
      Chosen(c.answer.action, c.answer.afterMs * MILLISECOND, Remaining(c, l), Allowed(c, l))
    }

    /** The decision stands: valid, within every budget, and not interrupted while it waited. */
    predicate Survives(c: Consult, l: Limits) {
      && c.answer.Answered? && Valid(c.answer.action, c.answer.afterMs)
      && (c.answer.action == Retry ==> Allowed(c, l))
      && (c.answer.afterMs > 0 ==>
            !(Remaining(c, l) > 0 && c.answer.afterMs * MILLISECOND >= Remaining(c, l)) && !c.interrupted)
    }

    /** The facts Decide reports. */
    function Decided(c: Consult, l: Limits): seq<Fact> {
      if c.answer.Unreachable? then [RecoveryFinished(n, ControllerError)]
      else if !Valid(c.answer.action, c.answer.afterMs) then [RecoveryFinished(n, InvalidDecision)]
      else if Survives(c, l) then [Verdict(c, l)]
      else if (c.answer.action == Retry && !Allowed(c, l)) ||
              (Remaining(c, l) > 0 && c.answer.afterMs > 0 && c.answer.afterMs * MILLISECOND >= Remaining(c, l))
      then [Verdict(c, l), RecoveryFinished(n, BudgetRejected)]
      else [Verdict(c, l), RecoveryFinished(n, Canceled)]
    }

    /** The facts Apply reports for a decision that stands. */
    function Applied(action: Action, phase: Phase, refusal: Option<Error>, elapsed: nat): seq<Fact> {
      match action
      case Retry =>
        if refusal.Some? then [RecoveryFinished(n, ErrorOutcome(refusal.value))]
        else (if phase == RetryWanted then [] else [Accepted(n, elapsed)]) + [RecoveryFinished(n, RetryRequested)]
      case Forward => [RecoveryFinished(n, Forwarded)]
      case Fail => [RecoveryFinished(n, Failed)]
      case Unknown => []
    }

    /** A decision that stands is carried out, once; without one, or with an action nobody knows, Apply fails
        and reports nothing. */
    method Apply(elapsed: nat) returns (r: Recovered)
      modifies `finished, exchange`trace, exchange`phase
      ensures r != NotStarted
      ensures old(decision.None? || finished || decision.value.0 == Unknown) ==>
        r == FailIt && finished == old(finished) && exchange.phase == old(exchange.phase) &&
        exchange.trace == old(exchange.trace)
      ensures old(decision.Some? && !finished && decision.value.0 != Unknown) ==>
        var (action, refusal) := (old(decision.value.0), old(exchange.Refusal(n, elapsed)));
        && finished && (r == RetryIt <==> action == Retry && refusal.None?) && (r == FailIt <==> action == Fail)
        && exchange.phase == (if r == RetryIt then RetryWanted else old(exchange.phase))
        && exchange.trace == old(exchange.trace) + Applied(action, old(exchange.phase), refusal, elapsed)
        && (action == Retry && refusal.Some? ==>
              var outcome := if refusal == Some(ContextEnded) then Canceled else BudgetRejected;
              exchange.trace == old(exchange.trace) + [RecoveryFinished(n, outcome)])
    {
      if decision.None? || finished {
        return FailIt;
      }
      match decision.value.0 {
        case Retry =>
          var err := exchange.RequestRecoveryRetry(n, elapsed);
          if err.Some? {
            Finish(ErrorOutcome(err.value));
            return CarryOn;
          }
          Finish(RetryRequested);
          r := RetryIt;
        case Forward =>
          Finish(Forwarded);
          r := CarryOn;
        case Fail =>
          Finish(Failed);
          r := FailIt;
        case Unknown =>
          r := FailIt;
      }
    }
  }

  /** The delay asked for fits what is left of the time budget, and nothing cut it short. */
  predicate Waited(l: Limits, c: Consult) {
    && c.answer.Answered? && c.answer.afterMs >= 0
    && (c.answer.afterMs > 0 ==> !c.interrupted)
    && (c.answer.afterMs > 0 && l.maxElapsed > 0 && c.elapsed < l.maxElapsed ==>
          c.answer.afterMs * MILLISECOND < l.maxElapsed - c.elapsed)
  }

  /** How the cycle of round trip n ends, by what the controller answered and when. */
  function Ending(l: Limits, n: nat, forwardable: bool, c: Consult): Outcome {
    match c.answer
    case Unreachable => ControllerError
    case Answered(action, afterMs) =>
      var left := if l.maxElapsed > 0 && c.elapsed < l.maxElapsed then l.maxElapsed - c.elapsed else 0;
      if afterMs < 0 || action == Unknown || (action == Forward && !forwardable) then InvalidDecision
      else if action == Retry && (n >= l.maxRoundTrips || l.needsKey || (l.maxElapsed > 0 && c.elapsed >= l.maxElapsed))
        then BudgetRejected
      else if left > 0 && afterMs > 0 && afterMs * MILLISECOND >= left then BudgetRejected
      else if afterMs > 0 && c.interrupted then Canceled
      else if action == Fail then Failed
      else if action == Forward then Forwarded
      else if l.maxElapsed > 0 && c.elapsedAfter >= l.maxElapsed then BudgetRejected
      else RetryRequested
  }

  /** Each ending by its exact condition: what was said, how long to wait, and what the budgets left. */
  lemma HowCyclesEnd(l: Limits, n: nat, forwardable: bool, c: Consult)
    ensures Ending(l, n, forwardable, c) == ControllerError <==> c.answer.Unreachable?
    ensures Ending(l, n, forwardable, c) == InvalidDecision <==>
      && c.answer.Answered?
      && (c.answer.afterMs < 0 || c.answer.action == Unknown || (c.answer.action == Forward && !forwardable))
    ensures Ending(l, n, forwardable, c) == RetryRequested <==>
      && Said(c, Retry) && c.answer.afterMs >= 0 && n < l.maxRoundTrips && !l.needsKey
      && (c.answer.afterMs > 0 ==> !c.interrupted)
      && (l.maxElapsed > 0 ==>
            && c.elapsed < l.maxElapsed && c.elapsedAfter < l.maxElapsed
            && (c.answer.afterMs > 0 ==> c.answer.afterMs * MILLISECOND < l.maxElapsed - c.elapsed))
    ensures Ending(l, n, forwardable, c) == Failed <==> Said(c, Fail) && Waited(l, c)
    ensures Ending(l, n, forwardable, c) == Forwarded <==> Said(c, Forward) && forwardable && Waited(l, c)
    ensures Ending(l, n, forwardable, c) == Canceled ==> c.answer.Answered? && c.answer.afterMs > 0 && c.interrupted
  {}

  // ---- The transport loop ------------------------------------------------

  /** What the exchange's fields have to do with its trace. */
  ghost predicate Tracked(ex: Exchange)
    reads ex
  {
    var w := After(ex.trace);
    && Accepts(ex.Limits(), ex.trace)
    && w.begun == ex.count
    && (w.closed <==> ex.count == 0 || ex.count in ex.closed)
    && (forall m :: m in ex.closed ==> m <= ex.count)
    && (ex.current == 0 || ex.current == ex.count)
    && (w.finished <==> ex.requestEnded)
    && !Running(w.cycle)
  }

  /** Round trip n is under way and has not been answered. */
  ghost predicate Under(ex: Exchange, n: nat)
    reads ex
  {
    && Tracked(ex) && n == ex.current == ex.count && n > 0 && n !in ex.closed
    && !After(ex.trace).responded && !ex.completed && !ex.requestEnded
    && (ex.phase == RetryWanted <==> After(ex.trace).accepted)
  }

  /** Between round trips: none yet, or the last one was replaced by an accepted retry. */
  ghost predicate Between(ex: Exchange)
    reads ex
  {
    && Tracked(ex) && ex.current == 0 && !ex.completed && !ex.requestEnded
    && (ex.count == 0 || (ex.count in ex.closed && After(ex.trace).accepted)) && !After(ex.trace).responded
  }

  /** The directive's recovery policy: its triggers, how much of a response is captured, and its budget. */
  datatype Policy = Policy(hasController: bool, transportError: bool, headerTimeout: nat, captureLimit: int,
                           roundTrips: int, elapsed: nat)

  datatype Upstream =
    | Broken(timedOut: bool)   // an error
    | NoResponse               // neither response nor error
    | Response(hasBody: bool, unexpected: bool, readFails: bool)   // unexpected: the status trigger matches

  /** Everything one pass of the loop is told from outside. */
  datatype Pass = Pass(topCanceled: bool, beginCanceled: bool, scopeFails: bool, bodyFails: bool, buildFails: bool,
                       requestMutationFails: bool, upstreamCanceled: bool, upstream: Upstream, consult: Consult,
                       responseMutationFails: bool, finishCanceled: bool)

  datatype Answered = Again | Answer(hasBody: bool) | Nothing | Failure(error: Error)

  lemma Extend2(l: Limits, trace: seq<Fact>, f: Fact, g: Fact)
    requires Accepts(l, trace) && Permits(l, After(trace), f) && Permits(l, Next(After(trace), f), g)
    ensures Accepts(l, trace + [f, g]) && After(trace + [f, g]) == Next(Next(After(trace), f), g)
  {
    Extend(l, trace, f);
    Extend(l, trace + [f], g);
    assert trace + [f, g] == trace + [f] + [g];
  }

  /** The facts Decide reports are in order after the cycle was opened, and leave it open or over. */
  lemma DecideTracks(cycle: RecoveryCycle, c: Consult, l: Limits, trace: seq<Fact>)
    requires Accepts(l, trace) && cycle.n == After(trace).begun && !After(trace).closed && After(trace).cycle == Open
    requires !After(trace).accepted && !After(trace).responded
    ensures var (after, w) := (trace + cycle.Decided(c, l), After(trace));
      && Accepts(l, after)
      && After(after) == w.(cycle := After(after).cycle)
      && (cycle.Survives(c, l) ==> After(after).cycle == cycle.Choice(c, l))
      && (!cycle.Survives(c, l) ==> After(after).cycle == Over(Ending(l, cycle.n, cycle.forwardable, c)))
  {
    var n := cycle.n;
    if c.answer.Unreachable? {
      Extend(l, trace, RecoveryFinished(n, ControllerError));
    } else if !cycle.Valid(c.answer.action, c.answer.afterMs) {
      Extend(l, trace, RecoveryFinished(n, InvalidDecision));
    } else if cycle.Survives(c, l) {
      Extend(l, trace, cycle.Verdict(c, l));
    } else {
      Extend2(l, trace, cycle.Verdict(c, l), RecoveryFinished(n, BudgetRejected));
      Extend2(l, trace, cycle.Verdict(c, l), RecoveryFinished(n, Canceled));
    }
  }

  /** A cycle is open for the round trip under way. */
  ghost predicate Deciding(l: Limits, trace: seq<Fact>, n: nat, c: Cycle) {
    var w := After(trace);
    Accepts(l, trace) && n == w.begun && !w.closed && !w.accepted && !w.responded && !w.finished && w.cycle == c
  }

  /** The facts Apply reports end the cycle. */
  lemma ApplyTracks(l: Limits, trace: seq<Fact>, after: seq<Fact>, n: nat, elapsed: nat, r: Recovered, o: Outcome)
    requires Accepts(l, trace) && n == After(trace).begun && !After(trace).closed && After(trace).cycle.Chosen?
    requires !After(trace).accepted && !After(trace).responded
    requires r == RetryIt ==> MayRetry(l, n, After(trace).cycle, elapsed)
    requires r == RetryIt ==> after == trace + [Accepted(n, elapsed), RecoveryFinished(n, RetryRequested)]
    requires r != RetryIt ==>
      o in {Forwarded, Failed, Canceled, BudgetRejected} && after == trace + [RecoveryFinished(n, o)]
    ensures Accepts(l, after) && After(after) == After(trace).(cycle := After(after).cycle, accepted := r == RetryIt)
    ensures After(after).cycle == Over(if r == RetryIt then RetryRequested else o)
  {
    if r == RetryIt {
      Extend2(l, trace, Accepted(n, elapsed), RecoveryFinished(n, RetryRequested));
    } else {
      Extend(l, trace, RecoveryFinished(n, o));
    }
  }

  /** What the transport makes of a cycle that ended. */
  function Carried(o: Outcome): Recovered {
    match o case RetryRequested => RetryIt case Failed => FailIt case _ => CarryOn
  }

  /** Cycle, exchange and trace belong together, and the cycle is c. */
  ghost predicate Runs(ex: Exchange, cycle: RecoveryCycle, c: Cycle)
    reads ex, cycle
  {
    && cycle.exchange == ex && cycle.n != 0 && !cycle.finished
    && ex.phase == Recovering && ex.current == cycle.n && !ex.completed
    && Deciding(ex.Limits(), ex.trace, cycle.n, c)
  }

  /** Decide on an open cycle: the decision stands, or the cycle is over. */
  method RunDecide(ex: Exchange, cycle: RecoveryCycle, c: Consult) returns (ok: bool)
    requires Runs(ex, cycle, Open) && cycle.decision.None?
    modifies cycle, ex`trace
    ensures Accepts(ex.Limits(), ex.trace) && old(ex.trace) <= ex.trace
    ensures After(ex.trace) == After(old(ex.trace)).(cycle := After(ex.trace).cycle)
    ensures !ok ==> After(ex.trace).cycle == Over(Ending(ex.Limits(), cycle.n, cycle.forwardable, c))
    ensures !ok ==> Ending(ex.Limits(), cycle.n, cycle.forwardable, c) !in {RetryRequested, Failed}
    ensures ok ==> Runs(ex, cycle, After(ex.trace).cycle) && cycle.Survives(c, ex.Limits())
    ensures ok ==> cycle.decision.Some? && cycle.decision.value.0 == c.answer.action
    ensures ok ==> After(ex.trace).cycle == cycle.Choice(c, ex.Limits())
  {
    DecideTracks(cycle, c, ex.Limits(), ex.trace);
    ok := cycle.Decide(c);
  }

  /** Apply on a decision that stands ends the cycle. */
  method RunApply(ex: Exchange, cycle: RecoveryCycle, c: Consult) returns (r: Recovered)
    requires Runs(ex, cycle, After(ex.trace).cycle) && cycle.Survives(c, ex.Limits())
    requires cycle.decision.Some? && cycle.decision.value.0 == c.answer.action
    requires After(ex.trace).cycle == cycle.Choice(c, ex.Limits())
    modifies cycle, ex`phase, ex`trace
    ensures Accepts(ex.Limits(), ex.trace) && old(ex.trace) <= ex.trace
    ensures After(ex.trace) == After(old(ex.trace)).(cycle := After(ex.trace).cycle, accepted := r == RetryIt)
    ensures After(ex.trace).cycle == Over(Ending(ex.Limits(), cycle.n, cycle.forwardable, c))
    ensures ex.phase == if r == RetryIt then RetryWanted else Recovering
    ensures r == Carried(Ending(ex.Limits(), cycle.n, cycle.forwardable, c))
  {
    ghost var (l, chosen) := (ex.Limits(), ex.trace);
    ghost var (action, refusal) := (cycle.decision.value.0, ex.Refusal(cycle.n, c.elapsedAfter));
    r := cycle.Apply(c.elapsedAfter);
    ghost var o := if r == RetryIt then RetryRequested else if action == Retry then ErrorOutcome(refusal.value)
      else if action == Forward then Forwarded else Failed;
    ApplyTracks(l, chosen, ex.trace, cycle.n, c.elapsedAfter, r, o);
  }

  /** Decide and Apply on an open cycle. */
  method RunCycle(ex: Exchange, cycle: RecoveryCycle, c: Consult) returns (r: Recovered)
    requires Runs(ex, cycle, Open) && cycle.decision.None?
    modifies cycle, ex`phase, ex`trace
    ensures Accepts(ex.Limits(), ex.trace) && old(ex.trace) <= ex.trace
    ensures After(ex.trace) == After(old(ex.trace)).(cycle := After(ex.trace).cycle, accepted := r == RetryIt)
    ensures After(ex.trace).cycle == Over(Ending(ex.Limits(), cycle.n, cycle.forwardable, c))
    ensures ex.phase == if r == RetryIt then RetryWanted else Recovering
    ensures r == Carried(Ending(ex.Limits(), cycle.n, cycle.forwardable, c))
  {
    var ok := RunDecide(ex, cycle, c);
    if !ok {
      return CarryOn;
    }
    r := RunApply(ex, cycle, c);
  }

  /** Round trip n was sent and nothing has come of it yet. */
  ghost predicate Sent(ex: Exchange, n: nat)
    reads ex
  {
    Under(ex, n) && ex.phase == AwaitingResponse && After(ex.trace).cycle == NoCycle && !After(ex.trace).accepted
  }

  /** The controller was asked about round trip n, and that ended as it must. */
  ghost predicate Asked(l: Limits, before: seq<Fact>, after: seq<Fact>, n: nat, forwardable: bool, c: Consult) {
    before + [RecoveryStarted(n)] <= after && After(after).cycle == Over(Ending(l, n, forwardable, c))
  }

  /** recoverRoundTrip: with a controller a cycle is opened and ended. */
  method Recover(ex: Exchange, policy: Policy, n: nat, forwardable: bool, c: Consult) returns (r: Recovered)
    requires Sent(ex, n)
    modifies ex`phase, ex`trace
    ensures Under(ex, n) && ex.phase in {AwaitingResponse, Recovering, RetryWanted}
    ensures r == RetryIt <==> After(ex.trace).accepted
    ensures r == if policy.hasController then Carried(Ending(ex.Limits(), n, forwardable, c)) else NotStarted
    ensures if policy.hasController then Asked(ex.Limits(), old(ex.trace), ex.trace, n, forwardable, c)
            else ex.trace == old(ex.trace)
  {
    if !policy.hasController {
      return NotStarted;
    }
    var started := ex.BeginRecovery(n);
    assert started;
    Extend(ex.Limits(), ex.trace, RecoveryStarted(n));
    var cycle := new RecoveryCycle(ex, n, forwardable);
    r := RunCycle(ex, cycle, c);
  }

  /** After the transport returned: whatever is still open is the exchange's current round trip. */
  ghost predicate Handed(ex: Exchange)
    reads ex
  {
    Tracked(ex) && !ex.completed && !ex.requestEnded &&
    (ex.count == 0 || ex.count in ex.closed || ex.current == ex.count)
  }

  ghost predicate Frame(ex: Exchange, maxRoundTrips: nat, maxElapsed: nat, configured: bool, count: nat)
    reads ex
  {
    ex.maxRoundTrips == maxRoundTrips && ex.maxElapsed == maxElapsed && ex.configured == configured && ex.count == count
  }

  /** Closes a round trip that did not end in a streaming response. */
  method FinishPass(ex: Exchange, n: nat, failed: bool, canceled: bool) returns (retry: bool)
    requires Under(ex, n)
    modifies ex
    ensures Frame(ex, old(ex.maxRoundTrips), old(ex.maxElapsed), old(ex.configured), old(ex.count))
    ensures Handed(ex) && ex.current == 0 && n == ex.count && n in ex.closed && After(ex.trace).responded == false
    ensures After(ex.trace).accepted == old(After(ex.trace).accepted)
    ensures After(ex.trace).accepted ==> Between(ex)
    ensures retry <==> old(After(ex.trace).accepted) && !canceled
    ensures ex.phase == if retry then RetryWanted else Ended
    ensures ex.trace == old(ex.trace) + [Closed(n)]
  {
    Extend(ex.Limits(), ex.trace, Closed(n));
    retry := ex.FinishRoundTrip(n, false, failed, canceled);
  }

  /** Why the preparation of a round trip that has begun fails, if it does. */
  function Mishap(p: Pass): Option<Error> {
    if p.scopeFails then Some(ScopeRejected)
    else if p.bodyFails then Some(BodyUnavailable)
    else if p.buildFails then Some(ResolverFailed)
    else if p.requestMutationFails then Some(ModuleFailed)
    else if p.upstreamCanceled then Some(ContextEnded)
    else None
  }

  /** Why no round trip can begin between two passes, if none can. */
  function Barred(l: Limits, configured: bool, ended: bool, p: Pass, n: nat): Option<Error> {
    if p.topCanceled || p.beginCanceled || ended then Some(ContextEnded)
    else if n > l.maxRoundTrips then Some(MaxRoundTrips)
    else if !configured then Some(NotConfigured)
    else None
  }

  /** The part of a pass before the upstream answers: undisturbed, a round trip is sent; otherwise the first thing
      that goes wrong comes out. */
  method Prepare(ex: Exchange, p: Pass) returns (r: Result<nat>)
    requires Between(ex)
    modifies ex
    ensures Frame(ex, old(ex.maxRoundTrips), old(ex.maxElapsed), old(ex.configured), ex.count)
    ensures ex.count == old(ex.count) || ex.count == old(ex.count) + 1
    ensures ex.count > old(ex.count) <==>
      && !p.topCanceled && !p.beginCanceled && old(ex.phase) != Ended
      && old(ex.count) < ex.maxRoundTrips && ex.configured
    ensures ex.count == old(ex.count) ==>
      r == Err(if p.topCanceled || p.beginCanceled || old(ex.phase) == Ended then ContextEnded
               else if old(ex.count) >= ex.maxRoundTrips then MaxRoundTrips else NotConfigured)
    ensures ex.count > old(ex.count) ==>
      r == if p.scopeFails then Err(ScopeRejected) else if p.bodyFails then Err(BodyUnavailable)
           else if p.buildFails then Err(ResolverFailed) else if p.requestMutationFails then Err(ModuleFailed)
           else if p.upstreamCanceled then Err(ContextEnded) else Ok(ex.count)
    ensures r.Ok? ==> Sent(ex, r.value)
    ensures r.Err? ==> Handed(ex)
  {
    if p.topCanceled {
      return Err(ContextEnded);
    }
    ghost var before := ex.trace;
    var begun := ex.BeginRoundTrip(p.beginCanceled);
    if begun.Err? {
      return begun;
    }
    var n := begun.value;
    Extend(ex.Limits(), before, Begun(n));
    if p.scopeFails {
      var _ := FinishPass(ex, n, true, p.finishCanceled);
      return Err(ScopeRejected);
    }
    if p.bodyFails {
      var _ := FinishPass(ex, n, true, p.finishCanceled);
      return Err(BodyUnavailable);
    }
    if p.buildFails {
      var _ := FinishPass(ex, n, true, p.finishCanceled);
      return Err(ResolverFailed);
    }
    if p.requestMutationFails {
      var _ := FinishPass(ex, n, true, p.finishCanceled);
      return Err(ModuleFailed);
    }
    var upstream := ex.BeginUpstream(n, p.upstreamCanceled);
    if !upstream {
      return Err(ContextEnded);
    }
    r := begun;
  }

  /** captureRecoveryResponse refuses a response without a body and a limit that is not positive. */
  predicate CaptureRefused(policy: Policy, hasBody: bool) { !hasBody || policy.captureLimit <= 0 }

  /** Round trip n may be answered: no retry of it was accepted. */
  ghost predicate Answerable(ex: Exchange, n: nat)
    reads ex
  {
    Under(ex, n) && !After(ex.trace).accepted
  }

  /** How a pass that goes round again or fails leaves the exchange. */
  ghost predicate Leaves(ex: Exchange, a: Answered, canceled: bool)
    reads ex
  {
    if a.Again? then Between(ex) && ex.phase == (if canceled then Ended else RetryWanted) else Handed(ex)
  }

  /** Consulting the controller and acting on what it said; nothing, if the pass goes on. A retry goes round again
      exactly when it was asked for, the request may be repeated, its delay passed undisturbed and both budgets
      hold; a failure is carried out exactly when it was asked for and its delay passed. */
  method Consulted(ex: Exchange, policy: Policy, n: nat, forwardable: bool, p: Pass) returns (a: Option<Answered>)
    requires Sent(ex, n)
    modifies ex
    ensures Frame(ex, old(ex.maxRoundTrips), old(ex.maxElapsed), old(ex.configured), old(ex.count))
    ensures a.None? ==> Answerable(ex, n)
    ensures a.Some? ==> Leaves(ex, a.value, p.finishCanceled) && a.value in {Again, Failure(RecoveryFailed)}
    ensures if policy.hasController then old(ex.trace) + [RecoveryStarted(n)] <= ex.trace else ex.trace == old(ex.trace)
    ensures policy.hasController ==> After(ex.trace).cycle == Over(Ending(ex.Limits(), n, forwardable, p.consult))
    ensures a == Some(Again) <==>
      && policy.hasController && p.consult.answer.Answered?
      && p.consult.answer.action == Retry && p.consult.answer.afterMs >= 0
      && n < ex.maxRoundTrips && !ex.needsKey
      && (p.consult.answer.afterMs > 0 ==> !p.consult.interrupted)
      && (ex.maxElapsed > 0 ==>
            && p.consult.elapsed < ex.maxElapsed && p.consult.elapsedAfter < ex.maxElapsed
            && (p.consult.answer.afterMs > 0 ==>
                  p.consult.answer.afterMs * 1_000_000 < ex.maxElapsed - p.consult.elapsed))
    ensures a == Some(Failure(RecoveryFailed)) <==>
      && policy.hasController && p.consult.answer.Answered?
      && p.consult.answer.action == Fail && p.consult.answer.afterMs >= 0
      && (p.consult.answer.afterMs > 0 ==>
            && !p.consult.interrupted
            && (ex.maxElapsed > 0 && p.consult.elapsed < ex.maxElapsed ==>
                  p.consult.answer.afterMs * 1_000_000 < ex.maxElapsed - p.consult.elapsed))
  {
    HowCyclesEnd(ex.Limits(), n, forwardable, p.consult);
    var r := Recover(ex, policy, n, forwardable, p.consult);
    if r == RetryIt {
      var _ := FinishPass(ex, n, true, p.finishCanceled);
      return Some(Again);
    }
    if r == FailIt {
      var _ := FinishPass(ex, n, true, p.finishCanceled);
      return Some(Failure(RecoveryFailed));
    }
    a := None;
  }

  /** The transport returned an error: the trigger that fits it, if the policy has it, consults the controller. */
  method OnError(ex: Exchange, policy: Option<Policy>, n: nat, timedOut: bool, p: Pass) returns (a: Answered)
    requires Sent(ex, n)
    modifies ex
    ensures Frame(ex, old(ex.maxRoundTrips), old(ex.maxElapsed), old(ex.configured), old(ex.count))
    ensures Leaves(ex, a, p.finishCanceled)
    ensures
      var enabled := policy.Some? && if timedOut then policy.value.headerTimeout > 0 else policy.value.transportError;
      if enabled && policy.value.hasController then
        && old(ex.trace) + [RecoveryStarted(n)] <= ex.trace
        && a == match Ending(ex.Limits(), n, false, p.consult)
          case RetryRequested => Again
          case Failed => Failure(RecoveryFailed)
          case _ => Failure(TransportFailed)
      else
        ex.trace == old(ex.trace) + [Closed(n)] && a == Failure(TransportFailed)
  {
    HowCyclesEnd(ex.Limits(), n, false, p.consult);
    if policy.Some? && (if timedOut then policy.value.headerTimeout > 0 else policy.value.transportError) {
      var verdict := Consulted(ex, policy.value, n, false, p);
      if verdict.Some? {
        return verdict.value;
      }
    }
    var retry := FinishPass(ex, n, true, p.finishCanceled);
    assert !retry;
    a := Failure(TransportFailed);
  }

  /** The status trigger matched: capture the response and consult the controller. */
  method OnUnexpected(ex: Exchange, policy: Policy, n: nat, hasBody: bool, readFails: bool,
                      p: Pass) returns (a: Option<Answered>)
    requires Sent(ex, n)
    modifies ex
    ensures Frame(ex, old(ex.maxRoundTrips), old(ex.maxElapsed), old(ex.configured), old(ex.count))
    ensures a.None? ==> Answerable(ex, n)
    ensures a.Some? ==> Leaves(ex, a.value, p.finishCanceled)
    ensures !hasBody || policy.captureLimit <= 0 ==>
      a == Some(Failure(RecoveryFailed)) && ex.trace == old(ex.trace) + [Closed(n)]
    ensures hasBody && policy.captureLimit > 0 && readFails ==>
      a == Some(Failure(CaptureFailed)) && ex.trace == old(ex.trace) + [Closed(n)]
    ensures hasBody && policy.captureLimit > 0 && !readFails ==>
      && (if policy.hasController then old(ex.trace) + [RecoveryStarted(n)] <= ex.trace else ex.trace == old(ex.trace))
      && a == if !policy.hasController then None
              else match Ending(ex.Limits(), n, true, p.consult)
                case RetryRequested => Some(Again)
                case Failed => Some(Failure(RecoveryFailed))
                case _ => None
  {
    HowCyclesEnd(ex.Limits(), n, true, p.consult);
    if CaptureRefused(policy, hasBody) {
      var _ := FinishPass(ex, n, true, p.finishCanceled);
      return Some(Failure(RecoveryFailed));
    }
    if readFails {
      var _ := FinishPass(ex, n, true, p.finishCanceled);
      return Some(Failure(CaptureFailed));
    }
    a := Consulted(ex, policy, n, true, p);
  }

  /** A response is handed out, unless a module rejects it. */
  method HandOut(ex: Exchange, n: nat, hasBody: bool, p: Pass) returns (a: Answered)
    requires Answerable(ex, n)
    modifies ex
    ensures Frame(ex, old(ex.maxRoundTrips), old(ex.maxElapsed), old(ex.configured), old(ex.count))
    ensures Handed(ex) && a == if p.responseMutationFails then Failure(ModuleFailed) else Answer(hasBody)
    ensures a.Answer? ==> 0 < ex.count == ex.current && ex.phase == StreamingResponse && After(ex.trace).responded
    ensures ex.trace == old(ex.trace) + if a.Answer? then [Responded(n)] else [Closed(n)]
  {
    if p.responseMutationFails {
      var _ := FinishPass(ex, n, true, p.finishCanceled);
      return Failure(ModuleFailed);
    }
    Extend(ex.Limits(), ex.trace, Responded(n));
    var retry := ex.FinishRoundTrip(n, true, false, p.finishCanceled);
    assert !retry;   // the decision to go round again was taken above or not at all
    ex.trace := ex.trace + [Responded(n)];
    a := Answer(hasBody);
  }

  /** What comes out when the controller asks for nothing. */
  function Plain(policy: Option<Policy>, p: Pass): Answered {
    match p.upstream
    case Broken(_) => Failure(TransportFailed)
    case NoResponse => Nothing
    case Response(hasBody, unexpected, readFails) =>
      if policy.Some? && unexpected && CaptureRefused(policy.value, hasBody) then Failure(RecoveryFailed)
      else if policy.Some? && unexpected && readFails then Failure(CaptureFailed)
      else if p.responseMutationFails then Failure(ModuleFailed)
      else Answer(hasBody)
  }

  /** Whether what the upstream did makes the transport consult the controller. */
  predicate Triggered(policy: Policy, u: Upstream) {
    && policy.hasController
    && match u
       case Broken(timedOut) => if timedOut then policy.headerTimeout > 0 else policy.transportError
       case NoResponse => false
       case Response(hasBody, unexpected, readFails) => unexpected && !CaptureRefused(policy, hasBody) && !readFails
  }

  /** What a round trip that was sent comes to. */
  function SentOutcome(l: Limits, policy: Option<Policy>, n: nat, p: Pass): Answered {
    if policy.Some? && Triggered(policy.value, p.upstream) then
      match Ending(l, n, p.upstream.Response?, p.consult)
      case RetryRequested => Again
      case Failed => Failure(RecoveryFailed)
      case _ => Plain(policy, p)
    else Plain(policy, p)
  }

  /** A response arrived. */
  method OnResponse(ex: Exchange, policy: Option<Policy>, n: nat, p: Pass) returns (a: Answered)
    requires Sent(ex, n) && p.upstream.Response?
    modifies ex
    ensures Frame(ex, old(ex.maxRoundTrips), old(ex.maxElapsed), old(ex.configured), old(ex.count))
    ensures Leaves(ex, a, p.finishCanceled)
    ensures a == SentOutcome(ex.Limits(), policy, n, p)
    ensures policy.Some? && Triggered(policy.value, p.upstream) ==> old(ex.trace) + [RecoveryStarted(n)] <= ex.trace
    ensures (policy.None? || !p.upstream.unexpected) && !p.responseMutationFails ==> a == Answer(p.upstream.hasBody)
    ensures a.Answer? ==> 0 < ex.count == ex.current && ex.phase == StreamingResponse && After(ex.trace).responded
  {
    var Response(hasBody, unexpected, readFails) := p.upstream;
    if policy.Some? && unexpected {
      var verdict := OnUnexpected(ex, policy.value, n, hasBody, readFails, p);
      if verdict.Some? {
        return verdict.value;
      }
    }
    a := HandOut(ex, n, hasBody, p);
  }

  /** Everything after the upstream answered. */
  method Conclude(ex: Exchange, policy: Option<Policy>, n: nat, p: Pass) returns (a: Answered)
    requires Sent(ex, n)
    modifies ex
    ensures Frame(ex, old(ex.maxRoundTrips), old(ex.maxElapsed), old(ex.configured), old(ex.count))
    ensures Leaves(ex, a, p.finishCanceled)
    ensures a == SentOutcome(ex.Limits(), policy, n, p)
    ensures policy.Some? && Triggered(policy.value, p.upstream) ==> old(ex.trace) + [RecoveryStarted(n)] <= ex.trace
    ensures p.upstream.NoResponse? ==> a == Nothing
    ensures a.Answer? ==> 0 < ex.count == ex.current && ex.phase == StreamingResponse && After(ex.trace).responded
  {
    match p.upstream {
      case Broken(timedOut) =>
        a := OnError(ex, policy, n, timedOut, p);
      case NoResponse =>
        var retry := FinishPass(ex, n, false, p.finishCanceled);
        assert !retry;
        a := Nothing;
      case Response(_, _, _) =>
        a := OnResponse(ex, policy, n, p);
    }
  }

  /** What one pass comes to; `ended` says that an earlier one ended the exchange. */
  function PassOutcome(l: Limits, configured: bool, ended: bool, policy: Option<Policy>, p: Pass, n: nat): Answered {
    if Barred(l, configured, ended, p, n).Some? then Failure(Barred(l, configured, ended, p, n).value)
    else if Mishap(p).Some? then Failure(Mishap(p).value)
    else SentOutcome(l, policy, n, p)
  }

  /** One pass of the transport loop. */
  method Attempt(ex: Exchange, policy: Option<Policy>, p: Pass) returns (a: Answered)
    requires Between(ex)
    modifies ex
    ensures Frame(ex, old(ex.maxRoundTrips), old(ex.maxElapsed), old(ex.configured), ex.count)
    ensures Leaves(ex, a, p.finishCanceled)
    ensures var (ended, n) := (old(ex.phase) == Ended, old(ex.count) + 1);
      && a == PassOutcome(ex.Limits(), ex.configured, ended, policy, p, n)
      && ex.count == if Barred(ex.Limits(), ex.configured, ended, p, n).Some? then old(ex.count) else n
    ensures a.Answer? ==> 0 < ex.count == ex.current && ex.phase == StreamingResponse && After(ex.trace).responded
  {
    var prepared := Prepare(ex, p);
    if prepared.Err? {
      return Failure(prepared.error);
    }
    a := Conclude(ex, policy, prepared.value, p);
  }

  datatype Final = Delivered(hasBody: bool) | Empty | Aborted(error: Error)

  /** The server's limits on recovery; zero means none. */
  datatype Server = Server(roundTrips: int, elapsed: nat, captureBytes: int)

  /** The policy with its capture limit lowered to the server's. */
  function Effective(policy: Option<Policy>, server: Server): Option<Policy> {
    match policy
    case None => None
    case Some(p) => Some(p.(captureLimit := Limited(p.captureLimit, server.captureBytes)))
  }

  /** Nothing else of the policy changes, and what is captured is within both limits. */
  lemma EffectiveCapture(policy: Policy, server: Server)
    ensures var e := Effective(Some(policy), server);
      && e == Some(policy.(captureLimit := e.value.captureLimit))
      && e.value.captureLimit ==
           if server.captureBytes > 0 && policy.captureLimit > server.captureBytes then server.captureBytes
           else policy.captureLimit
    ensures Effective(None, server) == None
  {}

  /** Ready for the transport: nothing has begun and nothing was reported. */
  ghost predicate Unused(ex: Exchange)
    reads ex
  {
    && ex.trace == [] && ex.count == 0 && ex.current == 0 && ex.closed == {}
    && !ex.completed && !ex.requestEnded
  }

  /** limitRecoveryPolicy and ConfigureRecovery, as the transport calls them. */
  method LimitRecovery(ex: Exchange, policy: Option<Policy>, server: Server)
    requires Unused(ex)
    modifies ex`maxRoundTrips, ex`maxElapsed
    ensures Unused(ex) && Between(ex)
    ensures policy.None? ==> ex.maxRoundTrips == old(ex.maxRoundTrips) && ex.maxElapsed == old(ex.maxElapsed)
    ensures policy.Some? ==> ex.maxRoundTrips == Budget(policy.value.roundTrips, server.roundTrips)
    ensures policy.Some? ==> ex.maxElapsed == TimeBudget(policy.value.elapsed, server.elapsed)
  {
    if policy.Some? {
      var p := policy.value;
      BudgetTightens(p.roundTrips, server.roundTrips, p.elapsed, server.elapsed);
      ex.ConfigureRecovery(Limited(p.roundTrips, server.roundTrips), Limited(p.elapsed, server.elapsed),
                           server.roundTrips, server.elapsed);
    }
  }

  /** The most round trips a request may begin. */
  function Trips(policy: Option<Policy>, server: Server): nat {
    if policy.None? then 1 else Budget(policy.value.roundTrips, server.roundTrips)
  }

  /** What the caller of the transport gets of a pass that does not go round again. */
  function Handing(a: Answered): Final {
    match a
    case Answer(hasBody) => Delivered(hasBody)
    case Failure(error) => Aborted(error)
    case _ => Empty
  }

  /** The passes' answers from outside, and whether the exchange was over before the first. */
  datatype Session = Session(limits: Limits, configured: bool, over: bool, policy: Option<Policy>, env: nat -> Pass)

  /** The exchange is over before pass i: a pass that goes round again after the request was cancelled ends it. */
  predicate OverAt(x: Session, i: nat) { if i == 0 then x.over else x.env(i - 1).finishCanceled }

  /** What pass i comes to. */
  function PassAt(x: Session, i: nat): Answered {
    PassOutcome(x.limits, x.configured, OverAt(x, i), x.policy, x.env(i), i + 1)
  }

  /** Pass i begins a round trip. */
  predicate PassStarts(x: Session, i: nat) { Barred(x.limits, x.configured, OverAt(x, i), x.env(i), i + 1).None? }

  /** The first k passes go round again. */
  ghost predicate GoesRound(x: Session, k: nat) { forall i: nat :: i < k ==> PassAt(x, i) == Again }

  /** The first k passes go round again and the next one does not. */
  ghost predicate EndsAt(x: Session, k: nat) { PassAt(x, k) != Again && GoesRound(x, k) }

  /** The transport's result is that of the first pass that does not go round again. */
  ghost predicate Ran(x: Session, f: Final, count: nat) {
    exists k: nat :: EndsAt(x, k) && f == Handing(PassAt(x, k)) &&
      count == if PassStarts(x, k) then k + 1 else k
  }

  /** Nothing outside keeps round trip n from being sent. */
  predicate Undisturbed(p: Pass) {
    && !p.topCanceled && !p.beginCanceled && !p.scopeFails && !p.bodyFails && !p.buildFails
    && !p.requestMutationFails && !p.upstreamCanceled
  }

  /** Round trip n is sent, its end triggers a recovery, and the controller's retry is within every limit. */
  predicate Retried(l: Limits, policy: Policy, p: Pass, n: nat) {
    && Undisturbed(p) && !p.finishCanceled && Triggered(policy, p.upstream)
    && Said(p.consult, Retry) && p.consult.answer.afterMs >= 0
    && n < l.maxRoundTrips && !l.needsKey
    && (p.consult.answer.afterMs > 0 ==> !p.consult.interrupted)
    && (l.maxElapsed > 0 ==>
          && p.consult.elapsed < l.maxElapsed && p.consult.elapsedAfter < l.maxElapsed
          && (p.consult.answer.afterMs > 0 ==>
                p.consult.answer.afterMs * MILLISECOND < l.maxElapsed - p.consult.elapsed))
  }

  lemma RetriedGoesRound(x: Session, i: nat)
    requires x.configured && !x.over && x.policy.Some? && Retried(x.limits, x.policy.value, x.env(i), i + 1)
    requires i > 0 ==> !x.env(i - 1).finishCanceled
    ensures PassAt(x, i) == Again
  {
    HowCyclesEnd(x.limits, i + 1, x.env(i).upstream.Response?, x.env(i).consult);
  }

  /** There is one pass at which a run ends. */
  lemma OneEnd(x: Session, j: nat, k: nat)
    requires EndsAt(x, j) && EndsAt(x, k)
    ensures j == k
  {}

  lemma Stops(x: Session, i: nat, a: Answered)
    requires GoesRound(x, i) && a == PassAt(x, i) != Again
    ensures Ran(x, Handing(a), if PassStarts(x, i) then i + 1 else i)
  {
    assert EndsAt(x, i);
  }

  lemma OneMore(x: Session, i: nat)
    requires GoesRound(x, i) && PassAt(x, i) == Again
    ensures GoesRound(x, i + 1)
  {}

  /** After k retries within the limits, an undisturbed pass whose response nothing objects to delivers it, and
      one whose controller wants the request to fail aborts it. */
  lemma RetriesAreCarriedOut(x: Session, f: Final, count: nat, k: nat)
    requires Ran(x, f, count) && x.configured && !x.over && k < x.limits.maxRoundTrips
    requires x.policy.Some? && forall i: nat :: i < k ==> Retried(x.limits, x.policy.value, x.env(i), i + 1)
    requires Undisturbed(x.env(k))
    ensures var p := x.env(k);
      && (p.upstream.Response? && !p.upstream.unexpected && !p.responseMutationFails ==>
            f == Delivered(p.upstream.hasBody) && count == k + 1)
      && (Triggered(x.policy.value, p.upstream) && Said(p.consult, Fail) && p.consult.answer.afterMs == 0 ==>
            f == Aborted(RecoveryFailed) && count == k + 1)
  {
    var p := x.env(k);
    forall i: nat | i < k ensures PassAt(x, i) == Again { RetriedGoesRound(x, i); }
    var j: nat :| EndsAt(x, j) && f == Handing(PassAt(x, j)) && count == if PassStarts(x, j) then j + 1 else j;
    assert k > 0 ==> Retried(x.limits, x.policy.value, x.env(k - 1), k);
    HowCyclesEnd(x.limits, k + 1, p.upstream.Response?, p.consult);
    if PassAt(x, k) != Again { OneEnd(x, j, k); }
  }

  /** Pass i is about to begin. */
  ghost predicate AtPass(ex: Exchange, x: Session, i: nat)
    reads ex
  {
    && Between(ex) && ex.Limits() == x.limits && ex.configured == x.configured && ex.count == i
    && (ex.phase == Ended <==> OverAt(x, i))
  }

  method AttemptAt(ex: Exchange, ghost x: Session, i: nat, policy: Option<Policy>, p: Pass) returns (a: Answered)
    requires AtPass(ex, x, i) && policy == x.policy && p == x.env(i)
    modifies ex
    ensures a == PassAt(x, i) && ex.Limits() == x.limits && ex.configured == x.configured
    ensures if a == Again then AtPass(ex, x, i + 1) else Handed(ex)
    ensures a != Again ==> ex.count == if PassStarts(x, i) then i + 1 else i
    ensures a.Answer? ==> 0 < ex.count == ex.current && ex.phase == StreamingResponse
    ensures ex.count <= ex.maxRoundTrips
  {
    a := Attempt(ex, policy, p);
    Numbered(ex.Limits(), ex.trace);
  }

  /** The loop of RoundTrip. */
  method Loop(ex: Exchange, ghost x: Session, policy: Option<Policy>, env: nat -> Pass) returns (f: Final)
    requires AtPass(ex, x, 0) && policy == x.policy && env == x.env
    modifies ex
    ensures Handed(ex) && ex.Limits() == x.limits && ex.configured == x.configured
    ensures Ran(x, f, ex.count)
    ensures f.Delivered? ==> 0 < ex.count == ex.current && ex.phase == StreamingResponse
    ensures ex.count <= if policy.None? then 1 else ex.maxRoundTrips
  {
    var i: nat := 0;
    while true
      invariant AtPass(ex, x, i) && GoesRound(x, i)
      invariant if policy.None? then i == 0 else i <= ex.maxRoundTrips
      decreases x.limits.maxRoundTrips - i
    {
      var a := AttemptAt(ex, x, i, policy, env(i));
      if a == Again { OneMore(x, i); } else { Stops(x, i, a); }
      match a {
        case Again => i := i + 1;
        case Answer(hasBody) => return Delivered(hasBody);
        case Nothing => return Empty;
        case Failure(error) => return Aborted(error);
      }
    }
  }

  /** RoundTrip, for any sequence of answers from outside: the result is that of the first pass that does not go
      round again; at most the policy's budget tightened by the server's limit begins, and without a policy one. */
  method RoundTrip(ex: Exchange, policy: Option<Policy>, server: Server, bodyStarted: bool, hasTarget: bool,
                   env: nat -> Pass)
    returns (f: Final)
    requires Unused(ex)
    modifies ex
    ensures Handed(ex) && ex.configured == old(ex.configured)
    ensures policy.Some? && bodyStarted && hasTarget ==>
      && ex.maxRoundTrips == Budget(policy.value.roundTrips, server.roundTrips)
      && ex.maxElapsed == TimeBudget(policy.value.elapsed, server.elapsed)
    ensures ex.count <= Trips(policy, server)
    ensures !bodyStarted ==> ex.count == 0 && f == Aborted(BodyUnavailable)
    ensures bodyStarted && !hasTarget ==> ex.count == 0 && f == Aborted(ResolverFailed)
    ensures bodyStarted && hasTarget ==>
      Ran(Session(ex.Limits(), ex.configured, old(ex.phase) == Ended, Effective(policy, server), env), f, ex.count)
    ensures f.Delivered? ==> 0 < ex.count == ex.current && ex.phase == StreamingResponse
  {
    if !bodyStarted {
      return Aborted(BodyUnavailable);
    }
    if !hasTarget {
      return Aborted(ResolverFailed);
    }
    LimitRecovery(ex, policy, server);
    var effective := Effective(policy, server);
    f := Loop(ex, Session(ex.Limits(), ex.configured, ex.phase == Ended, effective, env), effective, env);
  }

  method BodyEnds(ex: Exchange, times: nat)
    requires Handed(ex) && 0 < ex.count == ex.current
    modifies ex
    ensures Handed(ex) && Frame(ex, old(ex.maxRoundTrips), old(ex.maxElapsed), old(ex.configured), old(ex.count))
    ensures times > 0 ==> ex.count in ex.closed && ex.current == 0
  {
    var n := ex.current;
    var k := 0;
    while k < times
      invariant Handed(ex) && n == ex.count && (k > 0 ==> n in ex.closed && ex.current == 0)
      invariant Frame(ex, old(ex.maxRoundTrips), old(ex.maxElapsed), old(ex.configured), old(ex.count))
    {
      if n !in ex.closed { Extend(ex.Limits(), ex.trace, Closed(n)); }
      assert ex.trace + [] == ex.trace;
      ex.FinishUpstream(n);
      k := k + 1;
    }
  }

  /** A request is over: every round trip begun was closed once, every recovery cycle started was finished,
      and the single end of the request came last. */
  ghost predicate Finished(ex: Exchange)
    reads ex
  {
    && Accepts(ex.Limits(), ex.trace) && ex.completed
    && Count(ex.trace, IsBegun) == Count(ex.trace, IsClosed) == ex.count
    && ex.trace != [] && ex.trace[|ex.trace| - 1] == RequestFinished
    && Count(ex.trace, IsStarted) == Count(ex.trace, IsFinished)
  }

  method CompleteExchange(ex: Exchange)
    requires Handed(ex)
    modifies ex
    ensures Finished(ex)
    ensures Frame(ex, old(ex.maxRoundTrips), old(ex.maxElapsed), old(ex.configured), old(ex.count))
  {
    ghost var (l, t, n) := (ex.Limits(), ex.trace, ex.current);
    ghost var mid := t + if n == 0 || n in ex.closed then [] else [Closed(n)];
    if n != 0 && n !in ex.closed { Extend(l, t, Closed(n)); } else { assert mid == t; }
    Extend(l, mid, RequestFinished);
    ex.Complete();
    Numbered(l, ex.trace);
    CyclesBalance(l, ex.trace);
  }

  /** The transport, then the response body's end any number of times (or never), then Complete. */
  method Serve(ex: Exchange, policy: Option<Policy>, server: Server, bodyStarted: bool, hasTarget: bool,
               env: nat -> Pass, bodyEnds: nat)
    returns (f: Final)
    requires Unused(ex)
    modifies ex
    ensures Finished(ex) && ex.count <= Trips(policy, server) && ex.configured == old(ex.configured)
    ensures !bodyStarted ==> ex.count == 0 && f == Aborted(BodyUnavailable)
    ensures bodyStarted && !hasTarget ==> ex.count == 0 && f == Aborted(ResolverFailed)
    ensures bodyStarted && hasTarget ==>
      Ran(Session(ex.Limits(), ex.configured, old(ex.phase) == Ended, Effective(policy, server), env), f, ex.count)
    ensures policy.Some? && bodyStarted && hasTarget ==>
      && ex.maxRoundTrips == Budget(policy.value.roundTrips, server.roundTrips)
      && ex.maxElapsed == TimeBudget(policy.value.elapsed, server.elapsed)
  {
    f := RoundTrip(ex, policy, server, bodyStarted, hasTarget, env);
    if f.Delivered? && f.hasBody {
      BodyEnds(ex, bodyEnds);
    }
    CompleteExchange(ex);
  }

  /** A whole request as the handler runs it: a new exchange is configured, served and completed, whatever happens. */
  method Handle(managerMax: int, needsKey: bool, hasTarget: bool, programStarts: bool, policy: Option<Policy>,
                server: Server,
                bodyStarted: bool, env: nat -> Pass, bodyEnds: nat)
    returns (ex: Exchange, f: Final)
    ensures fresh(ex) && Finished(ex) && ex.count <= Trips(policy, server)
    ensures !hasTarget ==> ex.count == 0 && f == Aborted(DirectiveInvalid)
    ensures hasTarget && !programStarts ==> ex.count == 0 && f == Aborted(ProgramFailed)
    ensures hasTarget && programStarts && !bodyStarted ==> ex.count == 0 && f == Aborted(BodyUnavailable)
    ensures hasTarget && programStarts && bodyStarted ==>
      Ran(Session(ex.Limits(), true, false, Effective(policy, server), env), f, ex.count)
    ensures policy.Some? && hasTarget && programStarts && bodyStarted ==>
      ex.Limits() == Limits(Budget(policy.value.roundTrips, server.roundTrips),
                            TimeBudget(policy.value.elapsed, server.elapsed), needsKey)
  {
    ex := new Exchange(managerMax, needsKey);
    var err := ex.Configure(hasTarget, programStarts);
    if err.Some? {
      CompleteExchange(ex);
      return ex, Aborted(err.value);
    }
    f := Serve(ex, policy, server, bodyStarted, hasTarget, env, bodyEnds);
  }
}
