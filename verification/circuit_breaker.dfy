/**
 * utils/circuit_breaker.py: a breaker that lets calls through while CLOSED,
 * short-circuits them while OPEN and admits a few trial calls while
 * HALF_OPEN. The clock is a parameter; the lock is left out (the model is
 * sequential), and so are the optional console logging and the decorators.
 *
 * `BreakerState` and the functions over it state what each step does;
 * class `CircuitBreaker` holds the same fields and is proved to follow them.
 */
module BreakerSpec {

  datatype Phase = Closed | Open | HalfOpen

  /** Everything the breaker keeps: its settings, its state and its counters. */
  datatype BreakerState = BreakerState(
    failureThreshold: int,
    recoveryTime: real,
    halfOpenMaxCalls: int,
    phase: Phase,
    failures: int,
    openedAt: real,
    halfOpenInflight: int,
    openedCount: int,
    closedCount: int,
    halfOpenCount: int)

  /** `CircuitBreaker(name, failure_threshold, recovery_time, half_open_max_calls)`:
      both limits are raised to at least 1; the breaker starts CLOSED. */
  function New(failureThreshold: int, recoveryTime: real, halfOpenMaxCalls: int): BreakerState {
    BreakerState(if failureThreshold < 1 then 1 else failureThreshold, recoveryTime,
                 if halfOpenMaxCalls < 1 then 1 else halfOpenMaxCalls,
                 Closed, 0, 0.0, 0, 0, 0, 0)
  }

  /** `_can_pass()` at time `now`: OPEN turns HALF_OPEN once the recovery time
      has passed since it opened (and lets that call through); HALF_OPEN lets
      a call through while fewer than the limit are in flight; CLOSED always does. */
  function CanPass(b: BreakerState, now: real): (bool, BreakerState) {
    match b.phase
    case Open =>
      if now - b.openedAt >= b.recoveryTime then
        (true, b.(phase := HalfOpen, halfOpenInflight := 0, halfOpenCount := b.halfOpenCount + 1))
      else (false, b)
    case HalfOpen => (b.halfOpenInflight < b.halfOpenMaxCalls, b)
    case Closed => (true, b)
  }

  /** `_on_success()`: any success closes the breaker and clears the failures. */
  function OnSuccess(b: BreakerState): BreakerState {
    if b.phase == Open || b.phase == HalfOpen then
      b.(phase := Closed, failures := 0, halfOpenInflight := 0, closedCount := b.closedCount + 1)
    else b.(failures := 0)
  }

  /** `_on_failure()` at time `now`: a failed trial call reopens at once;
      otherwise the failure is counted and the breaker opens when the count
      reaches the threshold. */
  function OnFailure(b: BreakerState, now: real): BreakerState {
    if b.phase == HalfOpen then
      b.(phase := Open, openedAt := now, halfOpenInflight := 0, openedCount := b.openedCount + 1)
    else
      var f := b.failures + 1;
      if f >= b.failureThreshold then
        b.(failures := f, phase := Open, openedAt := now, openedCount := b.openedCount + 1)
      else b.(failures := f)
  }

  /** `__enter__()` at time `now`: false where the source raises
      `CircuitOpenError`; an admitted trial call is counted as in flight. */
  function Enter(b: BreakerState, now: real): (bool, BreakerState) {
    var (ok, b1) := CanPass(b, now);
    if !ok then (false, b1)
    else if b1.phase == HalfOpen then (true, b1.(halfOpenInflight := b1.halfOpenInflight + 1))
    else (true, b1)
  }

  /** `__exit__()` at time `now`: success or failure of the guarded call. */
  function Exit(b: BreakerState, failed: bool, now: real): BreakerState {
    if failed then OnFailure(b, now) else OnSuccess(b)
  }

  /** What every step keeps: both limits at least 1, a CLOSED breaker below its
      failure threshold, and trial calls in flight only while HALF_OPEN, never
      more than the limit. */
  predicate Inv(b: BreakerState) {
    && b.failureThreshold >= 1
    && b.halfOpenMaxCalls >= 1
    && b.failures >= 0
    && (b.phase == Closed ==> b.failures < b.failureThreshold)
    && 0 <= b.halfOpenInflight <= b.halfOpenMaxCalls
    && (b.phase != HalfOpen ==> b.halfOpenInflight == 0)
    && b.openedCount >= 0 && b.closedCount >= 0 && b.halfOpenCount >= 0
  }

  /** The three transition counters never decrease. */
  predicate CountersGrow(b: BreakerState, r: BreakerState) {
    r.openedCount >= b.openedCount && r.closedCount >= b.closedCount && r.halfOpenCount >= b.halfOpenCount
  }

  lemma NewInv(failureThreshold: int, recoveryTime: real, halfOpenMaxCalls: int)
    ensures Inv(New(failureThreshold, recoveryTime, halfOpenMaxCalls))
    ensures New(failureThreshold, recoveryTime, halfOpenMaxCalls).failureThreshold >= 1
    ensures failureThreshold >= 1 ==> New(failureThreshold, recoveryTime, halfOpenMaxCalls).failureThreshold == failureThreshold
    ensures halfOpenMaxCalls >= 1 ==> New(failureThreshold, recoveryTime, halfOpenMaxCalls).halfOpenMaxCalls == halfOpenMaxCalls
  {
  }

  /** Entering keeps the invariant and only counts upwards. */
  lemma EnterInv(b: BreakerState, now: real)
    requires Inv(b)
    ensures Inv(Enter(b, now).1) && CountersGrow(b, Enter(b, now).1)
  {
  }

  /** Leaving keeps the invariant and only counts upwards. */
  lemma ExitInv(b: BreakerState, failed: bool, now: real)
    requires Inv(b)
    ensures Inv(Exit(b, failed, now)) && CountersGrow(b, Exit(b, failed, now))
  {
  }

  /** While CLOSED every call passes and nothing changes on entry. */
  lemma ClosedAdmits(b: BreakerState, now: real)
    requires b.phase == Closed
    ensures Enter(b, now) == (true, b)
  {
  }

  /** A failure while CLOSED counts one more failure, and opens the breaker
      (stamped with `now`) exactly when the count reaches the threshold. */
  lemma ClosedFailure(b: BreakerState, now: real)
    requires b.phase == Closed
    ensures OnFailure(b, now).failures == b.failures + 1
    ensures OnFailure(b, now).phase == Open <==> b.failures + 1 >= b.failureThreshold
    ensures OnFailure(b, now).phase == Open ==> OnFailure(b, now).openedAt == now && OnFailure(b, now).openedCount == b.openedCount + 1
    ensures OnFailure(b, now).phase != Open ==> OnFailure(b, now).phase == Closed
  {
  }

  /** While OPEN, entry is refused until the recovery time has passed; from
      then on the call goes through as the first trial call of HALF_OPEN. */
  lemma OpenWaitsForRecovery(b: BreakerState, now: real)
    requires b.phase == Open
    ensures !Enter(b, now).0 <==> now - b.openedAt < b.recoveryTime
    ensures !Enter(b, now).0 ==> Enter(b, now).1 == b
    ensures Enter(b, now).0 ==> Enter(b, now).1.phase == HalfOpen && Enter(b, now).1.halfOpenInflight == 1
  {
  }

  /** While HALF_OPEN a call is admitted exactly when fewer than the limit are in flight, and is then counted. */
  lemma HalfOpenAdmitsUpToLimit(b: BreakerState, now: real)
    requires b.phase == HalfOpen
    ensures Enter(b, now).0 <==> b.halfOpenInflight < b.halfOpenMaxCalls
    ensures Enter(b, now).0 ==> Enter(b, now).1.halfOpenInflight == b.halfOpenInflight + 1
    ensures !Enter(b, now).0 ==> Enter(b, now).1 == b
  {
  }

  /** Any success closes the breaker with no failures; a failed trial call reopens it whatever the count. */
  lemma ExitOutcomes(b: BreakerState, now: real)
    ensures Exit(b, false, now).phase == Closed && Exit(b, false, now).failures == 0
    ensures b.phase == HalfOpen ==> Exit(b, true, now).phase == Open && Exit(b, true, now).openedAt == now
  {
  }

  /** A run of guarded calls, each entered at a time and either failing or not. */
  datatype Call = Call(now: real, failed: bool)

  /** The breaker after `calls`, each entered and, when admitted, exited. */
  function Run(b: BreakerState, calls: seq<Call>): BreakerState
    decreases |calls|
  {
    if calls == [] then b
    else
      var c := calls[0];
      var (ok, b1) := Enter(b, c.now);
      Run(if ok then Exit(b1, c.failed, c.now) else b1, calls[1..])
  }

  /** Over any run the invariant holds and the counters only grow. */
  lemma {:induction false} RunInv(b: BreakerState, calls: seq<Call>)
    requires Inv(b)
    ensures Inv(Run(b, calls)) && CountersGrow(b, Run(b, calls))
    decreases |calls|
  {
    if calls != [] {
      var c := calls[0];
      var (ok, b1) := Enter(b, c.now);
      EnterInv(b, c.now);
      var b2 := if ok then Exit(b1, c.failed, c.now) else b1;
      if ok {
        ExitInv(b1, c.failed, c.now);
      }
      RunInv(b2, calls[1..]);
    }
  }

  /** `stats()`: the state and counters as the source reports them. */
  datatype Stats = Stats(
    name: string,
    phase: Phase,
    failures: int,
    openedAt: real,
    halfOpenInflight: int,
    openedCount: int,
    closedCount: int,
    halfOpenCount: int)

}

/** The breaker object of utils/circuit_breaker.py. */
module CircuitBreakers {
  import opened BreakerSpec

  /** The breaker object; `Model()` is the state it represents. */
  class CircuitBreaker {
    const name: string
    const failureThreshold: int
    const recoveryTime: real
    const halfOpenMaxCalls: int
    var phase: Phase
    var failures: int
    var openedAt: real
    var halfOpenInflight: int
    var openedCount: int
    var closedCount: int
    var halfOpenCount: int

    function Model(): BreakerState
      reads this
    {
      BreakerState(failureThreshold, recoveryTime, halfOpenMaxCalls, phase, failures, openedAt,
                   halfOpenInflight, openedCount, closedCount, halfOpenCount)
    }

    predicate Valid()
      reads this
    {
      Inv(Model())
    }

    constructor (name: string, failureThreshold: int, recoveryTime: real, halfOpenMaxCalls: int)
      ensures Valid() && Model() == New(failureThreshold, recoveryTime, halfOpenMaxCalls) && this.name == name
    {
      this.name := name;
      this.failureThreshold := if failureThreshold < 1 then 1 else failureThreshold;
      this.recoveryTime := recoveryTime;
      this.halfOpenMaxCalls := if halfOpenMaxCalls < 1 then 1 else halfOpenMaxCalls;
      phase := Closed;
      failures := 0;
      openedAt := 0.0;
      halfOpenInflight := 0;
      openedCount := 0;
      closedCount := 0;
      halfOpenCount := 0;
    }

    method CanPass(now: real) returns (ok: bool)
      modifies this
      ensures ok == BreakerSpec.CanPass(old(Model()), now).0
      ensures Model() == BreakerSpec.CanPass(old(Model()), now).1
    {
      if phase == Open {
        if now - openedAt >= recoveryTime {
          phase := HalfOpen;
          halfOpenInflight := 0;
          halfOpenCount := halfOpenCount + 1;
          return true;
        }
        return false;
      }
      if phase == HalfOpen {
        return halfOpenInflight < halfOpenMaxCalls;
      }
      return true;
    }

    method OnSuccess()
      modifies this
      ensures Model() == BreakerSpec.OnSuccess(old(Model()))
    {
      if phase == Open || phase == HalfOpen {
        phase := Closed;
        failures := 0;
        halfOpenInflight := 0;
        closedCount := closedCount + 1;
      } else {
        failures := 0;
      }
    }

    method OnFailure(now: real)
      modifies this
      ensures Model() == BreakerSpec.OnFailure(old(Model()), now)
    {
      if phase == HalfOpen {
        phase := Open;
        openedAt := now;
        halfOpenInflight := 0;
        openedCount := openedCount + 1;
        return;
      }
      failures := failures + 1;
      if failures >= failureThreshold {
        phase := Open;
        openedAt := now;
        openedCount := openedCount + 1;
      }
    }

    /** `__enter__()`: `admitted` is false where the source raises `CircuitOpenError`. */
    method Enter(now: real) returns (admitted: bool)
      requires Valid()
      modifies this
      ensures Valid()
      ensures admitted == BreakerSpec.Enter(old(Model()), now).0
      ensures Model() == BreakerSpec.Enter(old(Model()), now).1
    {
      EnterInv(Model(), now);
      admitted := CanPass(now);
      if !admitted {
        return;
      }
      if phase == HalfOpen {
        halfOpenInflight := halfOpenInflight + 1;
      }
    }

    /** `__exit__()`: `failed` is whether the guarded block raised. */
    method Exit(failed: bool, now: real)
      requires Valid()
      modifies this
      ensures Valid() && Model() == BreakerSpec.Exit(old(Model()), failed, now)
    {
      ExitInv(Model(), failed, now);
      if !failed {
        OnSuccess();
      } else {
        OnFailure(now);
      }
    }

    /** The `state` property. */
    function State(): Phase
      reads this
    {
      phase
    }

    /** `stats()` */
    method GetStats() returns (st: Stats)
      ensures st == Stats(name, Model().phase, Model().failures, Model().openedAt, Model().halfOpenInflight,
                          Model().openedCount, Model().closedCount, Model().halfOpenCount)
    {
      st := Stats(name, phase, failures, openedAt, halfOpenInflight, openedCount, closedCount, halfOpenCount);
    }
  }
}
