/**
 * The circuit breaker that guards calls to the assistant service: a
 * CLOSED / OPEN / HALF-OPEN machine with a failure counter, and a table
 * that creates one breaker per name on first use.
 *
 * The wrapped operation is an outcome passed in (`opOk`), and the clock is
 * the parameter `now`, read once per call.
 */
module CircuitBreakers {
  import opened Optional

  datatype BreakerState = Closed | Open | HalfOpen

  /** The fields `execute`, `recordFailure` and `reset` change; `null` is `None`. */
  datatype Fields = Fields(
    state: BreakerState,
    failureCount: nat,
    lastFailureTime: Option<int>,
    nextAttempt: Option<int>)

  /** What `execute` did: threw the "circuit is OPEN" error, or ran the operation. */
  datatype Outcome = Rejected(openUntil: int) | Succeeded | Failed

  /** One call of `execute`: the time it starts and whether the wrapped operation succeeds. */
  datatype Call = Call(now: int, opOk: bool)

  const DefaultMaxFailures: nat := 3
  const DefaultResetTimeout: nat := 30000

  /** A fresh breaker, and the state `reset()` returns to: CLOSED, no failures, no timestamps. */
  function Initial(): Fields {
    Fields(Closed, 0, None, None)
  }

  /** An OPEN breaker always knows when it may be retried. */
  predicate WellFormed(f: Fields) {
    f.state == Open ==> f.nextAttempt.Some?
  }

  /** `recordFailure()` at time `now`. */
  function AfterFailure(f: Fields, maxFailures: nat, resetTimeout: int, now: int): Fields {
    var count := f.failureCount + 1;
    if count >= maxFailures || f.state == HalfOpen then
      Fields(Open, count, Some(now), Some(now + resetTimeout))
    else
      f.(failureCount := count, lastFailureTime := Some(now))
  }

  /**
   * `execute(fn)` at time `now`. `Date.now() > this.nextAttempt` compares
   * with `null` as 0.
   */
  function Step(f: Fields, maxFailures: nat, resetTimeout: int, c: Call): (Fields, Outcome) {
    if f.state == Open && !(c.now > f.nextAttempt.GetOr(0)) then
      (f, Rejected(f.nextAttempt.GetOr(0)))
    else
      var g := if f.state == Open then f.(state := HalfOpen) else f;
      if c.opOk then
        (if g.state == HalfOpen then Initial() else g, Succeeded)
      else
        (AfterFailure(g, maxFailures, resetTimeout, c.now), Failed)
  }

  /** A sequence of calls made one after another. */
  function Trace(f: Fields, maxFailures: nat, resetTimeout: int, calls: seq<Call>): Fields
    decreases |calls|
  {
    if calls == [] then f
    else Trace(Step(f, maxFailures, resetTimeout, calls[0]).0, maxFailures, resetTimeout, calls[1..])
  }

  // ---------------------------------------------------------------------------
  // Properties of one call

  /** While OPEN and not yet past `nextAttempt`, the call throws without running the operation and nothing changes. */
  lemma OpenRejects(f: Fields, maxFailures: nat, resetTimeout: int, c: Call)
    requires f.state == Open && f.nextAttempt.Some? && c.now <= f.nextAttempt.value
    ensures Step(f, maxFailures, resetTimeout, c) == (f, Rejected(f.nextAttempt.value))
  {
  }

  /**
   * Past `nextAttempt`, an OPEN breaker runs the operation on trial: success
   * closes it with a zero count, failure re-opens it for another `resetTimeout`.
   */
  lemma TrialAfterTimeout(f: Fields, maxFailures: nat, resetTimeout: int, c: Call)
    requires f.state == Open && f.nextAttempt.Some? && c.now > f.nextAttempt.value
    ensures var (g, out) := Step(f, maxFailures, resetTimeout, c);
      if c.opOk then (out == Succeeded && g == Initial())
      else (out == Failed && g.state == Open && g.failureCount == f.failureCount + 1
        && g.nextAttempt == Some(c.now + resetTimeout) && g.lastFailureTime == Some(c.now))
  {
  }

  /**
   * Every failure that runs the operation counts one more failure, stamps the
   * failure time and opens the circuit exactly when the count reaches
   * `maxFailures` (or the call was a HALF-OPEN trial).
   */
  lemma FailureCounts(f: Fields, maxFailures: nat, resetTimeout: int, c: Call)
    requires f.state == Closed && !c.opOk
    ensures var (g, out) := Step(f, maxFailures, resetTimeout, c);
      && out == Failed
      && g.failureCount == f.failureCount + 1
      && g.lastFailureTime == Some(c.now)
      && (g.state == Open <==> f.failureCount + 1 >= maxFailures)
      && (g.state == Open ==> g.nextAttempt == Some(c.now + resetTimeout))
      && (g.state != Open ==> g.state == Closed && g.nextAttempt == f.nextAttempt)
  {
  }

  /** A success while CLOSED leaves every field as it was; in particular `failureCount` is not reset. */
  lemma ClosedSuccessKeepsCount(f: Fields, maxFailures: nat, resetTimeout: int, c: Call)
    requires f.state == Closed && c.opOk
    ensures Step(f, maxFailures, resetTimeout, c) == (f, Succeeded)
  {
  }

  /** Between calls the breaker is never HALF-OPEN, and an OPEN breaker always has a retry time. */
  lemma StepSettles(f: Fields, maxFailures: nat, resetTimeout: int, c: Call)
    requires WellFormed(f) && f.state != HalfOpen
    ensures var g := Step(f, maxFailures, resetTimeout, c).0;
      WellFormed(g) && g.state != HalfOpen
  {
  }

  // ---------------------------------------------------------------------------
  // Properties of a run of calls

  /** Once OPEN, a breaker stays OPEN as long as every call fails (rejected or failed trial). */
  lemma {:induction false} OpenStaysOpenUnderFailures(f: Fields, maxFailures: nat, resetTimeout: int, calls: seq<Call>)
    requires f.state == Open && f.nextAttempt.Some?
    requires forall i | 0 <= i < |calls| :: !calls[i].opOk
    ensures var g := Trace(f, maxFailures, resetTimeout, calls); g.state == Open && g.nextAttempt.Some?
    decreases |calls|
  {
    if calls != [] {
      var g := Step(f, maxFailures, resetTimeout, calls[0]).0;
      assert g.state == Open && g.nextAttempt.Some?;
      OpenStaysOpenUnderFailures(g, maxFailures, resetTimeout, calls[1..]);
    }
  }

  /**
   * From a CLOSED breaker, `maxFailures - failureCount` consecutive failures
   * (at least one) leave the circuit OPEN.
   */
  lemma {:induction false} ConsecutiveFailuresOpen(f: Fields, maxFailures: nat, resetTimeout: int, calls: seq<Call>)
    requires f.state == Closed
    requires |calls| >= 1 && f.failureCount + |calls| >= maxFailures
    requires forall i | 0 <= i < |calls| :: !calls[i].opOk
    ensures Trace(f, maxFailures, resetTimeout, calls).state == Open
    decreases |calls|
  {
    var g := Step(f, maxFailures, resetTimeout, calls[0]).0;
    FailureCounts(f, maxFailures, resetTimeout, calls[0]);
    if g.state == Open {
      OpenStaysOpenUnderFailures(g, maxFailures, resetTimeout, calls[1..]);
    } else {
      ConsecutiveFailuresOpen(g, maxFailures, resetTimeout, calls[1..]);
    }
  }

  /** Fewer than `maxFailures - failureCount` failures from CLOSED keep the circuit CLOSED and count each one. */
  lemma {:induction false} FewFailuresStayClosed(f: Fields, maxFailures: nat, resetTimeout: int, calls: seq<Call>)
    requires f.state == Closed
    requires f.failureCount + |calls| < maxFailures
    requires forall i | 0 <= i < |calls| :: !calls[i].opOk
    ensures var g := Trace(f, maxFailures, resetTimeout, calls);
      g.state == Closed && g.failureCount == f.failureCount + |calls|
    decreases |calls|
  {
    if calls != [] {
      FailureCounts(f, maxFailures, resetTimeout, calls[0]);
      FewFailuresStayClosed(Step(f, maxFailures, resetTimeout, calls[0]).0, maxFailures, resetTimeout, calls[1..]);
    }
  }

  // ---------------------------------------------------------------------------
  // The breaker object

  class CircuitBreaker {
    const name: string
    const maxFailures: nat
    const resetTimeout: int
    var state: BreakerState
    var failureCount: nat
    var lastFailureTime: Option<int>
    var nextAttempt: Option<int>

    function Snapshot(): Fields
      reads this
    {
      Fields(state, failureCount, lastFailureTime, nextAttempt)
    }

    predicate Valid()
      reads this
    {
      WellFormed(Snapshot()) && state != HalfOpen
    }

    constructor (name: string, maxFailures: nat, resetTimeout: int)
      ensures this.name == name && this.maxFailures == maxFailures && this.resetTimeout == resetTimeout
      ensures Snapshot() == Initial() && Valid()
    {
      this.name := name;
      this.maxFailures := maxFailures;
      this.resetTimeout := resetTimeout;
      state := Closed;
      failureCount := 0;
      lastFailureTime := None;
      nextAttempt := None;
    }

    method RecordFailure(now: int)
      modifies this
      ensures Snapshot() == AfterFailure(old(Snapshot()), maxFailures, resetTimeout, now)
    {
      failureCount := failureCount + 1;
      lastFailureTime := Some(now);
      if failureCount >= maxFailures || state == HalfOpen {
        state := Open;
        nextAttempt := Some(now + resetTimeout);
      }
    }

    method Reset()
      modifies this
      ensures Snapshot() == Initial()
    {
      failureCount := 0;
      state := Closed;
      lastFailureTime := None;
      nextAttempt := None;
    }

    /** `execute(fn)`: runs the operation (whose outcome is `opOk`) unless the circuit is OPEN. */
    method Execute(now: int, opOk: bool) returns (out: Outcome)
      requires Valid()
      modifies this
      ensures Valid()
      ensures (Snapshot(), out) == Step(old(Snapshot()), maxFailures, resetTimeout, Call(now, opOk))
    {
      StepSettles(Snapshot(), maxFailures, resetTimeout, Call(now, opOk));
      if state == Open {
        if now > nextAttempt.GetOr(0) {
          state := HalfOpen;
        } else {
          return Rejected(nextAttempt.GetOr(0));
        }
      }
      if opOk {
        if state == HalfOpen {
          Reset();
        }
        out := Succeeded;
      } else {
        RecordFailure(now);
        out := Failed;
      }
    }
  }

  /** `getCircuitBreaker(name)` over the module-level table of breakers. */
  class BreakerTable {
    var breakers: map<string, CircuitBreaker>

    constructor ()
      ensures breakers == map[]
    {
      breakers := map[];
    }

    /** Returns the breaker registered under `name`, creating a fresh default one on first use. */
    method Get(name: string) returns (b: CircuitBreaker)
      modifies this`breakers
      ensures name in old(breakers) ==> b == old(breakers)[name] && breakers == old(breakers)
      ensures name !in old(breakers) ==>
        && fresh(b) && breakers == old(breakers)[name := b]
        && b.name == name && b.maxFailures == DefaultMaxFailures && b.resetTimeout == DefaultResetTimeout
        && b.Snapshot() == Initial() && b.Valid()
    {
      if name in breakers {
        b := breakers[name];
      } else {
        b := new CircuitBreaker(name, DefaultMaxFailures, DefaultResetTimeout);
        breakers := breakers[name := b];
      }
    }
  }
}
