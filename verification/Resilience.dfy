/**
 The per-plugin resilience guard: circuit breaker, token bucket and semaphore.
 Time and tokens are exact reals. Each function is one section under the guard's lock.
 */
module Resilience {
  import opened Models

  datatype CircuitState = Closed | Open | HalfOpen

  datatype Policy = Policy(maxConcurrency: nat, rate: real, burst: nat, failureThreshold: nat, recoverySeconds: real)

  predicate ValidPolicy(p: Policy) {
    p.maxConcurrency >= 1 && p.rate > 0.0 && p.burst >= 1 && p.failureThreshold >= 1 && p.recoverySeconds > 0.0
  }

  datatype ErrorKind =
    | Configuration | Authentication | Authorization | NotFound | ConflictKind
    | RateLimited | Unavailable | Timeout | Protocol | Unexpected

  /** `circuitTag`: the error's details carry a `circuit_state`. */
  datatype CallError = CallError(kind: ErrorKind, reconciliationRequired: bool, circuitTag: bool)

  predicate Transient(k: ErrorKind) {
    k.RateLimited? || k.Unavailable? || k.Timeout? || k.Protocol? || k.Unexpected?
  }

  datatype Guard = Guard(tokens: real, lastRefill: real, state: CircuitState, failures: nat,
                         openedAt: Option<real>, probeActive: bool, permits: nat)

  function NewGuard(p: Policy, now: real): Guard {
    Guard(p.burst as real, now, Closed, 0, None, false, p.maxConcurrency)
  }

  // ---------- circuit ----------

  function Enter(p: Policy, g: Guard, now: real): (Guard, bool) {
    if g.state.Open? then
      var openTime := if g.openedAt.Some? then g.openedAt.value else now;
      var g1 := g.(openedAt := Some(openTime));
      if now - openTime < p.recoverySeconds then (g1, false)
      else (g1.(state := HalfOpen, probeActive := true), true)
    else if g.state.HalfOpen? then
      if g.probeActive then (g, false) else (g.(probeActive := true), true)
    else (g, true)
  }

  function Closing(g: Guard): Guard {
    g.(state := Closed, failures := 0, openedAt := None, probeActive := false)
  }

  function Opening(g: Guard, now: real): Guard {
    g.(state := Open, openedAt := Some(now), probeActive := false)
  }

  function AfterFailure(p: Policy, g: Guard, e: CallError, now: real): Guard {
    if e.circuitTag then g
    else if !Transient(e.kind) then (if g.state.HalfOpen? then Closing(g) else g)
    else
      var g1 := g.(failures := g.failures + 1);
      if g.state.HalfOpen? || g1.failures >= p.failureThreshold then Opening(g1, now) else g1
  }

  function AfterCancellation(g: Guard, now: real): Guard {
    if g.state.HalfOpen? then Opening(g, now) else g
  }

  /** What relates the circuit's fields between any two locked sections. */
  predicate CircuitOk(p: Policy, g: Guard) {
    && (g.state.Closed? <==> g.failures < p.failureThreshold)
    && (g.state.HalfOpen? <==> g.probeActive)
    && (g.state.Closed? <==> g.openedAt.None?)
  }

  // ---------- token bucket ----------

  function Accrued(p: Policy, elapsed: real): real {
    elapsed * p.rate
  }

  lemma AccruedIsMonotone(p: Policy, a: real, b: real)
    requires p.rate > 0.0 && a <= b
    ensures Accrued(p, a) <= Accrued(p, b)
    ensures Accrued(p, 0.0) == 0.0
  {
    assert (b - a) * p.rate >= 0.0;
  }

  function Refilled(p: Policy, g: Guard, now: real): real {
    var filled := g.tokens + Accrued(p, now - g.lastRefill);
    if p.burst as real < filled then p.burst as real else filled
  }

  function TakeToken(p: Policy, g: Guard, now: real): (Guard, bool) {
    var t := Refilled(p, g, now);
    if t >= 1.0 then (g.(tokens := t - 1.0, lastRefill := now), true)
    else (g.(tokens := t, lastRefill := now), false)
  }

  function WaitSeconds(p: Policy, g: Guard): real
    requires p.rate > 0.0
  {
    (1.0 - g.tokens) / p.rate
  }

  predicate BucketOk(p: Policy, g: Guard) {
    0.0 <= g.tokens <= p.burst as real
  }

  lemma TakeTokenKeepsBucket(p: Policy, g: Guard, now: real)
    requires ValidPolicy(p) && BucketOk(p, g) && g.lastRefill <= now
    ensures BucketOk(p, TakeToken(p, g, now).0)
    ensures TakeToken(p, g, now).0.tokens + (if TakeToken(p, g, now).1 then 1.0 else 0.0)
            <= g.tokens + Accrued(p, now - g.lastRefill)
  {
    AccruedIsMonotone(p, 0.0, now - g.lastRefill);
  }

  /** A waiter that sleeps at least the computed time, undisturbed, gets a token on its next try. */
  lemma SleeperSucceeds(p: Policy, g: Guard, now: real, later: real)
    requires ValidPolicy(p) && BucketOk(p, g) && g.lastRefill <= now
    requires !TakeToken(p, g, now).1
    requires later >= now + WaitSeconds(p, TakeToken(p, g, now).0)
    ensures later > now && TakeToken(p, TakeToken(p, g, now).0, later).1
  {
    var g1 := TakeToken(p, g, now).0;
    TakeTokenKeepsBucket(p, g, now);
    var w := WaitSeconds(p, g1);
    assert Accrued(p, w) == 1.0 - g1.tokens;
    assert w > 0.0;
    AccruedIsMonotone(p, w, later - now);
  }

  // ---------- the guard object ----------

  class ResilienceGuard {
    const policy: Policy
    var tokens: real
    var lastRefill: real
    var state: CircuitState
    var failures: nat
    var openedAt: Option<real>
    var probeActive: bool
    var permits: nat

    ghost predicate Valid()
      reads this
    {
      ValidPolicy(policy) && CircuitOk(policy, Contents()) && BucketOk(policy, Contents()) && permits <= policy.maxConcurrency
    }

    ghost function Contents(): Guard
      reads this
    {
      Guard(tokens, lastRefill, state, failures, openedAt, probeActive, permits)
    }

    constructor (policy: Policy, now: real)
      requires ValidPolicy(policy)
      ensures Valid() && this.policy == policy && Contents() == NewGuard(policy, now)
    {
      this.policy := policy;
      tokens, lastRefill := policy.burst as real, now;
      state, failures, openedAt, probeActive := Closed, 0, None, false;
      permits := policy.maxConcurrency;
    }

    /**
     A closed circuit admits every call, an open one the first call after the recovery time, as
     its probe; every other call is refused and changes nothing.
     */
    method EnterCircuit(now: real) returns (admitted: bool)
      modifies this`state, this`openedAt, this`probeActive
      ensures (Contents(), admitted) == Enter(policy, old(Contents()), now)
      ensures old(Valid()) ==>
                && Valid()
                && (admitted <==> old(state) == Closed
                                  || (old(state) == Open && now - old(openedAt).value >= policy.recoverySeconds))
                && Contents() == if admitted && old(state) == Open then old(Contents()).(state := HalfOpen, probeActive := true)
                                 else old(Contents())
    {
      if state == Open {
        if openedAt.None? { openedAt := Some(now); }
        if now - openedAt.value < policy.recoverySeconds { return false; }
        state := HalfOpen;
        probeActive := false;
      }
      if state == HalfOpen {
        if probeActive { return false; }
        probeActive := true;
      }
      return true;
    }

    method TryTakeToken(now: real) returns (granted: bool)
      requires Valid() && lastRefill <= now
      modifies this`tokens, this`lastRefill
      ensures Valid() && (Contents(), granted) == TakeToken(policy, old(Contents()), now)
      ensures granted <==> old(tokens) + Accrued(policy, now - old(lastRefill)) >= 1.0
      ensures tokens == (if policy.burst as real < old(tokens) + Accrued(policy, now - old(lastRefill)) then policy.burst as real
                         else old(tokens) + Accrued(policy, now - old(lastRefill))) - (if granted then 1.0 else 0.0)
    {
      TakeTokenKeepsBucket(policy, Contents(), now);
      var filled := tokens + Accrued(policy, now - lastRefill);
      tokens := if policy.burst as real < filled then policy.burst as real else filled;
      lastRefill := now;
      granted := tokens >= 1.0;
      if granted { tokens := tokens - 1.0; }
    }

    /**
     With nobody else drawing on the bucket the loop ends after at most one sleep, however
     much longer than asked each sleep takes.
     */
    method AcquireRateToken(start: real, oversleep: nat -> real) returns (tries: nat, at: real)
      requires Valid() && lastRefill <= start && forall k :: oversleep(k) >= 0.0
      modifies this`tokens, this`lastRefill
      ensures Valid() && at >= start
      ensures var (g, granted) := TakeToken(policy, old(Contents()), start);
              if granted then tries == 1 && at == start && Contents() == g
              else tries == 2 && at >= start + WaitSeconds(policy, g) && (Contents(), true) == TakeToken(policy, g, at)
    {
      ghost var first := TakeToken(policy, Contents(), start);
      at := start;
      tries := 1;
      var granted := TryTakeToken(at);
      while !granted
        invariant Valid() && at >= start && lastRefill <= at && 1 <= tries <= 2
        invariant tries == 1 ==> at == start && (Contents(), granted) == first
        invariant tries == 2 ==>
                    granted && !first.1 && at >= start + WaitSeconds(policy, first.0)
                    && (Contents(), true) == TakeToken(policy, first.0, at)
        decreases 2 - tries
      {
        var wait := (1.0 - tokens) / policy.rate;
        at := at + wait + oversleep(tries);
        SleeperSucceeds(policy, old(Contents()), start, at);
        granted := TryTakeToken(at);
        tries := tries + 1;
      }
    }

    method RecordSuccess()
      requires Valid()
      modifies this`state, this`failures, this`openedAt, this`probeActive
      ensures Valid() && Contents() == Closing(old(Contents()))
    {
      state, failures, openedAt, probeActive := Closed, 0, None, false;
    }

    method RecordFailure(e: CallError, now: real)
      requires Valid()
      modifies this`state, this`failures, this`openedAt, this`probeActive
      ensures Valid() && Contents() == AfterFailure(policy, old(Contents()), e, now)
    {
      if e.circuitTag { return; }
      if !Transient(e.kind) {
        if state == HalfOpen { state, failures, openedAt, probeActive := Closed, 0, None, false; }
        return;
      }
      failures := failures + 1;
      if state == HalfOpen || failures >= policy.failureThreshold {
        state, openedAt, probeActive := Open, Some(now), false;
      }
    }

    method RecordCancellation(now: real)
      requires Valid()
      modifies this`state, this`openedAt, this`probeActive
      ensures Valid() && Contents() == AfterCancellation(old(Contents()), now)
    {
      if state == HalfOpen { state, openedAt, probeActive := Open, Some(now), false; }
    }
  }
}
