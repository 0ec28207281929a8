/** One call's way through the guard, and why the calls together never come to a halt. */
module GuardCalls {
  import Models
  import opened Resilience
  import opened GuardRuns

  // ---------- a call's own steps ----------

  /** Step `n` is the next step of call `i` after step `m`. */
  ghost predicate NextOf(labels: seq<Label>, i: nat, m: nat, n: nat) {
    && m < n < |labels| && labels[m].i == i && labels[n].i == i
    && forall k | m < k < n :: labels[k].i != i
  }

  lemma RunStep(p: Policy, states: seq<System>, labels: seq<Label>, n: nat)
    requires IsRun(p, states, labels) && n < |labels|
    ensures Step(p, states[n], labels[n], states[n + 1])
  {
    assert StepAt(p, states, labels, n);
  }

  lemma {:induction false} CallWaits(p: Policy, states: seq<System>, labels: seq<Label>, i: nat, m: nat, n: nat)
    requires IsRun(p, states, labels) && m <= n <= |labels| && i < |states[m].calls|
    requires forall k | m <= k < n :: labels[k].i != i
    ensures i < |states[n].calls| && states[n].calls[i] == states[m].calls[i]
    decreases n
  {
    if m < n {
      CallWaits(p, states, labels, i, m, n - 1);
      RunStep(p, states, labels, n - 1);
    }
  }

  // ---------- what is recorded ----------

  /** One more failure: the circuit opens in its half-open state and at the threshold. */
  predicate CountedAgainst(p: Policy, g: Guard, g': Guard, now: real) {
    g' == if g.state.HalfOpen? || g.failures + 1 >= p.failureThreshold
          then g.(state := Open, failures := g.failures + 1, openedAt := Models.Some(now), probeActive := false)
          else g.(failures := g.failures + 1)
  }

  predicate MadeHealthy(g: Guard, g': Guard) {
    g' == g.(state := Closed, failures := 0, openedAt := Models.None, probeActive := false)
  }

  /** What the guard makes of a call's end, by what last happened to the call. */
  predicate RecordsAs(p: Policy, last: Action, g: Guard, g': Guard, now: real) {
    match last
    case Admission => g' == g
    case Return => MadeHealthy(g, g')
    case Raise(e) =>
      if e.circuitTag then g' == g
      else if e.kind in {RateLimited, Unavailable, Timeout, Protocol, Unexpected} then CountedAgainst(p, g, g', now)
      else if g.state.HalfOpen? then MadeHealthy(g, g')
      else g' == g
    case TimeOut => CountedAgainst(p, g, g', now)
    case Cancel => g' == if g.state.HalfOpen? then g.(state := Open, openedAt := Models.Some(now), probeActive := false) else g
    case _ => false
  }

  lemma RecordPlace(p: Policy, s: System, l: Label, s': System, t: System, l': Label, t': System)
    requires Step(p, s, l, s') && Step(p, t, l', t') && l'.i == l.i && t.calls[l.i] == s'.calls[l.i]
    requires l'.action.Record?
    ensures RecordsAs(p, l.action, t.guard, t'.guard, l'.now)
  {
  }

  /**
   Whatever the other calls do in between: a call that records its end does to the guard what
   its last step before calls for, a refusal nothing, a return a success, an error or a timeout
   a failure if it is one that counts, a cancellation the end of a probe.
   */
  lemma RecordSaysWhatHappened(p: Policy, states: seq<System>, labels: seq<Label>, i: nat, m: nat, n: nat)
    requires IsRun(p, states, labels) && NextOf(labels, i, m, n) && labels[n].action.Record?
    ensures RecordsAs(p, labels[m].action, states[n].guard, states[n + 1].guard, labels[n].now)
  {
    RunStep(p, states, labels, m);
    RunStep(p, states, labels, n);
    CallWaits(p, states, labels, i, m + 1, n);
    RecordPlace(p, states[m], labels[m], states[m + 1], states[n], labels[n], states[n + 1]);
  }

  // ---------- what the caller gets ----------

  /** How a call ends whose last step before its record was this one. */
  predicate EndsAs(last: Action, o: Outcome) {
    match last
    case Admission => o == Failed(CallError(Unavailable, false, true))
    case Return => o == Succeeded
    case Raise(e) => o == Failed(e)
    case TimeOut => o.Failed? && o.error.kind == Timeout && !o.error.circuitTag
    case Cancel => o == Interrupted
    case _ => false
  }

  lemma RecordedPlace(p: Policy, s: System, l: Label, s': System, t: System, l': Label, t': System)
    requires Step(p, s, l, s') && Step(p, t, l', t') && l'.i == l.i && t.calls[l.i] == s'.calls[l.i]
    requires l'.action.Record?
    ensures t'.calls[l.i].Finishing? && EndsAs(l.action, t'.calls[l.i].outcome)
  {
  }

  /** Nothing else changes a recorded end: the caller gets what happened to its call. */
  lemma CallerHearsWhatHappened(p: Policy, states: seq<System>, labels: seq<Label>, i: nat, k: nat, m: nat, n: nat)
    requires IsRun(p, states, labels) && NextOf(labels, i, k, m) && NextOf(labels, i, m, n)
    requires labels[m].action.Record? && labels[n].action.Finish?
    ensures i < |states[n + 1].calls| && states[n + 1].calls[i].Done?
    ensures EndsAs(labels[k].action, states[n + 1].calls[i].outcome)
  {
    RunStep(p, states, labels, k);
    RunStep(p, states, labels, m);
    RunStep(p, states, labels, n);
    CallWaits(p, states, labels, i, k + 1, m);
    CallWaits(p, states, labels, i, m + 1, n);
    RecordedPlace(p, states[k], labels[k], states[k + 1], states[m], labels[m], states[m + 1]);
  }

  /**
   A cancellation that a call finishes after without a record came while it was about to record
   a failure or an earlier cancellation, which the guard then never hears of.
   */
  lemma CancellationSkipsRecord(p: Policy, states: seq<System>, labels: seq<Label>, i: nat, m: nat, n: nat)
    requires IsRun(p, states, labels) && NextOf(labels, i, m, n)
    requires labels[m].action.Cancel? && labels[n].action.Finish?
    ensures i < |states[m].calls| && states[m].calls[i].Recording? && !states[m].calls[i].outcome.Succeeded?
    ensures states[m + 1].guard == states[m].guard
    ensures i < |states[n + 1].calls| && states[n + 1].calls[i] == Done(Interrupted)
  {
    RunStep(p, states, labels, m);
    RunStep(p, states, labels, n);
    CallWaits(p, states, labels, i, m + 1, n);
  }

  // ---------- slots ----------

  predicate Does(labels: seq<Label>, q: nat, i: nat, action: Action) {
    q < |labels| && labels[q].i == i && labels[q].action == action
  }

  /** The call has done so among its first `n` steps. */
  predicate Did(labels: seq<Label>, n: nat, i: nat, action: Action) {
    exists q | 0 <= q < n :: Does(labels, q, i, action)
  }

  /** `Finish` comes once and last. */
  lemma {:induction false} FinishedIsDone(p: Policy, states: seq<System>, labels: seq<Label>, n: nat, i: nat)
    requires IsRun(p, states, labels) && n <= |labels| && i < |states[n].calls|
    ensures states[n].calls[i].Done? <==> Did(labels, n, i, Finish)
    ensures states[n].calls[i].Entering? || states[n].calls[i].Rating? || states[n].calls[i].Queuing? ==>
              !Did(labels, n, i, SlotGrant)
  {
    if n > 0 {
      RunStep(p, states, labels, n - 1);
      FinishedIsDone(p, states, labels, n - 1, i);
      OneMoreDid(labels, n, i, Finish);
      OneMoreDid(labels, n, i, SlotGrant);
    }
  }

  lemma OneMoreDid(labels: seq<Label>, n: nat, i: nat, action: Action)
    requires 0 < n <= |labels|
    ensures Did(labels, n, i, action) <==> Did(labels, n - 1, i, action) || Does(labels, n - 1, i, action)
  {
  }

  /** In every run a call holds a permit if and only if it was granted one and has not finished. */
  lemma {:induction false} SlotHeldExactly(p: Policy, states: seq<System>, labels: seq<Label>, n: nat, i: nat)
    requires IsRun(p, states, labels) && n <= |labels| && i < |states[n].calls|
    ensures HoldsSlot(states[n].calls[i]) <==> Did(labels, n, i, SlotGrant) && !Did(labels, n, i, Finish)
  {
    if n > 0 {
      RunStep(p, states, labels, n - 1);
      SlotHeldExactly(p, states, labels, n - 1, i);
      FinishedIsDone(p, states, labels, n - 1, i);
      FinishedIsDone(p, states, labels, n, i);
      OneMoreDid(labels, n, i, Finish);
      OneMoreDid(labels, n, i, SlotGrant);
    }
  }

  // ---------- no halt ----------

  /** The call's place allows the step; only a permit has to be there. */
  predicate Allowed(s: System, l: Label) {
    && l.i < |s.calls| && s.clock <= l.now
    && var c := s.calls[l.i];
       match l.action
       case Admission => c.Entering?
       case TokenTry => c.Rating?
       case SlotGrant => c.Queuing? && s.guard.permits > 0
       case Return => c.Running?
       case Raise(_) => c.Running?
       case TimeOut => c.Rating? || c.Queuing? || c.Running?
       case Cancel => c.Entering? || c.Rating? || c.Queuing? || c.Running? || c.Recording?
       case Record => c.Recording?
       case Finish => c.Finishing?
  }

  lemma {:induction false} CallsStay(p: Policy, states: seq<System>, labels: seq<Label>, n: nat)
    requires IsRun(p, states, labels) && n <= |labels|
    ensures |states[n].calls| == |states[n].mutating|
  {
    if n > 0 {
      CallsStay(p, states, labels, n - 1);
      RunStep(p, states, labels, n - 1);
    }
  }

  lemma CanStep(p: Policy, s: System, l: Label) returns (s': System)
    requires Allowed(s, l) && |s.calls| == |s.mutating|
    ensures Step(p, s, l, s')
  {
    var c, g := s.calls[l.i], s.guard;
    match l.action {
      case Admission =>
        var (g', admitted) := Enter(p, g, l.now);
        s' := Advance(s, l.i, if admitted then Rating else Recording(Failed(CIRCUIT_REFUSAL), false), g', l.now);
      case TokenTry =>
        var (g', granted) := TakeToken(p, g, l.now);
        s' := Advance(s, l.i, if granted then Queuing else Rating, g', l.now);
      case SlotGrant => s' := Advance(s, l.i, Running, g.(permits := g.permits - 1), l.now);
      case Return => s' := Advance(s, l.i, Recording(Succeeded, true), g, l.now);
      case Raise(e) => s' := Advance(s, l.i, Recording(Failed(e), true), g, l.now);
      case TimeOut =>
        s' := Advance(s, l.i, Recording(Failed(TimeoutError(c.Running?, s.mutating[l.i])), c.Running?), g, l.now);
      case Cancel =>
        s' := Advance(s, l.i, if c.Recording? && !c.outcome.Succeeded? then Finishing(Interrupted, c.slot)
                              else Recording(Interrupted, HoldsSlot(c)), g, l.now);
      case Record => s' := Advance(s, l.i, Finishing(c.outcome, c.slot), Recorded(p, g, c.outcome, l.now), l.now);
      case Finish => s' := Advance(s, l.i, Done(c.outcome), if c.slot then g.(permits := g.permits + 1) else g, l.now);
    }
  }

  /** In every reachable state a step can happen if and only if the call's place allows it, and then in one way. */
  lemma StepsExactly(p: Policy, states: seq<System>, labels: seq<Label>, n: nat, l: Label)
    requires IsRun(p, states, labels) && n <= |labels|
    ensures Allowed(states[n], l) <==> exists s' :: Step(p, states[n], l, s')
    ensures forall s', t' :: Step(p, states[n], l, s') && Step(p, states[n], l, t') ==> s' == t'
  {
    CallsStay(p, states, labels, n);
    if Allowed(states[n], l) {
      var s' := CanStep(p, states[n], l);
    }
  }

  lemma {:induction false} SomeHolder(calls: seq<Call>) returns (k: nat)
    requires Holders(calls) > 0
    ensures k < |calls| && HoldsSlot(calls[k])
  {
    var n := |calls| - 1;
    if HoldsSlot(calls[n]) { k := n; } else { k := SomeHolder(calls[..n]); }
  }

  /** The next thing a call does by itself, neither timed out nor cancelled. */
  function OwnAction(c: Call): Action {
    match c
    case Entering => Admission
    case Rating => TokenTry
    case Queuing => SlotGrant
    case Running => Return
    case Recording(_, _) => Record
    case Finishing(_, _) => Finish
    case Done(_) => Finish
  }

  /**
   The guard never deadlocks: while a call is not done, some call can go on at once by itself,
   without a timeout or a cancellation. A call that waits for a permit waits for one that can.
   */
  lemma SomeCallGoesOn(p: Policy, states: seq<System>, labels: seq<Label>, n: nat, i: nat)
      returns (l: Label, s': System)
    requires IsRun(p, states, labels) && n <= |labels| && i < |states[n].calls| && !states[n].calls[i].Done?
    ensures !l.action.TimeOut? && !l.action.Cancel? && l.now == states[n].clock && Step(p, states[n], l, s')
    ensures l.i != i ==> states[n].calls[i].Queuing? && states[n].guard.permits == 0
                         && l.i < |states[n].calls| && HoldsSlot(states[n].calls[l.i])
  {
    var s := states[n];
    RunOk(p, states, labels, n);
    CallsStay(p, states, labels, n);
    var k := i;
    if s.calls[i].Queuing? && s.guard.permits == 0 { k := SomeHolder(s.calls); }
    l := Label(k, OwnAction(s.calls[k]), s.clock);
    s' := CanStep(p, s, l);
  }
}
