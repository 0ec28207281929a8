/** Any number of concurrent `call`s through one guard, under a clock that never goes back. */
module GuardRuns {
  import Models
  import opened Resilience

  datatype Outcome = Succeeded | Failed(error: CallError) | Interrupted

  /** Where one call is. `slot` says that it holds a semaphore permit. */
  datatype Call =
    | Entering
    | Rating
    | Queuing
    | Running
    | Recording(outcome: Outcome, slot: bool)
    | Finishing(outcome: Outcome, slot: bool)
    | Done(outcome: Outcome)

  /** `mutating[i]`: the call asked that a timeout after the start count as an unknown outcome. */
  datatype System = System(guard: Guard, calls: seq<Call>, mutating: seq<bool>, clock: real)

  datatype Action =
    | Admission
    | TokenTry
    | SlotGrant
    | Return
    | Raise(error: CallError)
    | TimeOut
    | Cancel
    | Record
    | Finish

  datatype Label = Label(i: nat, action: Action, now: real)

  const CIRCUIT_REFUSAL := CallError(Unavailable, false, true)

  function TimeoutError(started: bool, mutating: bool): CallError {
    CallError(Timeout, started && mutating, false)
  }

  predicate HoldsSlot(c: Call) {
    c.Running? || ((c.Recording? || c.Finishing?) && c.slot)
  }

  function Advance(s: System, i: nat, c: Call, g: Guard, now: real): System
    requires i < |s.calls|
  {
    s.(calls := s.calls[i := c], guard := g, clock := now)
  }

  predicate Init(p: Policy, s: System) {
    && ValidPolicy(p) && |s.mutating| == |s.calls|
    && s.guard == NewGuard(p, s.clock)
    && forall i | 0 <= i < |s.calls| :: s.calls[i].Entering?
  }

  /** The guard after the lock section that records how the call went. */
  function Recorded(p: Policy, g: Guard, o: Outcome, now: real): Guard {
    match o
    case Succeeded => Closing(g)
    case Failed(e) => AfterFailure(p, g, e, now)
    case Interrupted => AfterCancellation(g, now)
  }

  predicate Step(p: Policy, s: System, l: Label, s': System) {
    && l.i < |s.calls| == |s.mutating| && s.clock <= l.now
    && var c, g := s.calls[l.i], s.guard;
       match l.action
       case Admission =>
         var (g', admitted) := Enter(p, g, l.now);
         c.Entering? && s' == Advance(s, l.i, if admitted then Rating else Recording(Failed(CIRCUIT_REFUSAL), false), g', l.now)
       case TokenTry =>
         var (g', granted) := TakeToken(p, g, l.now);
         c.Rating? && s' == Advance(s, l.i, if granted then Queuing else Rating, g', l.now)
       case SlotGrant =>
         c.Queuing? && g.permits > 0 && s' == Advance(s, l.i, Running, g.(permits := g.permits - 1), l.now)
       case Return =>
         c.Running? && s' == Advance(s, l.i, Recording(Succeeded, true), g, l.now)
       case Raise(e) =>
         c.Running? && s' == Advance(s, l.i, Recording(Failed(e), true), g, l.now)
       case TimeOut =>
         && (c.Rating? || c.Queuing? || c.Running?)
         && s' == Advance(s, l.i, Recording(Failed(TimeoutError(c.Running?, s.mutating[l.i])), c.Running?), g, l.now)
       case Cancel =>
         // a cancellation during a failure's or a cancellation's own record skips the record
         && !c.Finishing? && !c.Done?
         && s' == Advance(s, l.i, if c.Recording? && !c.outcome.Succeeded? then Finishing(Interrupted, c.slot)
                                  else Recording(Interrupted, HoldsSlot(c)), g, l.now)
       case Record =>
         c.Recording? && s' == Advance(s, l.i, Finishing(c.outcome, c.slot), Recorded(p, g, c.outcome, l.now), l.now)
       case Finish =>
         && c.Finishing?
         && s' == Advance(s, l.i, Done(c.outcome), if c.slot then g.(permits := g.permits + 1) else g, l.now)
  }

  predicate StepAt(p: Policy, states: seq<System>, labels: seq<Label>, n: nat)
    requires |states| == |labels| + 1
  {
    n < |labels| ==> Step(p, states[n], labels[n], states[n + 1])
  }

  ghost predicate IsRun(p: Policy, states: seq<System>, labels: seq<Label>) {
    && |states| == |labels| + 1 && Init(p, states[0])
    && forall n: nat :: StepAt(p, states, labels, n)
  }

  // ---------- the invariant ----------

  function Holders(calls: seq<Call>): nat {
    if calls == [] then 0 else Holders(calls[..|calls| - 1]) + if HoldsSlot(calls[|calls| - 1]) then 1 else 0
  }

  lemma {:induction false} HoldersUpdate(calls: seq<Call>, i: nat, c: Call)
    requires i < |calls|
    ensures Holders(calls[i := c]) + (if HoldsSlot(calls[i]) then 1 else 0)
         == Holders(calls) + if HoldsSlot(c) then 1 else 0
  {
    var n := |calls| - 1;
    if i < n {
      HoldersUpdate(calls[..n], i, c);
      assert calls[i := c][..n] == calls[..n][i := c];
    } else {
      assert calls[i := c][..n] == calls[..n];
    }
  }

  lemma {:induction false} NoHolders(calls: seq<Call>)
    requires forall i | 0 <= i < |calls| :: calls[i].Entering?
    ensures Holders(calls) == 0
  {
    if calls != [] { NoHolders(calls[..|calls| - 1]); }
  }

  predicate GuardOk(p: Policy, s: System) {
    && ValidPolicy(p) && CircuitOk(p, s.guard) && BucketOk(p, s.guard)
    && s.guard.lastRefill <= s.clock
    && (s.guard.openedAt.Some? ==> s.guard.openedAt.value <= s.clock)
    && s.guard.permits + Holders(s.calls) == p.maxConcurrency
  }

  lemma StepOk(p: Policy, s: System, l: Label, s': System)
    requires GuardOk(p, s) && Step(p, s, l, s')
    ensures GuardOk(p, s')
  {
    SlotStep(p, s, l, s');
    if l.action.TokenTry? { TakeTokenKeepsBucket(p, s.guard, l.now); }
    else if l.action.Record? { RecordKeepsCircuit(p, s.guard, s.calls[l.i].outcome, l.now); }
  }

  lemma RecordKeepsCircuit(p: Policy, g: Guard, o: Outcome, now: real)
    requires ValidPolicy(p) && CircuitOk(p, g)
    ensures CircuitOk(p, Recorded(p, g, o, now))
    ensures var g' := Recorded(p, g, o, now); g' == g.(state := g'.state, failures := g'.failures,
                                                       openedAt := g'.openedAt, probeActive := g'.probeActive)
    ensures var g' := Recorded(p, g, o, now); g'.openedAt == g.openedAt || g'.openedAt.None? || g'.openedAt.value == now
  {
  }

  /** A step moves a permit between the semaphore and a call, or moves none. */
  lemma SlotStep(p: Policy, s: System, l: Label, s': System)
    requires Step(p, s, l, s')
    ensures s'.guard.permits + Holders(s'.calls) == s.guard.permits + Holders(s.calls)
  {
    HoldersUpdate(s.calls, l.i, s'.calls[l.i]);
  }

  lemma {:induction false} RunOk(p: Policy, states: seq<System>, labels: seq<Label>, n: nat)
    requires IsRun(p, states, labels) && n < |states|
    ensures GuardOk(p, states[n])
  {
    if n == 0 {
      NoHolders(states[0].calls);
    } else {
      RunOk(p, states, labels, n - 1);
      assert StepAt(p, states, labels, n - 1);
      StepOk(p, states[n - 1], labels[n - 1], states[n]);
    }
  }

  /**
   CLOSED exactly below the threshold, HALF_OPEN exactly while a probe is marked, an opening
   time exactly when not CLOSED; the bucket stays within its bounds.
   */
  lemma CircuitIsConsistent(p: Policy, states: seq<System>, labels: seq<Label>, n: nat)
    requires IsRun(p, states, labels) && n < |states|
    ensures CircuitOk(p, states[n].guard) && BucketOk(p, states[n].guard)
  {
    RunOk(p, states, labels, n);
  }

  /** Free permits and holders always add up, so at most `maxConcurrency` operations run at once. */
  lemma SlotsAreConserved(p: Policy, states: seq<System>, labels: seq<Label>, n: nat)
    requires IsRun(p, states, labels) && n < |states|
    ensures states[n].guard.permits + Holders(states[n].calls) == p.maxConcurrency
    ensures RunningCalls(states[n].calls) <= p.maxConcurrency
  {
    RunOk(p, states, labels, n);
    RunningHold(states[n].calls);
  }

  function RunningCalls(calls: seq<Call>): nat {
    if calls == [] then 0 else RunningCalls(calls[..|calls| - 1]) + if calls[|calls| - 1].Running? then 1 else 0
  }

  lemma {:induction false} RunningHold(calls: seq<Call>)
    ensures RunningCalls(calls) <= Holders(calls)
  {
    if calls != [] { RunningHold(calls[..|calls| - 1]); }
  }

  /** When every call is done, through whichever exits, all permits are back. */
  lemma AllPermitsReturn(p: Policy, states: seq<System>, labels: seq<Label>, n: nat)
    requires IsRun(p, states, labels) && n < |states|
    requires forall i | 0 <= i < |states[n].calls| :: states[n].calls[i].Done?
    ensures states[n].guard.permits == p.maxConcurrency
  {
    RunOk(p, states, labels, n);
    DoneHoldNothing(states[n].calls);
  }

  lemma {:induction false} DoneHoldNothing(calls: seq<Call>)
    requires forall i | 0 <= i < |calls| :: calls[i].Done?
    ensures Holders(calls) == 0
  {
    if calls != [] { DoneHoldNothing(calls[..|calls| - 1]); }
  }

  // ---------- circuit over runs ----------

  /** The step admits a call: it passes the circuit. */
  predicate Admits(s: System, l: Label, s': System) {
    l.action.Admission? && l.i < |s.calls| && l.i < |s'.calls| && s.calls[l.i].Entering? && s'.calls[l.i].Rating?
  }

  /** The step records a success. */
  predicate RecordsSuccess(s: System, l: Label) {
    l.action.Record? && l.i < |s.calls| && s.calls[l.i].Recording? && s.calls[l.i].outcome.Succeeded?
  }

  /** Admissions among the steps `m .. n - 1` of a run. */
  function Admissions(states: seq<System>, labels: seq<Label>, m: nat, n: nat): nat
    requires |states| == |labels| + 1 && m <= n <= |labels|
    decreases n
  {
    if m == n then 0
    else Admissions(states, labels, m, n - 1) + if Admits(states[n - 1], labels[n - 1], states[n]) then 1 else 0
  }

  /** A refused call leaves the guard as it was. */
  lemma RefusalChangesNothing(p: Policy, states: seq<System>, labels: seq<Label>, n: nat)
    requires IsRun(p, states, labels) && n < |labels| && labels[n].action.Admission?
    requires !Admits(states[n], labels[n], states[n + 1])
    ensures states[n + 1].guard == states[n].guard
  {
    RunOk(p, states, labels, n);
    assert StepAt(p, states, labels, n);
  }

  /**
   A call is admitted if and only if the circuit is closed, or has been open for the recovery
   time; one that is not is told that the plugin is unavailable, without any effect on the guard.
   */
  lemma AdmitsExactly(p: Policy, states: seq<System>, labels: seq<Label>, n: nat)
    requires IsRun(p, states, labels) && n < |labels| && labels[n].action.Admission?
    ensures states[n].guard.state.Open? ==> states[n].guard.openedAt.Some?
    ensures var g := states[n].guard;
            Admits(states[n], labels[n], states[n + 1])
            <==> g.state.Closed? || (g.state.Open? && labels[n].now - g.openedAt.value >= p.recoverySeconds)
    ensures !Admits(states[n], labels[n], states[n + 1]) ==>
              && labels[n].i < |states[n + 1].calls|
              && states[n + 1].calls[labels[n].i] == Recording(Failed(CallError(Unavailable, false, true)), false)
  {
    RunOk(p, states, labels, n);
    assert StepAt(p, states, labels, n);
  }

  // ---------- what moves the circuit ----------

  /** The step records the end of a call. */
  predicate Records(s: System, l: Label) {
    l.action.Record? && l.i < |s.calls| && s.calls[l.i].Recording?
  }

  /** An error that counts against the plugin: not the circuit's own refusal, and not one the caller could have avoided. */
  predicate Counts(e: CallError) {
    !e.circuitTag && e.kind in {RateLimited, Unavailable, Timeout, Protocol, Unexpected}
  }

  predicate CountsFailure(s: System, l: Label) {
    Records(s, l) && s.calls[l.i].outcome.Failed? && Counts(s.calls[l.i].outcome.error)
  }

  /** A success, or while half open an error that does not count. */
  predicate Closes(s: System, l: Label) {
    Records(s, l) && (s.calls[l.i].outcome.Succeeded?
                      || (s.guard.state.HalfOpen? && s.calls[l.i].outcome.Failed?
                          && !s.calls[l.i].outcome.error.circuitTag && !Counts(s.calls[l.i].outcome.error)))
  }

  /** A failure that counts while half open or reaches the threshold, or the probe's cancellation. */
  predicate Opens(p: Policy, s: System, l: Label) {
    || (CountsFailure(s, l) && (s.guard.state.HalfOpen? || s.guard.failures + 1 >= p.failureThreshold))
    || (Records(s, l) && s.calls[l.i].outcome.Interrupted? && s.guard.state.HalfOpen?)
  }

  /** For every step of every run: how the circuit, its failure count and its opening time move. */
  lemma CircuitMovesExactly(p: Policy, states: seq<System>, labels: seq<Label>, n: nat)
    requires IsRun(p, states, labels) && n < |labels|
    ensures var s, l, g' := states[n], labels[n], states[n + 1].guard;
            && g'.state == (if Opens(p, s, l) then Open else if Closes(s, l) then Closed
                            else if Admits(s, l, states[n + 1]) && s.guard.state.Open? then HalfOpen else s.guard.state)
            && g'.failures == (if Closes(s, l) then 0 else if CountsFailure(s, l) then s.guard.failures + 1
                               else s.guard.failures)
            && g'.openedAt == (if Opens(p, s, l) then Models.Some(l.now) else if Closes(s, l) then Models.None
                               else s.guard.openedAt)
  {
    RunOk(p, states, labels, n);
    assert StepAt(p, states, labels, n);
  }

  /** Failures recorded among the first `n` steps since the circuit was last closed. */
  function Consecutive(states: seq<System>, labels: seq<Label>, n: nat): nat
    requires |states| == |labels| + 1 && n <= |labels|
  {
    if n == 0 || Closes(states[n - 1], labels[n - 1]) then 0
    else Consecutive(states, labels, n - 1) + if CountsFailure(states[n - 1], labels[n - 1]) then 1 else 0
  }

  /** In every run the circuit is closed if and only if fewer failures than the threshold were recorded in a row. */
  lemma {:induction false} ClosedExactly(p: Policy, states: seq<System>, labels: seq<Label>, n: nat)
    requires IsRun(p, states, labels) && n <= |labels|
    ensures states[n].guard.failures == Consecutive(states, labels, n)
    ensures states[n].guard.state.Closed? <==> Consecutive(states, labels, n) < p.failureThreshold
  {
    RunOk(p, states, labels, n);
    if n > 0 {
      ClosedExactly(p, states, labels, n - 1);
      CircuitMovesExactly(p, states, labels, n - 1);
    }
  }

  /** A step that ends in HALF_OPEN admits a call if and only if it begins the episode. */
  lemma HalfOpenStep(p: Policy, s: System, l: Label, s': System)
    requires GuardOk(p, s) && Step(p, s, l, s') && s'.guard.state.HalfOpen?
    ensures Admits(s, l, s') <==> !s.guard.state.HalfOpen?
  {
  }

  /** Each half-open episode admits exactly one call, the one that began it. */
  lemma {:induction false} OneProbePerEpisode(p: Policy, states: seq<System>, labels: seq<Label>, m: nat, n: nat)
    requires IsRun(p, states, labels) && m < n <= |labels|
    requires !states[m].guard.state.HalfOpen?
    requires forall q | m < q <= n :: states[q].guard.state.HalfOpen?
    ensures Admits(states[m], labels[m], states[m + 1]) && Admissions(states, labels, m, n) == 1
    decreases n
  {
    RunOk(p, states, labels, n - 1);
    assert StepAt(p, states, labels, n - 1);
    HalfOpenStep(p, states[n - 1], labels[n - 1], states[n]);
    if n - 1 > m { OneProbePerEpisode(p, states, labels, m, n - 1); }
    else { assert Admissions(states, labels, m, m) == 0; }
  }

  /** While it is open and nobody reports a success, the circuit stays open until the recovery time is over. */
  lemma OpenStep(p: Policy, s: System, l: Label, s': System, openTime: real)
    requires GuardOk(p, s) && Step(p, s, l, s')
    requires s.guard.state.Open? && s.guard.openedAt.value >= openTime
    requires openTime <= s.clock && l.now < openTime + p.recoverySeconds && !RecordsSuccess(s, l)
    ensures s'.guard.state.Open? && s'.guard.openedAt.value >= openTime && !Admits(s, l, s')
  {
  }

  lemma {:induction false} StaysOpen(p: Policy, states: seq<System>, labels: seq<Label>, m: nat, n: nat, openTime: real)
    requires IsRun(p, states, labels) && m <= n <= |labels|
    requires states[m].guard.state.Open? && states[m].guard.openedAt == Models.Some(openTime)
    requires n > m ==> labels[n - 1].now < openTime + p.recoverySeconds
    requires forall q | m <= q < n :: !RecordsSuccess(states[q], labels[q])
    ensures states[n].guard.state.Open?
    ensures states[n].guard.openedAt.Some? && states[n].guard.openedAt.value >= openTime
    ensures openTime <= states[n].clock
    ensures Admissions(states, labels, m, n) == 0
    decreases n
  {
    RunOk(p, states, labels, m);
    if n > m {
      assert StepAt(p, states, labels, n - 1);
      if n - 1 > m { assert StepAt(p, states, labels, n - 2); }
      StaysOpen(p, states, labels, m, n - 1, openTime);
      RunOk(p, states, labels, n - 1);
      OpenStep(p, states[n - 1], labels[n - 1], states[n], openTime);
    }
  }

  /** Nothing in the call's place shows that it was admitted: it is entering, or ending without a success. */
  predicate ShowsNoAdmission(c: Call) {
    c.Entering? || ((c.Recording? || c.Finishing? || c.Done?) && !c.outcome.Succeeded?)
  }

  lemma {:induction false} ClockNeverGoesBack(p: Policy, states: seq<System>, labels: seq<Label>, m: nat, n: nat)
    requires IsRun(p, states, labels) && m <= n <= |labels|
    ensures states[m].clock <= states[n].clock && |states[m].calls| == |states[n].calls|
    decreases n
  {
    if n > m {
      ClockNeverGoesBack(p, states, labels, m, n - 1);
      assert StepAt(p, states, labels, n - 1);
    }
  }

  /** The first recorded success among the steps `m .. n - 1`. */
  lemma {:induction false} FirstSuccess(states: seq<System>, labels: seq<Label>, m: nat, n: nat) returns (q: nat)
    requires m <= n <= |labels| && n <= |states|
    requires exists k :: m <= k < n && RecordsSuccess(states[k], labels[k])
    ensures m <= q < n && RecordsSuccess(states[q], labels[q])
    ensures forall k | m <= k < q :: !RecordsSuccess(states[k], labels[k])
    decreases n
  {
    if exists k :: m <= k < n - 1 && RecordsSuccess(states[k], labels[k]) {
      q := FirstSuccess(states, labels, m, n - 1);
    } else {
      q := n - 1;
    }
  }

  lemma SuccessSinceOpening(p: Policy, states: seq<System>, labels: seq<Label>, m: nat, n: nat, openTime: real)
    requires IsRun(p, states, labels) && m <= n < |labels|
    requires states[m].guard.state.Open? && states[m].guard.openedAt == Models.Some(openTime)
    requires Admits(states[n], labels[n], states[n + 1]) && labels[n].now < openTime + p.recoverySeconds
    ensures exists q :: m <= q < n && RecordsSuccess(states[q], labels[q])
  {
    if forall q | m <= q < n :: !RecordsSuccess(states[q], labels[q]) {
      assert StepAt(p, states, labels, n);
      if n > m { assert StepAt(p, states, labels, n - 1); }
      StaysOpen(p, states, labels, m, n, openTime);
      RunOk(p, states, labels, n);
      OpenStep(p, states[n], labels[n], states[n + 1], openTime);
    }
  }

  /** A call whose place shows an admission was admitted by an earlier step. */
  lemma {:induction false} AdmittedBefore(p: Policy, states: seq<System>, labels: seq<Label>, n: nat, i: nat)
      returns (a: nat)
    requires IsRun(p, states, labels) && n <= |labels|
    requires i < |states[n].calls| && !ShowsNoAdmission(states[n].calls[i])
    ensures a < n && Admits(states[a], labels[a], states[a + 1]) && labels[a].i == i
  {
    assert StepAt(p, states, labels, n - 1);
    if ShowsNoAdmission(states[n - 1].calls[i]) {
      a := n - 1;
    } else {
      a := AdmittedBefore(p, states, labels, n - 1, i);
    }
  }

  lemma {:induction false} AdmissionIsCounted(states: seq<System>, labels: seq<Label>, m: nat, n: nat, a: nat)
    requires |states| == |labels| + 1 && m <= a < n <= |labels| && Admits(states[a], labels[a], states[a + 1])
    ensures Admissions(states, labels, m, n) >= 1
    decreases n
  {
    if a < n - 1 { AdmissionIsCounted(states, labels, m, n - 1, a); }
  }

  /**
   A call admitted less than `recoverySeconds` after the circuit was seen open since
   `openTime` is preceded, in between, by a recorded success; and the first such success
   belongs to a call that an earlier step had admitted.
   */
  lemma OpenCircuitHoldsBack(p: Policy, states: seq<System>, labels: seq<Label>, m: nat, n: nat, openTime: real)
      returns (q: nat, a: nat)
    requires IsRun(p, states, labels) && m <= n < |labels|
    requires states[m].guard.state.Open? && states[m].guard.openedAt == Models.Some(openTime)
    requires Admits(states[n], labels[n], states[n + 1]) && labels[n].now < openTime + p.recoverySeconds
    ensures m <= q < n && RecordsSuccess(states[q], labels[q])
    ensures forall k | m <= k < q :: !RecordsSuccess(states[k], labels[k])
    ensures a < m && Admits(states[a], labels[a], states[a + 1]) && labels[a].i == labels[q].i
  {
    SuccessSinceOpening(p, states, labels, m, n, openTime);
    q := FirstSuccess(states, labels, m, n);
    assert StepAt(p, states, labels, n);
    if q > m { assert StepAt(p, states, labels, q - 1); }
    ClockNeverGoesBack(p, states, labels, q, n);
    StaysOpen(p, states, labels, m, q, openTime);
    a := AdmittedBefore(p, states, labels, q, labels[q].i);
    if a >= m { AdmissionIsCounted(states, labels, m, q, a); }
  }

  // ---------- rate ----------

  /** The step hands out a token at a time within `[from, to]`. */
  predicate Grants(s: System, l: Label, s': System, from: real, to: real) {
    l.action.TokenTry? && l.i < |s'.calls| && s'.calls[l.i].Queuing? && from <= l.now <= to
  }

  /** Tokens handed out within the window among the first `n` steps. */
  function Granted(states: seq<System>, labels: seq<Label>, n: nat, from: real, to: real): nat
    requires |states| == |labels| + 1 && n <= |labels|
  {
    if n == 0 then 0
    else Granted(states, labels, n - 1, from, to)
         + if Grants(states[n - 1], labels[n - 1], states[n], from, to) then 1 else 0
  }

  /** While the window is open, grants so far and the tokens left are paid for by the burst and the refill. */
  predicate Paid(p: Policy, s: System, granted: nat, from: real, to: real) {
    && (granted == 0 || granted as real <= p.burst as real + Accrued(p, to - from))
    && (s.guard.lastRefill <= to ==>
          granted == 0
          || (from <= s.guard.lastRefill
              && granted as real + s.guard.tokens <= p.burst as real + Accrued(p, s.guard.lastRefill - from)))
  }

  lemma AccruedAdds(p: Policy, a: real, b: real)
    ensures Accrued(p, a) + Accrued(p, b) == Accrued(p, a + b)
  {
  }

  lemma PaidStep(p: Policy, s: System, l: Label, s': System, granted: nat, from: real, to: real)
    requires GuardOk(p, s) && Step(p, s, l, s') && from <= to && Paid(p, s, granted, from, to)
    ensures Paid(p, s', granted + (if Grants(s, l, s', from, to) then 1 else 0), from, to)
  {
    if l.action.TokenTry? && l.now <= to {
      TakeTokenKeepsBucket(p, s.guard, l.now);
      if granted > 0 { AccruedAdds(p, l.now - s.guard.lastRefill, s.guard.lastRefill - from); }
      if from <= l.now {
        AccruedIsMonotone(p, 0.0, l.now - from);
        AccruedIsMonotone(p, l.now - from, to - from);
      }
    }
  }

  lemma {:induction false} GrantsArePaid(p: Policy, states: seq<System>, labels: seq<Label>, n: nat, from: real, to: real)
    requires IsRun(p, states, labels) && n <= |labels| && from <= to
    ensures Paid(p, states[n], Granted(states, labels, n, from, to), from, to)
  {
    if n > 0 {
      GrantsArePaid(p, states, labels, n - 1, from, to);
      RunOk(p, states, labels, n - 1);
      assert StepAt(p, states, labels, n - 1);
      PaidStep(p, states[n - 1], labels[n - 1], states[n], Granted(states, labels, n - 1, from, to), from, to);
    }
  }

  /** In every window of every run at most `burst + rate * length` tokens are handed out. */
  lemma RateIsBounded(p: Policy, states: seq<System>, labels: seq<Label>, n: nat, from: real, to: real)
    requires IsRun(p, states, labels) && n <= |labels| && from <= to
    ensures Granted(states, labels, n, from, to) as real <= p.burst as real + (to - from) * p.rate
  {
    GrantsArePaid(p, states, labels, n, from, to);
    RunOk(p, states, labels, n);
    AccruedIsMonotone(p, 0.0, to - from);
  }

  // ---------- the ledger of tokens ----------

  /** What the bucket would hold without its brim. */
  function Unbounded(p: Policy, g: Guard, now: real): real {
    g.tokens + (now - g.lastRefill) * p.rate
  }

  /** A try gets a token if and only if one is there by then, and a token is all that it costs. */
  lemma GrantsExactly(p: Policy, states: seq<System>, labels: seq<Label>, n: nat)
    requires IsRun(p, states, labels) && n < |labels| && labels[n].action.TokenTry?
    ensures var s, l, g' := states[n], labels[n], states[n + 1].guard;
            && l.i < |states[n + 1].calls| && g'.lastRefill == l.now
            && (states[n + 1].calls[l.i].Queuing? <==> Unbounded(p, s.guard, l.now) >= 1.0)
            && g'.tokens + Spill(p, s, l) + (if states[n + 1].calls[l.i].Queuing? then 1.0 else 0.0)
               == Unbounded(p, s.guard, l.now)
  {
    RunOk(p, states, labels, n);
    assert StepAt(p, states, labels, n);
  }

  /** What runs over the brim in this step. */
  function Spill(p: Policy, s: System, l: Label): real {
    if l.action.TokenTry? && Unbounded(p, s.guard, l.now) > p.burst as real
    then Unbounded(p, s.guard, l.now) - p.burst as real else 0.0
  }

  function Spilled(p: Policy, states: seq<System>, labels: seq<Label>, n: nat): real
    requires |states| == |labels| + 1 && n <= |labels|
  {
    if n == 0 then 0.0 else Spilled(p, states, labels, n - 1) + Spill(p, states[n - 1], labels[n - 1])
  }

  /** Tokens handed out among the first `n` steps. */
  function HandedOut(states: seq<System>, labels: seq<Label>, n: nat): nat
    requires |states| == |labels| + 1 && n <= |labels|
  {
    if n == 0 then 0
    else HandedOut(states, labels, n - 1)
         + if labels[n - 1].action.TokenTry? && labels[n - 1].i < |states[n].calls| && states[n].calls[labels[n - 1].i].Queuing?
           then 1 else 0
  }

  lemma RefilledFrom(p: Policy, a: real, b: real, c: real)
    ensures (b - a) * p.rate + (c - b) * p.rate == (c - a) * p.rate
  {
  }

  lemma OtherStepsKeepTokens(p: Policy, states: seq<System>, labels: seq<Label>, n: nat)
    requires IsRun(p, states, labels) && n < |labels| && !labels[n].action.TokenTry?
    ensures states[n + 1].guard.tokens == states[n].guard.tokens
    ensures states[n + 1].guard.lastRefill == states[n].guard.lastRefill
  {
    assert StepAt(p, states, labels, n);
  }

  /** In every run: what was handed out, what is left and what ran over add up to the burst and the refill. */
  lemma {:induction false} TokensAreConserved(p: Policy, states: seq<System>, labels: seq<Label>, n: nat)
    requires IsRun(p, states, labels) && n <= |labels|
    ensures HandedOut(states, labels, n) as real + states[n].guard.tokens + Spilled(p, states, labels, n)
         == p.burst as real + (states[n].guard.lastRefill - states[0].guard.lastRefill) * p.rate
  {
    if n > 0 {
      TokensAreConserved(p, states, labels, n - 1);
      if labels[n - 1].action.TokenTry? {
        GrantsExactly(p, states, labels, n - 1);
        RefilledFrom(p, states[0].guard.lastRefill, states[n - 1].guard.lastRefill, labels[n - 1].now);
      } else {
        OtherStepsKeepTokens(p, states, labels, n - 1);
      }
    }
  }

  // ---------- what a call reports ----------

  predicate ReportsUnknown(c: Call) {
    (c.Recording? || c.Finishing? || c.Done?) && c.outcome.Failed? && c.outcome.error.reconciliationRequired
  }

  /** Where a call's end is decided: its operation returns or raises, or it times out or is cancelled. */
  predicate MakesUnknown(s: System, l: Label) {
    && l.i < |s.calls| == |s.mutating| && s.calls[l.i].Running?
    && ((l.action.TimeOut? && s.mutating[l.i]) || (l.action.Raise? && l.action.error.reconciliationRequired))
  }

  /** A call that timed out reports an unknown outcome if and only if it is a mutation whose operation had started. */
  lemma TimeOutReports(p: Policy, states: seq<System>, labels: seq<Label>, n: nat)
    requires IsRun(p, states, labels) && n < |labels| && labels[n].action.TimeOut?
    ensures labels[n].i < |states[n].calls| == |states[n].mutating| && labels[n].i < |states[n + 1].calls|
    ensures states[n + 1].calls[labels[n].i].Recording? && states[n + 1].calls[labels[n].i].outcome.Failed?
    ensures states[n + 1].calls[labels[n].i].outcome.error.kind == Timeout
    ensures ReportsUnknown(states[n + 1].calls[labels[n].i])
            <==> states[n].calls[labels[n].i].Running? && states[n].mutating[labels[n].i]
  {
    assert StepAt(p, states, labels, n);
  }

  lemma ReportStep(p: Policy, states: seq<System>, labels: seq<Label>, n: nat, i: nat)
    requires IsRun(p, states, labels) && n < |labels| && i < |states[n + 1].calls|
    requires ReportsUnknown(states[n + 1].calls[i])
    ensures i < |states[n].calls|
    ensures ReportsUnknown(states[n].calls[i]) || (labels[n].i == i && MakesUnknown(states[n], labels[n]))
  {
    assert StepAt(p, states, labels, n);
  }

  /** In every run a call reports an unknown outcome only after its operation had started and timed out or said so. */
  lemma {:induction false} UnknownMeansStarted(p: Policy, states: seq<System>, labels: seq<Label>, n: nat, i: nat)
      returns (q: nat)
    requires IsRun(p, states, labels) && n < |states| && i < |states[n].calls| && ReportsUnknown(states[n].calls[i])
    ensures q < n && labels[q].i == i && MakesUnknown(states[q], labels[q])
  {
    ReportStep(p, states, labels, n - 1, i);
    if ReportsUnknown(states[n - 1].calls[i]) {
      q := UnknownMeansStarted(p, states, labels, n - 1, i);
    } else {
      q := n - 1;
    }
  }
}
