/**
 What a whole pass writes, read off its labels: the steps an actor takes one after the
 other, with anything the other actors do in between.
 */
module Passes {
  import opened Models
  import opened Clock
  import opened JobStore
  import opened Engine
  import opened EngineInvariant
  import EngineEvolution
  import opened EngineTheorems
  import opened Evidence
  import opened Endings

  // ---------- an actor's own steps ----------

  predicate TakenBy(l: Label, i: nat) {
    !l.ExpireQueue? && !l.Plan? && !l.DropConfirmation? && l.i == i
  }

  /** Step `q` is the next step actor `i` takes after step `p`. */
  ghost predicate NextOwn(labels: seq<Label>, i: nat, p: nat, q: nat) {
    p < q < |labels| && forall k | p < k < q :: !TakenBy(labels[k], i)
  }

  ghost predicate OwnAt(labels: seq<Label>, i: nat, at: seq<nat>, own: seq<Label>, k: nat)
    requires |at| == |own|
  {
    k < |at| ==>
      && at[k] < |labels| && labels[at[k]] == own[k] && TakenBy(own[k], i)
      && (k > 0 ==> NextOwn(labels, i, at[k - 1], at[k]))
  }

  /** `own` are consecutive steps of actor `i`; they happen at the positions `at` of the run. */
  ghost predicate OwnSteps(labels: seq<Label>, i: nat, at: seq<nat>, own: seq<Label>) {
    |at| == |own| > 0 && forall k: nat :: OwnAt(labels, i, at, own, k)
  }

  lemma OthersKeepPlace(cfg: Config, s: System, l: Label, s': System, i: nat)
    requires Step(cfg, s, l, s') && i < |s.actors| && !TakenBy(l, i)
    ensures i < |s'.actors| && s'.actors[i] == s.actors[i]
  {
    if IsWorkerLabel(l) { WorkerStepCargo(cfg, s, l, s'); } else { OtherStepCargo(cfg, s, l, s'); }
  }

  lemma {:induction false} KeepsPlace(cfg: Config, states: seq<System>, labels: seq<Label>, i: nat, p: nat, q: nat)
    requires IsRun(cfg, states, labels) && p <= q < |states| && i < |states[p].actors|
    requires forall k | p <= k < q :: !TakenBy(labels[k], i)
    ensures i < |states[q].actors| && states[q].actors[i] == states[p].actors[i]
    decreases q
  {
    if p < q {
      KeepsPlace(cfg, states, labels, i, p, q - 1);
      RunOthersKeepPlace(cfg, states, labels, i, q - 1);
    }
  }

  lemma RunOthersKeepPlace(cfg: Config, states: seq<System>, labels: seq<Label>, i: nat, n: nat)
    requires IsRun(cfg, states, labels) && n < |labels| && i < |states[n].actors| && !TakenBy(labels[n], i)
    ensures i < |states[n + 1].actors| && states[n + 1].actors[i] == states[n].actors[i]
  {
    assert StepAt(cfg, states, labels, n);
    OthersKeepPlace(cfg, states[n], labels[n], states[n + 1], i);
  }

  lemma RunActorsStay(cfg: Config, states: seq<System>, labels: seq<Label>, n: nat, i: nat)
    requires IsRun(cfg, states, labels) && n < |labels| && TakenBy(labels[n], i)
    ensures i < |states[n].actors| == |states[n + 1].actors|
  {
    assert StepAt(cfg, states, labels, n);
    ActorsStay(cfg, states[n], labels[n], states[n + 1], i);
  }

  lemma ActorsStay(cfg: Config, s: System, l: Label, s': System, i: nat)
    requires Step(cfg, s, l, s')
    ensures |s'.actors| == |s.actors| && (TakenBy(l, i) ==> i < |s.actors|)
  {
    if IsWorkerLabel(l) { WorkerStepCargo(cfg, s, l, s'); } else { OtherStepCargo(cfg, s, l, s'); }
  }

  /** The actor takes its next step from where the one before left it. */
  lemma NextPlace(cfg: Config, states: seq<System>, labels: seq<Label>, i: nat, at: seq<nat>, own: seq<Label>, k: nat)
    requires IsRun(cfg, states, labels) && OwnSteps(labels, i, at, own) && k + 1 < |at|
    ensures at[k] < at[k + 1] < |labels| && i < |states[at[k] + 1].actors| && i < |states[at[k + 1]].actors|
    ensures states[at[k + 1]].actors[i] == states[at[k] + 1].actors[i]
  {
    assert OwnAt(labels, i, at, own, k) && OwnAt(labels, i, at, own, k + 1);
    RunActorsStay(cfg, states, labels, at[k], i);
    KeepsPlace(cfg, states, labels, i, at[k] + 1, at[k + 1]);
  }

  /** The row as a committed last write leaves it: no lease, and nothing of identity or budget touched. */
  function Finished(row: Job, state: JobState, result: Option<ResultDoc>, error: Option<JobError>, now: DateTime): Job {
    row.(state := state, result := result, error := error,
         leaseOwner := None, leaseToken := None, leaseExpiresAt := None, updatedAt := now)
  }

  /** The error of an adapter that says its postcondition does not hold yet. */
  predicate SaysNotYet(e: Option<JobError>, v: Verification) {
    e.Some? && e.value.code == "conflict" && e.value.retry == ReconcileFirst
    && e.value.reconciliationRequired && e.value.details == v.details
  }

  // ---------- a worker's pass ----------

  /** How a pass ends before its last write: the adapter verified, or one of its calls raised. */
  datatype PassEnd = Checked(observation: Observation, verification: Verification) | Broken(error: JobError)

  /** What `execute` returned in the pass, if it did. */
  function Heard(own: seq<Label>): Option<Execution> {
    if |own| > 2 && own[2].ExecuteReplies? && own[2].execution.Returned? then Some(own[2].execution.value) else None
  }

  /** Claim, execute and, unless that raised, record, renew, observe and, unless that raised, verify; then the last write. */
  predicate WorkerHears(own: seq<Label>, j: string, token: string, end: PassEnd) {
    && |own| >= 4
    && own[0].Claim? && own[0].row == Some(j) && own[0].token == token
    && own[1].CallExecute? && own[2].ExecuteReplies? && own[|own| - 1].Settle?
    && (if |own| == 4 then
          end.Broken? && own[2].execution == Raised(end.error)
        else
          && |own| >= 7 && own[2].execution.Returned?
          && own[3].MarkVerifying? && own[4].Renew? && own[5].ObserveReplies?
          && (if |own| == 7 then
                end.Broken? && own[5].observation == Raised(end.error)
              else
                && |own| == 8 && own[5].observation.Returned? && own[6].VerifyReplies?
                && match own[6].verification
                   case Raised(e) => end == Broken(e)
                   case Returned(v) => end == Checked(own[5].observation.value, v)))
  }

  /** Where the worker stands once it has heard all there is to hear. */
  predicate StandsAt(a: Actor, j: string, token: string, execution: Option<Execution>, end: PassEnd) {
    match end
    case Broken(e) => a == Failing(j, token, e)
    case Checked(o, v) =>
      if v.satisfied then execution.Some? && a == Succeeding(j, token, execution.value, o, v)
      else a.Failing? && a.job == j && a.fence == token && a.failure.reconciliationRequired && SaysNotYet(Some(a.failure), v)
  }

  lemma ClaimPlace(cfg: Config, states: seq<System>, labels: seq<Label>, n: nat, i: nat, j: string)
    requires IsRun(cfg, states, labels) && n < |labels| && labels[n].Claim? && labels[n].i == i
    requires labels[n].row == Some(j)
    ensures i < |states[n + 1].actors| && states[n + 1].actors[i] == Claimed(j, labels[n].token)
  {
    assert StepAt(cfg, states, labels, n);
  }

  lemma CallPlace(cfg: Config, states: seq<System>, labels: seq<Label>, n: nat, i: nat, j: string, token: string)
    requires IsRun(cfg, states, labels) && n < |labels| && labels[n].CallExecute?
    requires labels[n].i == i < |states[n].actors|
    requires states[n].actors[i] == Claimed(j, token)
    ensures i < |states[n + 1].actors| && states[n + 1].actors[i] == Executing(j, token)
  {
    assert StepAt(cfg, states, labels, n);
  }

  lemma ExecutePlace(cfg: Config, states: seq<System>, labels: seq<Label>, n: nat, i: nat, j: string, token: string)
    requires IsRun(cfg, states, labels) && n < |labels| && labels[n].ExecuteReplies?
    requires labels[n].i == i < |states[n].actors|
    requires states[n].actors[i] == Executing(j, token)
    ensures i < |states[n + 1].actors|
    ensures states[n + 1].actors[i]
         == match labels[n].execution case Returned(ex) => Executed(j, token, ex) case Raised(e) => Failing(j, token, e)
  {
    assert StepAt(cfg, states, labels, n);
  }

  /** A worker that goes on to renew has recorded its execution. */
  lemma MarkPlace(cfg: Config, states: seq<System>, labels: seq<Label>, n: nat, i: nat, j: string, token: string,
                  ex: Execution)
    requires IsRun(cfg, states, labels) && n < |labels| && labels[n].MarkVerifying?
    requires labels[n].i == i < |states[n].actors|
    requires states[n].actors[i] == Executed(j, token, ex)
    ensures i < |states[n + 1].actors| && states[n + 1].actors[i] in [Renewing(j, token, ex), Idle]
  {
    assert StepAt(cfg, states, labels, n);
  }

  lemma RenewPlace(cfg: Config, states: seq<System>, labels: seq<Label>, n: nat, i: nat, j: string, token: string,
                   ex: Execution)
    requires IsRun(cfg, states, labels) && n < |labels| && labels[n].Renew? && labels[n].i == i < |states[n].actors|
    requires states[n].actors[i] in [Renewing(j, token, ex), Idle]
    ensures i < |states[n + 1].actors| && states[n + 1].actors[i] == Observing(j, token, ex)
  {
    assert StepAt(cfg, states, labels, n);
  }

  lemma ObservePlace(cfg: Config, states: seq<System>, labels: seq<Label>, n: nat, i: nat, j: string, token: string,
                     ex: Execution)
    requires IsRun(cfg, states, labels) && n < |labels| && labels[n].ObserveReplies?
    requires labels[n].i == i < |states[n].actors|
    requires states[n].actors[i] == Observing(j, token, ex)
    ensures i < |states[n + 1].actors|
    ensures states[n + 1].actors[i]
         == match labels[n].observation case Returned(o) => Verify(j, token, ex, o) case Raised(e) => Failing(j, token, e)
  {
    assert StepAt(cfg, states, labels, n);
  }

  lemma VerifyPlace(cfg: Config, states: seq<System>, labels: seq<Label>, n: nat, i: nat, j: string, token: string,
                    ex: Execution, o: Observation)
    requires IsRun(cfg, states, labels) && n < |labels| && labels[n].VerifyReplies?
    requires labels[n].i == i < |states[n].actors|
    requires states[n].actors[i] == Verify(j, token, ex, o)
    ensures i < |states[n + 1].actors|
    ensures StandsAt(states[n + 1].actors[i], j, token, Some(ex),
                     match labels[n].verification case Returned(v) => Checked(o, v) case Raised(e) => Broken(e))
  {
    assert StepAt(cfg, states, labels, n);
  }

  // Step by step to the last write.

  lemma FirstClaims(own: seq<Label>, j: string, token: string, end: PassEnd)
    requires WorkerHears(own, j, token, end)
    ensures |own| >= 4 && own[0].Claim? && own[0].row == Some(j) && own[0].token == token
  {
  }

  lemma ClaimedNext(cfg: Config, states: seq<System>, labels: seq<Label>, i: nat, at: seq<nat>, own: seq<Label>, j: string)
    requires IsRun(cfg, states, labels) && OwnSteps(labels, i, at, own)
    requires |own| > 1 && own[0].Claim? && own[0].row == Some(j)
    ensures at[1] < |labels| && i < |states[at[1]].actors| && states[at[1]].actors[i] == Claimed(j, own[0].token)
  {
    NextPlace(cfg, states, labels, i, at, own, 0);
    assert OwnAt(labels, i, at, own, 0);
    ClaimPlace(cfg, states, labels, at[0], i, j);
  }

  lemma ClaimedPass(cfg: Config, states: seq<System>, labels: seq<Label>, i: nat, at: seq<nat>, own: seq<Label>,
                    j: string, token: string, end: PassEnd)
    requires IsRun(cfg, states, labels) && OwnSteps(labels, i, at, own) && WorkerHears(own, j, token, end)
    ensures at[1] < |labels| && i < |states[at[1]].actors|
    ensures states[at[1]].actors[i] == Claimed(j, token)
  {
    FirstClaims(own, j, token, end);
    ClaimedNext(cfg, states, labels, i, at, own, j);
  }

  lemma CalledPass(cfg: Config, states: seq<System>, labels: seq<Label>, i: nat, at: seq<nat>, own: seq<Label>,
                   j: string, token: string, end: PassEnd)
    requires IsRun(cfg, states, labels) && OwnSteps(labels, i, at, own) && WorkerHears(own, j, token, end)
    ensures at[2] < |labels| && i < |states[at[2]].actors|
    ensures states[at[2]].actors[i] == Executing(j, token)
  {
    ClaimedPass(cfg, states, labels, i, at, own, j, token, end);
    assert OwnAt(labels, i, at, own, 1);
    CallPlace(cfg, states, labels, at[1], i, j, token);
    NextPlace(cfg, states, labels, i, at, own, 1);
  }

  lemma ExecutedPass(cfg: Config, states: seq<System>, labels: seq<Label>, i: nat, at: seq<nat>, own: seq<Label>,
                     j: string, token: string, end: PassEnd)
    requires IsRun(cfg, states, labels) && OwnSteps(labels, i, at, own) && WorkerHears(own, j, token, end)
    ensures at[3] < |labels| && i < |states[at[3]].actors|
    ensures states[at[3]].actors[i]
         == match own[2].execution case Returned(ex) => Executed(j, token, ex) case Raised(e) => Failing(j, token, e)
  {
    CalledPass(cfg, states, labels, i, at, own, j, token, end);
    assert OwnAt(labels, i, at, own, 2);
    ExecutePlace(cfg, states, labels, at[2], i, j, token);
    NextPlace(cfg, states, labels, i, at, own, 2);
  }

  lemma MarkedPass(cfg: Config, states: seq<System>, labels: seq<Label>, i: nat, at: seq<nat>, own: seq<Label>,
                   j: string, token: string, end: PassEnd)
    requires IsRun(cfg, states, labels) && OwnSteps(labels, i, at, own) && WorkerHears(own, j, token, end) && |own| >= 7
    ensures at[4] < |labels| && i < |states[at[4]].actors|
    ensures states[at[4]].actors[i] in [Renewing(j, token, own[2].execution.value), Idle]
  {
    ExecutedPass(cfg, states, labels, i, at, own, j, token, end);
    assert OwnAt(labels, i, at, own, 3);
    MarkPlace(cfg, states, labels, at[3], i, j, token, own[2].execution.value);
    NextPlace(cfg, states, labels, i, at, own, 3);
  }

  lemma RenewedPass(cfg: Config, states: seq<System>, labels: seq<Label>, i: nat, at: seq<nat>, own: seq<Label>,
                    j: string, token: string, end: PassEnd)
    requires IsRun(cfg, states, labels) && OwnSteps(labels, i, at, own) && WorkerHears(own, j, token, end) && |own| >= 7
    ensures at[5] < |labels| && i < |states[at[5]].actors|
    ensures states[at[5]].actors[i] == Observing(j, token, own[2].execution.value)
  {
    MarkedPass(cfg, states, labels, i, at, own, j, token, end);
    assert OwnAt(labels, i, at, own, 4);
    RenewPlace(cfg, states, labels, at[4], i, j, token, own[2].execution.value);
    NextPlace(cfg, states, labels, i, at, own, 4);
  }

  lemma ObservedPass(cfg: Config, states: seq<System>, labels: seq<Label>, i: nat, at: seq<nat>, own: seq<Label>,
                     j: string, token: string, end: PassEnd)
    requires IsRun(cfg, states, labels) && OwnSteps(labels, i, at, own) && WorkerHears(own, j, token, end) && |own| >= 7
    ensures at[6] < |labels| && i < |states[at[6]].actors|
    ensures states[at[6]].actors[i]
         == match own[5].observation
            case Returned(o) => Verify(j, token, own[2].execution.value, o)
            case Raised(e) => Failing(j, token, e)
  {
    RenewedPass(cfg, states, labels, i, at, own, j, token, end);
    assert OwnAt(labels, i, at, own, 5);
    ObservePlace(cfg, states, labels, at[5], i, j, token, own[2].execution.value);
    NextPlace(cfg, states, labels, i, at, own, 5);
  }

  lemma HeardPass(cfg: Config, states: seq<System>, labels: seq<Label>, i: nat, at: seq<nat>, own: seq<Label>,
                  j: string, token: string, end: PassEnd)
    requires IsRun(cfg, states, labels) && OwnSteps(labels, i, at, own) && WorkerHears(own, j, token, end)
    ensures at[|at| - 1] < |labels| && i < |states[at[|at| - 1]].actors|
    ensures StandsAt(states[at[|at| - 1]].actors[i], j, token, Heard(own), end)
  {
    if |own| == 4 {
      ExecutedPass(cfg, states, labels, i, at, own, j, token, end);
    } else {
      ObservedPass(cfg, states, labels, i, at, own, j, token, end);
      if |own| == 8 {
        assert OwnAt(labels, i, at, own, 6);
        VerifyPlace(cfg, states, labels, at[6], i, j, token, own[2].execution.value, own[5].observation.value);
        NextPlace(cfg, states, labels, i, at, own, 6);
      }
    }
  }

  /** What the pass makes of the row: the whole row, for a worker that still holds the lease, and nothing otherwise. */
  predicate Concludes(row: Job, row': Job, token: string, execution: Option<Execution>, end: PassEnd, now: DateTime) {
    if row.leaseToken != Some(token) then row' == row
    else
      match end
      case Checked(o, v) =>
        if v.satisfied then row' == Finished(row, Succeeded, Some(ResultDoc(execution, Some(o), Some(v), None)), None, now)
        else SaysNotYet(row'.error, v) && row' == Finished(row, UnknownOutcome, None, row'.error, now)
      case Broken(e) =>
        row' == Finished(row, if e.reconciliationRequired then UnknownOutcome else Failed, None, Some(e), now)
  }

  lemma LastWrite(s: System, i: nat, now: DateTime, s': System, j: string, token: string, execution: Option<Execution>,
                  end: PassEnd)
    requires i < |s.actors| && StepSettle(s, i, now, s') && StandsAt(s.actors[i], j, token, execution, end)
    requires CarrierOk(s.db.jobs, s.actors[i]) && LeaseOk(s.db.jobs[j])
    ensures j in s'.db.jobs && Concludes(s.db.jobs[j], s'.db.jobs[j], token, execution, end, now)
  {
  }

  lemma SettleStep(cfg: Config, s: System, l: Label, s': System)
    requires Step(cfg, s, l, s') && l.Settle?
    ensures l.i < |s.actors| && StepSettle(s, l.i, l.now, s')
  {
  }

  lemma WorkerSettles(cfg: Config, states: seq<System>, labels: seq<Label>, q: nat, i: nat, j: string, token: string,
                      execution: Option<Execution>, end: PassEnd)
    requires IsRun(cfg, states, labels) && q < |labels| && labels[q].Settle? && labels[q].i == i < |states[q].actors|
    requires StandsAt(states[q].actors[i], j, token, execution, end)
    ensures j in states[q].db.jobs && j in states[q + 1].db.jobs
    ensures Concludes(states[q].db.jobs[j], states[q + 1].db.jobs[j], token, execution, end, labels[q].now)
  {
    HeldRow(cfg, states, labels, q, i, j);
    assert StepAt(cfg, states, labels, q);
    SettleStep(cfg, states[q], labels[q], states[q + 1]);
    LastWrite(states[q], i, labels[q].now, states[q + 1], j, token, execution, end);
  }

  lemma HeldRow(cfg: Config, states: seq<System>, labels: seq<Label>, q: nat, i: nat, j: string)
    requires IsRun(cfg, states, labels) && q < |states| && i < |states[q].actors|
    requires HasFence(states[q].actors[i]) && states[q].actors[i].job == j
    ensures CarrierOk(states[q].db.jobs, states[q].actors[i]) && j in states[q].db.jobs && LeaseOk(states[q].db.jobs[j])
  {
    RunCargoOk(cfg, states, labels, q);
    assert states[q].actors[i] in states[q].actors;
    LeasesAreWellFormed(cfg, states, labels, q, j);
  }

  /**
   Over any interleaving: a worker's pass that ends in its last write leaves the job SUCCEEDED,
   with the execution, the observation and the verification it heard, if and only if `verify`
   returned a satisfied one; otherwise UNKNOWN_OUTCOME or FAILED as the error says, with that
   error and no result. If the row no longer carries the worker's token it stays as it is.
   */
  lemma WorkerWritesWhatItHeard(cfg: Config, states: seq<System>, labels: seq<Label>, i: nat, at: seq<nat>, own: seq<Label>,
                                j: string, token: string, end: PassEnd)
    requires IsRun(cfg, states, labels) && OwnSteps(labels, i, at, own) && WorkerHears(own, j, token, end)
    ensures var q := at[|at| - 1];
            && q < |labels| && j in states[q].db.jobs && j in states[q + 1].db.jobs
            && Concludes(states[q].db.jobs[j], states[q + 1].db.jobs[j], token, Heard(own), end, own[|own| - 1].now)
  {
    HeardPass(cfg, states, labels, i, at, own, j, token, end);
    assert OwnAt(labels, i, at, own, |at| - 1);
    WorkerSettles(cfg, states, labels, at[|at| - 1], i, j, token, Heard(own), end);
  }

  // ---------- a reconciler's pass over one job ----------

  /** Begin, observe and, unless that raised, verify; then the last write. */
  predicate ReconcilerHears(own: seq<Label>, end: PassEnd) {
    && |own| >= 3
    && own[0].BeginReconcile? && own[1].ObserveReplies? && own[|own| - 1].Settle?
    && (if |own| == 3 then
          end.Broken? && own[1].observation == Raised(end.error)
        else
          && |own| == 4 && own[1].observation.Returned? && own[2].VerifyReplies?
          && match own[2].verification
             case Raised(e) => end == Broken(e)
             case Returned(v) => end == Checked(own[1].observation.value, v))
  }

  /** Where the reconciler stands: what it asks the store to write. */
  predicate AboutToSettle(a: Actor, view: JobView, rest: seq<JobView>, end: PassEnd) {
    && a.Settling? && a.view == view && a.todo == rest
    && match end
       case Broken(e) =>
         a.target == (if e.retry == Never then Failed else UnknownOutcome)
         && a.result == ResultOrEmpty(view.result) && a.error == Some(e)
       case Checked(o, v) =>
         if v.satisfied then
           && a.target == Succeeded && a.error == None
           && a.result == ResultDoc(ResultOrEmpty(view.result).execution, Some(o), Some(v),
                                    ResultOrEmpty(view.result).cancellation)
         else a.target == UnknownOutcome && SaysNotYet(a.error, v) && a.result == ResultOrEmpty(view.result)
  }

  /** The pass starts with `view` next on the reconciler's list. */
  predicate StartsWith(states: seq<System>, at: seq<nat>, i: nat, view: JobView, rest: seq<JobView>) {
    |at| > 0 && at[0] < |states| && i < |states[at[0]].actors| && states[at[0]].actors[i] == Reconciling([view] + rest)
  }

  lemma BeginPlace(cfg: Config, states: seq<System>, labels: seq<Label>, n: nat, i: nat, view: JobView, rest: seq<JobView>)
    requires IsRun(cfg, states, labels) && n < |labels| && labels[n].BeginReconcile?
    requires labels[n].i == i < |states[n].actors|
    requires states[n].actors[i] == Reconciling([view] + rest)
    ensures i < |states[n + 1].actors| && states[n + 1].actors[i] in [ReObserving(view, rest), Idle]
    ensures states[n + 1].actors[i].ReObserving? ==>
              view.id in states[n + 1].db.jobs && states[n + 1].db.jobs[view.id].state.Verifying?
  {
    assert StepAt(cfg, states, labels, n);
    assert ([view] + rest)[1..] == rest;
  }

  lemma ReObservePlace(cfg: Config, states: seq<System>, labels: seq<Label>, n: nat, i: nat, view: JobView, rest: seq<JobView>)
    requires IsRun(cfg, states, labels) && n < |labels| && labels[n].ObserveReplies?
    requires labels[n].i == i < |states[n].actors|
    requires states[n].actors[i] in [ReObserving(view, rest), Idle]
    ensures states[n].actors[i] == ReObserving(view, rest) && i < |states[n + 1].actors|
    ensures match labels[n].observation
            case Returned(o) => states[n + 1].actors[i] == ReVerifying(view, o, rest)
            case Raised(e) => AboutToSettle(states[n + 1].actors[i], view, rest, Broken(e))
  {
    assert StepAt(cfg, states, labels, n);
  }

  lemma ReVerifyPlace(cfg: Config, states: seq<System>, labels: seq<Label>, n: nat, i: nat, view: JobView, o: Observation,
                      rest: seq<JobView>)
    requires IsRun(cfg, states, labels) && n < |labels| && labels[n].VerifyReplies?
    requires labels[n].i == i < |states[n].actors|
    requires states[n].actors[i] == ReVerifying(view, o, rest)
    ensures i < |states[n + 1].actors|
    ensures AboutToSettle(states[n + 1].actors[i], view, rest,
                          match labels[n].verification case Returned(v) => Checked(o, v) case Raised(e) => Broken(e))
  {
    assert StepAt(cfg, states, labels, n);
  }

  lemma BegunPass(cfg: Config, states: seq<System>, labels: seq<Label>, i: nat, at: seq<nat>, own: seq<Label>,
                  view: JobView, rest: seq<JobView>, end: PassEnd)
    requires IsRun(cfg, states, labels) && OwnSteps(labels, i, at, own) && ReconcilerHears(own, end)
    requires StartsWith(states, at, i, view, rest)
    ensures at[0] < at[1] < |labels| && i < |states[at[1]].actors| && states[at[1]].actors[i] == ReObserving(view, rest)
    ensures view.id in states[at[0] + 1].db.jobs && states[at[0] + 1].db.jobs[view.id].state.Verifying?
  {
    assert OwnAt(labels, i, at, own, 0);
    BeginPlace(cfg, states, labels, at[0], i, view, rest);
    NextPlace(cfg, states, labels, i, at, own, 0);
    assert OwnAt(labels, i, at, own, 1);
    ReObservePlace(cfg, states, labels, at[1], i, view, rest);
  }

  lemma ReObservedPass(cfg: Config, states: seq<System>, labels: seq<Label>, i: nat, at: seq<nat>, own: seq<Label>,
                       view: JobView, rest: seq<JobView>, end: PassEnd)
    requires IsRun(cfg, states, labels) && OwnSteps(labels, i, at, own) && ReconcilerHears(own, end)
    requires StartsWith(states, at, i, view, rest)
    ensures at[0] < at[1] < at[2] < |labels| && i < |states[at[2]].actors|
    ensures match own[1].observation
            case Returned(o) => states[at[2]].actors[i] == ReVerifying(view, o, rest)
            case Raised(e) => AboutToSettle(states[at[2]].actors[i], view, rest, Broken(e))
  {
    BegunPass(cfg, states, labels, i, at, own, view, rest, end);
    assert OwnAt(labels, i, at, own, 1);
    ReObservePlace(cfg, states, labels, at[1], i, view, rest);
    NextPlace(cfg, states, labels, i, at, own, 1);
  }

  lemma ReheardPass(cfg: Config, states: seq<System>, labels: seq<Label>, i: nat, at: seq<nat>, own: seq<Label>,
                    view: JobView, rest: seq<JobView>, end: PassEnd)
    requires IsRun(cfg, states, labels) && OwnSteps(labels, i, at, own) && ReconcilerHears(own, end)
    requires StartsWith(states, at, i, view, rest)
    ensures at[0] < at[|at| - 1] < |labels| && i < |states[at[|at| - 1]].actors|
    ensures AboutToSettle(states[at[|at| - 1]].actors[i], view, rest, end)
  {
    ReObservedPass(cfg, states, labels, i, at, own, view, rest, end);
    if |own| == 4 {
      assert OwnAt(labels, i, at, own, 2);
      ReVerifyPlace(cfg, states, labels, at[2], i, view, own[1].observation.value, rest);
      NextPlace(cfg, states, labels, i, at, own, 2);
    }
  }

  /** A job that has been VERIFYING is never QUEUED or RUNNING again. */
  lemma {:induction false} StaysStarted(cfg: Config, states: seq<System>, labels: seq<Label>, m: nat, n: nat, j: string)
    requires IsRun(cfg, states, labels) && m <= n < |states|
    requires j in states[m].db.jobs && !states[m].db.jobs[j].state.Queued? && !states[m].db.jobs[j].state.Running?
    ensures j in states[n].db.jobs && !states[n].db.jobs[j].state.Queued? && !states[n].db.jobs[j].state.Running?
    decreases n
  {
    if m < n {
      StaysStarted(cfg, states, labels, m, n - 1, j);
      RunStepCarries(cfg, states, labels, n - 1);
      assert CarriesAt(states[n - 1].db.jobs, states[n].db.jobs, j);
    }
  }

  lemma RunStepCarries(cfg: Config, states: seq<System>, labels: seq<Label>, n: nat)
    requires IsRun(cfg, states, labels) && n < |labels|
    ensures JobsCarry(states[n].db.jobs, states[n + 1].db.jobs)
  {
    RunOk(cfg, states, labels, n);
    assert StepAt(cfg, states, labels, n);
    StepCarries(cfg, states[n], labels[n], states[n + 1]);
  }

  /** The reconciler's last write is refused when somebody else has settled the job, or put it back, meanwhile. */
  predicate StillOpen(row: Job, target: JobState) {
    row.state.Verifying? || (row.state.UnknownOutcome? && target != UnknownOutcome)
  }

  /** What the reconciler's pass makes of the row, whatever the view's own state was. */
  predicate Reconciles(row: Job, row': Job, view: JobView, end: PassEnd, now: DateTime) {
    var partial := ResultOrEmpty(view.result);
    match end
    case Checked(o, v) =>
      if v.satisfied then
        row' == if StillOpen(row, Succeeded)
                then Finished(row, Succeeded, Some(ResultDoc(partial.execution, Some(o), Some(v), partial.cancellation)),
                              None, now)
                else row
      else if StillOpen(row, UnknownOutcome) then
        SaysNotYet(row'.error, v) && row' == Finished(row, UnknownOutcome, Some(partial), row'.error, now)
      else row' == row
    case Broken(e) =>
      var target := if e.retry == Never then Failed else UnknownOutcome;
      row' == if StillOpen(row, target) then Finished(row, target, Some(partial), Some(e), now) else row
  }

  lemma StartedIsPast(cfg: Config, states: seq<System>, labels: seq<Label>, n: nat, j: string)
    requires IsRun(cfg, states, labels) && n < |states| && j in states[n].db.jobs
    requires !states[n].db.jobs[j].state.Queued? && !states[n].db.jobs[j].state.Running?
    ensures Past(states[n].db.jobs[j].state)
  {
    RunOk(cfg, states, labels, n);
    JobIsSomewhere(cfg, states[n], j);
  }

  lemma LastUnfencedWrite(s: System, i: nat, now: DateTime, s': System, view: JobView, rest: seq<JobView>, end: PassEnd)
    requires i < |s.actors| && StepSettle(s, i, now, s') && AboutToSettle(s.actors[i], view, rest, end)
    requires view.id in s.db.jobs && Past(s.db.jobs[view.id].state)
    ensures view.id in s'.db.jobs && Reconciles(s.db.jobs[view.id], s'.db.jobs[view.id], view, end, now)
  {
  }

  lemma ReconcilerSettles(cfg: Config, states: seq<System>, labels: seq<Label>, q: nat, i: nat, view: JobView,
                          rest: seq<JobView>, end: PassEnd)
    requires IsRun(cfg, states, labels) && q < |labels| && labels[q].Settle? && labels[q].i == i < |states[q].actors|
    requires AboutToSettle(states[q].actors[i], view, rest, end)
    requires view.id in states[q].db.jobs && Past(states[q].db.jobs[view.id].state)
    ensures view.id in states[q + 1].db.jobs
    ensures Reconciles(states[q].db.jobs[view.id], states[q + 1].db.jobs[view.id], view, end, labels[q].now)
  {
    assert StepAt(cfg, states, labels, q);
    SettleStep(cfg, states[q], labels[q], states[q + 1]);
    LastUnfencedWrite(states[q], i, labels[q].now, states[q + 1], view, rest, end);
  }

  /**
   Over any interleaving: a reconciler's pass over a job leaves it SUCCEEDED, with the evidence
   added to what its view held, if and only if `verify` returned a satisfied verification and
   nobody else has ended the job meanwhile; otherwise FAILED after an error never to be
   retried, and UNKNOWN_OUTCOME after any other.
   */
  lemma ReconcilerWritesWhatItHeard(cfg: Config, states: seq<System>, labels: seq<Label>, i: nat, at: seq<nat>,
                                    own: seq<Label>, view: JobView, rest: seq<JobView>, end: PassEnd)
    requires IsRun(cfg, states, labels) && OwnSteps(labels, i, at, own) && ReconcilerHears(own, end)
    requires StartsWith(states, at, i, view, rest)
    ensures var q, j := at[|at| - 1], view.id;
            && q < |labels| && j in states[q].db.jobs && j in states[q + 1].db.jobs
            && Reconciles(states[q].db.jobs[j], states[q + 1].db.jobs[j], view, end, own[|own| - 1].now)
  {
    var q := at[|at| - 1];
    BegunPass(cfg, states, labels, i, at, own, view, rest, end);
    ReheardPass(cfg, states, labels, i, at, own, view, rest, end);
    StaysStarted(cfg, states, labels, at[0] + 1, q, view.id);
    StartedIsPast(cfg, states, labels, q, view.id);
    assert OwnAt(labels, i, at, own, |at| - 1);
    ReconcilerSettles(cfg, states, labels, q, i, view, rest, end);
  }

  // ---------- the writes on the way ----------

  lemma MarkedRow(cfg: Config, states: seq<System>, labels: seq<Label>, n: nat, i: nat, j: string, token: string,
                  ex: Execution)
    requires IsRun(cfg, states, labels) && n < |labels| && labels[n].MarkVerifying?
    requires labels[n].i == i < |states[n].actors|
    requires states[n].actors[i] == Executed(j, token, ex) && j in states[n].db.jobs && LeaseOk(states[n].db.jobs[j])
    ensures i < |states[n + 1].actors| && j in states[n + 1].db.jobs
    ensures var row := states[n].db.jobs[j];
            if row.leaseToken == Some(token) && row.state.Running? then
              && states[n + 1].actors[i] == Renewing(j, token, ex)
              && states[n + 1].db.jobs[j]
                 == row.(state := Verifying, result := Some(ResultDoc(Some(ex), None, None, None)), error := None,
                         updatedAt := labels[n].now)
            else states[n + 1].actors[i].Idle? && states[n + 1].db == states[n].db
  {
    assert StepAt(cfg, states, labels, n);
  }

  /**
   Over any interleaving: before it observes anything, a worker that still holds the RUNNING job
   has put what `execute` returned into its row, now VERIFYING under the same lease; one that
   lost the lease ends there with nothing changed.
   */
  lemma WorkerRecordsExecution(cfg: Config, states: seq<System>, labels: seq<Label>, i: nat, at: seq<nat>, own: seq<Label>,
                               j: string, ex: Execution)
    requires IsRun(cfg, states, labels) && OwnSteps(labels, i, at, own) && |own| == 4
    requires own[0].Claim? && own[0].row == Some(j) && own[1].CallExecute?
    requires own[2].ExecuteReplies? && own[2].execution == Returned(ex) && own[3].MarkVerifying?
    ensures at[3] < |labels| && i < |states[at[3] + 1].actors| && j in states[at[3]].db.jobs
    ensures j in states[at[3] + 1].db.jobs
    ensures var row := states[at[3]].db.jobs[j];
            if row.leaseToken == Some(own[0].token) && row.state.Running? then
              && states[at[3] + 1].actors[i] == Renewing(j, own[0].token, ex)
              && states[at[3] + 1].db.jobs[j]
                 == row.(state := Verifying, result := Some(ResultDoc(Some(ex), None, None, None)), error := None,
                         updatedAt := own[3].now)
            else states[at[3] + 1].actors[i].Idle? && states[at[3] + 1].db == states[at[3]].db
  {
    ClaimedNext(cfg, states, labels, i, at, own, j);
    assert OwnAt(labels, i, at, own, 1) && OwnAt(labels, i, at, own, 2) && OwnAt(labels, i, at, own, 3);
    CallPlace(cfg, states, labels, at[1], i, j, own[0].token);
    NextPlace(cfg, states, labels, i, at, own, 1);
    ExecutePlace(cfg, states, labels, at[2], i, j, own[0].token);
    NextPlace(cfg, states, labels, i, at, own, 2);
    HeldRow(cfg, states, labels, at[3], i, j);
    MarkedRow(cfg, states, labels, at[3], i, j, own[0].token, ex);
  }

  /** A pass takes the least recently updated unknown jobs that have budget left, as they stand, in that order. */
  lemma PassTakes(cfg: Config, states: seq<System>, labels: seq<Label>, n: nat)
    requires IsRun(cfg, states, labels) && n < |labels| && labels[n].TakeCandidates?
    ensures labels[n].i < |states[n + 1].actors| && states[n + 1].actors[labels[n].i].Reconciling?
    ensures forall j | j in labels[n].rows :: j in states[n].db.jobs && states[n].db.jobs[j].state.UnknownOutcome?
    ensures ShowsRows(states[n].db, states[n + 1].actors[labels[n].i].todo,
                      UnderBudget(states[n].db, labels[n].rows, cfg.maxAttempts))
  {
    assert StepAt(cfg, states, labels, n);
    OffersAsSelected(states[n].db, labels[n].rows, cfg.maxAttempts);
  }

  /**
   The reconciler begins with a job if and only if it is still open: it is VERIFYING then, with
   what the view held. Otherwise the write raises, and the pass ends with nothing changed.
   */
  lemma ReconcilerBegins(cfg: Config, states: seq<System>, labels: seq<Label>, n: nat, view: JobView, rest: seq<JobView>)
    requires IsRun(cfg, states, labels) && n < |labels| && labels[n].BeginReconcile? && labels[n].i < |states[n].actors|
    requires states[n].actors[labels[n].i] == Reconciling([view] + rest)
    ensures labels[n].i < |states[n + 1].actors|
    ensures var i, jobs := labels[n].i, states[n].db.jobs;
            if view.id in jobs && (jobs[view.id].state.UnknownOutcome? || jobs[view.id].state.Running?) then
              && states[n + 1].actors[i] == ReObserving(view, rest)
              && states[n + 1].db.jobs
                 == jobs[view.id := jobs[view.id].(state := Verifying, result := Some(ResultOrEmpty(view.result)),
                                                   error := view.error, updatedAt := labels[n].now)]
            else states[n + 1].actors[i].Idle? && states[n + 1].db == states[n].db
  {
    assert StepAt(cfg, states, labels, n);
    assert ([view] + rest)[1..] == rest;
  }

  // ---------- a canceller's pass ----------

  /** The step in which a canceller reads the row it will act on. */
  predicate ReadsToCancel(s: System, l: Label, j: string) {
    || (l.ReadForCancel? && l.job == j)
    || (l.Refresh? && l.i < |s.actors| && s.actors[l.i] == CancelRefresh(j))
  }

  lemma ReadPlace(cfg: Config, states: seq<System>, labels: seq<Label>, n: nat, i: nat, j: string)
    requires IsRun(cfg, states, labels) && n < |labels| && ReadsToCancel(states[n], labels[n], j)
    requires labels[n].i == i && i < |states[n + 1].actors|
    ensures states[n + 1].actors[i].CancelQueued? ==>
              j in states[n].db.jobs && labels[n].ReadForCancel? && states[n].db.jobs[j].state.Queued?
              && states[n + 1].actors[i].view == View(j, states[n].db.jobs[j])
    ensures states[n + 1].actors[i].CancelCalling? ==>
              j in states[n].db.jobs && states[n + 1].actors[i].view == View(j, states[n].db.jobs[j])
  {
    assert StepAt(cfg, states, labels, n);
  }

  lemma ReplyPlace(cfg: Config, states: seq<System>, labels: seq<Label>, n: nat, i: nat)
    requires IsRun(cfg, states, labels) && n < |labels| && labels[n].CancelReplies?
    requires labels[n].i == i < |states[n].actors|
    ensures states[n].actors[i].CancelCalling? && i < |states[n + 1].actors|
    ensures states[n + 1].actors[i] == CancelApplying(states[n].actors[i].view, labels[n].cancellation)
  {
    assert StepAt(cfg, states, labels, n);
  }

  /** An error of this code that asks for reconciliation first. */
  predicate SaysUnclear(e: Option<JobError>, c: Cancellation) {
    e.Some? && e.value.code == "cancellation_unknown" && e.value.retry == ReconcileFirst
    && e.value.reconciliationRequired && e.value.details == c.details
  }

  predicate Busy(row: Job) {
    row.state.Running? || row.state.Verifying?
  }

  /** What a cancellation reply makes of the row, `seen` being the row as the canceller had read it. */
  predicate Revises(seen: Job, row: Job, row': Job, reply: Reply<Cancellation>, now: DateTime) {
    match reply
    case Raised(e) =>
      row' == if e.reconciliationRequired && !seen.state.UnknownOutcome? && Busy(row)
              then Finished(row, UnknownOutcome, seen.result, Some(e), now) else row
    case Returned(c) =>
      match c.disposition
      case CancelDone =>
        row' == if Terminal(row.state) then row
                else Finished(row, Cancelled, Some(ResultOrEmpty(seen.result).(cancellation := Some(c))), None, now)
      case CancelUnknown =>
        if !seen.state.UnknownOutcome? && Busy(row) then
          SaysUnclear(row'.error, c) && row' == Finished(row, UnknownOutcome, seen.result, row'.error, now)
        else row' == row
      case CancelNotSupported => row' == row
      case CancelAlreadyTerminal => row' == row
  }

  lemma JobsAreSomewhere(cfg: Config, states: seq<System>, labels: seq<Label>, n: nat, j: string)
    requires IsRun(cfg, states, labels) && n < |states| && j in states[n].db.jobs
    ensures OfAJob(states[n].db.jobs[j].state)
  {
    if !states[n].db.jobs[j].state.Queued? && !states[n].db.jobs[j].state.Running? {
      StartedIsPast(cfg, states, labels, n, j);
    }
  }

  lemma UnfencedRow(db: Db, j: string, target: JobState, result: Option<ResultDoc>, error: Option<JobError>, now: DateTime)
    requires j in db.jobs && target != Verifying
    ensures var jobs' := TransitionJob(db, j, target, result, error, None, None, now).0.jobs;
            && j in jobs'
            && jobs'[j] == if CanMove(db.jobs[j].state, target) then Finished(db.jobs[j], target, result, error, now)
                           else db.jobs[j]
  {
  }

  lemma WriteOf(db: Db, j: string, seen: Job, reply: Reply<Cancellation>, now: DateTime)
    requires j in db.jobs
    ensures var view := View(j, seen);
            var target, jobs' := CancelTarget(view, reply), CancelWrite(db, view, reply, now).jobs;
            && j in jobs'
            && jobs'[j] == if target.Some? && CanMove(db.jobs[j].state, target.value)
                           then Finished(db.jobs[j], target.value, CancelResult(view, reply), CancelError(reply), now)
                           else db.jobs[j]
  {
    var view := View(j, seen);
    CancelWriteIsTransition(db, view, reply, now);
    if CancelTarget(view, reply).Some? {
      UnfencedRow(db, j, CancelTarget(view, reply).value, CancelResult(view, reply), CancelError(reply), now);
    }
  }

  lemma CancellationWrite(s: System, i: nat, now: DateTime, s': System, j: string, seen: Job, reply: Reply<Cancellation>)
    requires i < |s.actors| && StepApplyCancel(s, i, now, s') && s.actors[i] == CancelApplying(View(j, seen), reply)
    requires j in s.db.jobs && OfAJob(s.db.jobs[j].state)
    ensures j in s'.db.jobs && Revises(seen, s.db.jobs[j], s'.db.jobs[j], reply, now)
  {
    var row := s.db.jobs[j];
    WriteOf(s.db, j, seen, reply, now);
    SaidSo(j, seen, row, s'.db.jobs[j], reply, now);
  }

  lemma SaidSo(j: string, seen: Job, row: Job, row': Job, reply: Reply<Cancellation>, now: DateTime)
    requires OfAJob(row.state)
    requires var view := View(j, seen);
             var target := CancelTarget(view, reply);
             row' == if target.Some? && CanMove(row.state, target.value)
                     then Finished(row, target.value, CancelResult(view, reply), CancelError(reply), now) else row
    ensures Revises(seen, row, row', reply, now)
  {
  }

  lemma RunCancellationWrite(cfg: Config, states: seq<System>, labels: seq<Label>, q: nat, i: nat, j: string, seen: Job,
                             reply: Reply<Cancellation>)
    requires IsRun(cfg, states, labels) && q < |labels| && labels[q].ApplyCancel?
    requires labels[q].i == i < |states[q].actors|
    requires states[q].actors[i] == CancelApplying(View(j, seen), reply) && j in states[q].db.jobs
    ensures j in states[q + 1].db.jobs
    ensures Revises(seen, states[q].db.jobs[j], states[q + 1].db.jobs[j], reply, labels[q].now)
  {
    JobsAreSomewhere(cfg, states, labels, q, j);
    assert StepAt(cfg, states, labels, q);
    CancellationWrite(states[q], i, labels[q].now, states[q + 1], j, seen, reply);
  }

  lemma CancellerComes(cfg: Config, states: seq<System>, labels: seq<Label>, i: nat, at: seq<nat>, own: seq<Label>, j: string)
    requires IsRun(cfg, states, labels) && OwnSteps(labels, i, at, own)
    requires at[0] < |states| && |own| == 3 && ReadsToCancel(states[at[0]], own[0], j) && own[1].CancelReplies?
    ensures at[0] < at[2] < |labels| && i < |states[at[2]].actors| && j in states[at[0]].db.jobs
    ensures states[at[2]].actors[i] == CancelApplying(View(j, states[at[0]].db.jobs[j]), own[1].cancellation)
  {
    assert OwnAt(labels, i, at, own, 0) && OwnAt(labels, i, at, own, 1);
    NextPlace(cfg, states, labels, i, at, own, 0);
    NextPlace(cfg, states, labels, i, at, own, 1);
    ReadPlace(cfg, states, labels, at[0], i, j);
    ReplyPlace(cfg, states, labels, at[1], i);
  }

  /** Read, ask the adapter, write: the row becomes what the reply says about the row that was read. */
  lemma CancellerWritesWhatItHeard(cfg: Config, states: seq<System>, labels: seq<Label>, i: nat, at: seq<nat>,
                                   own: seq<Label>, j: string)
    requires IsRun(cfg, states, labels) && OwnSteps(labels, i, at, own)
    requires at[0] < |states| && |own| == 3
    requires ReadsToCancel(states[at[0]], own[0], j) && own[1].CancelReplies? && own[2].ApplyCancel?
    ensures at[0] < at[2] < |labels|
    ensures j in states[at[0]].db.jobs && j in states[at[2]].db.jobs && j in states[at[2] + 1].db.jobs
    ensures Revises(states[at[0]].db.jobs[j], states[at[2]].db.jobs[j], states[at[2] + 1].db.jobs[j],
                    own[1].cancellation, own[2].now)
  {
    CancellerComes(cfg, states, labels, i, at, own, j);
    assert OwnAt(labels, i, at, own, 2);
    Persists(cfg, states, labels, at[0], at[2], j);
    RunCancellationWrite(cfg, states, labels, at[2], i, j, states[at[0]].db.jobs[j], own[1].cancellation);
  }

  lemma ComparePlace(cfg: Config, states: seq<System>, labels: seq<Label>, n: nat, i: nat, j: string, seen: Job)
    requires IsRun(cfg, states, labels) && n < |labels| && labels[n].CompareAndCancel?
    requires labels[n].i == i < |states[n].actors|
    requires states[n].actors[i].CancelQueued? ==> states[n].actors[i].view == View(j, seen)
    requires j in states[n].db.jobs
    ensures i < |states[n + 1].actors| && j in states[n + 1].db.jobs
    ensures if states[n].db.jobs[j].state.Queued?
            then states[n + 1].db.jobs[j] == Finished(states[n].db.jobs[j], Cancelled, seen.result, seen.error, labels[n].now)
                 && states[n + 1].actors[i].Idle?
            else states[n + 1].db == states[n].db && states[n + 1].actors[i] == CancelRefresh(j)
  {
    assert StepAt(cfg, states, labels, n);
  }

  lemma RefreshPlace(cfg: Config, states: seq<System>, labels: seq<Label>, n: nat, i: nat, j: string)
    requires IsRun(cfg, states, labels) && n < |labels| && labels[n].Refresh? && labels[n].i == i < |states[n].actors|
    requires states[n].actors[i] == CancelRefresh(j) && j in states[n].db.jobs
    ensures i < |states[n + 1].actors| && states[n + 1].db == states[n].db
    ensures states[n + 1].actors[i] == if Terminal(states[n].db.jobs[j].state) then Idle
                                       else CancelCalling(View(j, states[n].db.jobs[j]))
  {
    assert StepAt(cfg, states, labels, n);
  }

  /**
   The race on QUEUED: the compare-and-set cancels the job if and only if it is still QUEUED;
   otherwise it changes nothing and the canceller reads again, and then asks the adapter
   unless the job has ended.
   */
  lemma RaceOnQueued(cfg: Config, states: seq<System>, labels: seq<Label>, i: nat, at: seq<nat>, own: seq<Label>, j: string)
    requires IsRun(cfg, states, labels) && OwnSteps(labels, i, at, own)
    requires |own| >= 2 && own[0].ReadForCancel? && own[0].job == j && own[1].CompareAndCancel?
    requires |own| == 2 || (|own| == 3 && own[2].Refresh?)
    ensures at[0] < at[1] < |labels| && j in states[at[0]].db.jobs && j in states[at[1]].db.jobs
    ensures j in states[at[1] + 1].db.jobs
    ensures var seen, row := states[at[0]].db.jobs[j], states[at[1]].db.jobs[j];
            && seen.state.Queued?
            && (row.state.Queued? ==>
                  states[at[1] + 1].db.jobs[j] == Finished(row, Cancelled, seen.result, seen.error, own[1].now))
            && (!row.state.Queued? ==> states[at[1] + 1].db == states[at[1]].db)
    ensures |own| == 3 ==>
              && !states[at[1]].db.jobs[j].state.Queued?
              && at[2] < |labels| && j in states[at[2]].db.jobs && i < |states[at[2] + 1].actors|
              && states[at[2] + 1].db == states[at[2]].db
              && states[at[2] + 1].actors[i] == if Terminal(states[at[2]].db.jobs[j].state) then Idle
                                                else CancelCalling(View(j, states[at[2]].db.jobs[j]))
  {
    assert OwnAt(labels, i, at, own, 0) && OwnAt(labels, i, at, own, 1);
    NextPlace(cfg, states, labels, i, at, own, 0);
    ReadPlace(cfg, states, labels, at[0], i, j);
    CompareComes(cfg, states, labels, at[1], i);
    Persists(cfg, states, labels, at[0], at[1], j);
    ComparePlace(cfg, states, labels, at[1], i, j, states[at[0]].db.jobs[j]);
    if |own| == 3 {
      assert OwnAt(labels, i, at, own, 2);
      NextPlace(cfg, states, labels, i, at, own, 1);
      Persists(cfg, states, labels, at[0], at[2], j);
      RefreshComes(cfg, states, labels, at[2], i);
      RefreshPlace(cfg, states, labels, at[2], i, j);
    }
  }

  lemma CompareComes(cfg: Config, states: seq<System>, labels: seq<Label>, n: nat, i: nat)
    requires IsRun(cfg, states, labels) && n < |labels| && labels[n].CompareAndCancel?
    requires labels[n].i == i < |states[n].actors|
    ensures states[n].actors[i].CancelQueued?
  {
    assert StepAt(cfg, states, labels, n);
  }

  lemma RefreshComes(cfg: Config, states: seq<System>, labels: seq<Label>, n: nat, i: nat)
    requires IsRun(cfg, states, labels) && n < |labels| && labels[n].Refresh? && labels[n].i == i < |states[n].actors|
    ensures states[n].actors[i].CancelRefresh?
  {
    assert StepAt(cfg, states, labels, n);
  }

  lemma Persists(cfg: Config, states: seq<System>, labels: seq<Label>, m: nat, n: nat, j: string)
    requires IsRun(cfg, states, labels) && m <= n < |states| && j in states[m].db.jobs
    ensures j in states[n].db.jobs
  {
    RunAdvances(cfg, states, labels, m, n);
    assert EngineEvolution.JobAdvances(states[m].db.jobs, states[n].db.jobs, j);
  }

  // ---------- how long a lease lasts ----------

  /** Thirty seconds for a request the catalog no longer takes, else the action's timeout and fifteen more. */
  function LeaseSeconds(cfg: Config, r: ActionRequest): nat {
    match cfg.validate(r)
    case None => 30
    case Some(action) => action.timeoutSeconds + 15
  }

  lemma ClaimedRowOf(cfg: Config, states: seq<System>, labels: seq<Label>, m: nat, j: string)
    requires IsRun(cfg, states, labels) && m < |labels| && labels[m].Claim? && labels[m].row == Some(j)
    ensures j in states[m].db.jobs && j in states[m + 1].db.jobs && states[m].db.jobs[j].state.Queued?
    ensures var l, row := labels[m], states[m].db.jobs[j];
            && Instant(l.until) == Instant(l.now) + LeaseSeconds(cfg, row.request) * 1000000
            && states[m + 1].db.jobs[j]
               == row.(state := Running, leaseOwner := Some(l.worker), leaseToken := Some(l.token),
                       leaseExpiresAt := Some(l.until), updatedAt := l.now)
  {
    assert StepAt(cfg, states, labels, m);
  }

  lemma RenewedRowOf(cfg: Config, states: seq<System>, labels: seq<Label>, m: nat, j: string, token: string)
    requires IsRun(cfg, states, labels) && m < |labels| && labels[m].Renew? && labels[m].i < |states[m].actors|
    requires HasFence(states[m].actors[labels[m].i]) && states[m].actors[labels[m].i].job == j
    requires states[m].actors[labels[m].i].fence == token && j in states[m].db.jobs && LeaseOk(states[m].db.jobs[j])
    ensures j in states[m + 1].db.jobs
    ensures var l, row := labels[m], states[m].db.jobs[j];
            && Instant(l.until) == Instant(l.now) + LeaseSeconds(cfg, row.request) * 1000000
            && states[m + 1].db.jobs[j] == if row.leaseToken == Some(token)
                                           then row.(leaseExpiresAt := Some(l.until), updatedAt := l.now) else row
  {
    assert StepAt(cfg, states, labels, m);
  }

  lemma SweepsAt(cfg: Config, states: seq<System>, labels: seq<Label>, n: nat, j: string)
    requires IsRun(cfg, states, labels) && n < |labels| && labels[n].Sweep?
    ensures j in labels[n].rows <==>
              && j in states[n].db.jobs && Busy(states[n].db.jobs[j])
              && states[n].db.jobs[j].leaseExpiresAt.Some?
              && Instant(states[n].db.jobs[j].leaseExpiresAt.value) < Instant(labels[n].now)
  {
    assert StepAt(cfg, states, labels, n);
    SweepFollowsTheClock(states[n].db, labels[n].now, labels[n].rows, j);
  }

  /**
   In every run: a claim leases the job to the worker under its token, and while nobody has
   written the row since, a sweep takes it if and only if the sweep's clock is past the claim
   plus the action's timeout plus fifteen seconds.
   */
  lemma ClaimGivesTime(cfg: Config, states: seq<System>, labels: seq<Label>, m: nat, n: nat, j: string)
    requires IsRun(cfg, states, labels) && m < n < |labels|
    requires labels[m].Claim? && labels[m].row == Some(j) && labels[n].Sweep?
    requires j in states[n].db.jobs && j in states[m + 1].db.jobs && states[n].db.jobs[j] == states[m + 1].db.jobs[j]
    ensures j in states[m].db.jobs && states[m].db.jobs[j].state.Queued? && states[m + 1].db.jobs[j].state.Running?
    ensures states[m + 1].db.jobs[j].leaseOwner == Some(labels[m].worker)
    ensures states[m + 1].db.jobs[j].leaseToken == Some(labels[m].token)
    ensures j in labels[n].rows <==>
              Instant(labels[n].now) > Instant(labels[m].now) + LeaseSeconds(cfg, states[m].db.jobs[j].request) * 1000000
  {
    ClaimedRowOf(cfg, states, labels, m, j);
    SweepsAt(cfg, states, labels, n, j);
  }

  /** The same from the renewal on, if the row still carries the worker's token; otherwise the renewal does nothing. */
  lemma RenewalGivesTime(cfg: Config, states: seq<System>, labels: seq<Label>, m: nat, n: nat, j: string, token: string)
    requires IsRun(cfg, states, labels) && m < n < |labels| && labels[n].Sweep?
    requires labels[m].Renew? && labels[m].i < |states[m].actors| && HasFence(states[m].actors[labels[m].i])
    requires states[m].actors[labels[m].i].job == j && states[m].actors[labels[m].i].fence == token
    requires j in states[n].db.jobs && j in states[m + 1].db.jobs && states[n].db.jobs[j] == states[m + 1].db.jobs[j]
    ensures j in states[m].db.jobs
    ensures states[m].db.jobs[j].leaseToken != Some(token) ==> states[m + 1].db.jobs[j] == states[m].db.jobs[j]
    ensures states[m].db.jobs[j].leaseToken == Some(token) ==>
              (j in labels[n].rows <==>
                 Instant(labels[n].now) > Instant(labels[m].now) + LeaseSeconds(cfg, states[m].db.jobs[j].request) * 1000000)
  {
    HeldRow(cfg, states, labels, m, labels[m].i, j);
    RenewedRowOf(cfg, states, labels, m, j, token);
    SweepsAt(cfg, states, labels, n, j);
  }
}
