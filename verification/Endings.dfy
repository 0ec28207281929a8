/** Exactly how a job ends: SUCCEEDED, FAILED, CANCELLED or EXPIRED. */
module Endings {
  import opened Models
  import opened Clock
  import opened JobStore
  import opened AuditReplay
  import opened Engine
  import opened EngineInvariant
  import opened EngineTheorems
  import opened Evidence

  predicate EndedAt(jobs: map<string, Job>, j: string, t: JobState) {
    j in jobs && jobs[j].state == t
  }

  /** A worker that still holds the lease and was told so, or a reconciler nobody forestalled. */
  predicate Succeeds(s: System, l: Label, j: string) {
    && l.Settle? && l.i < |s.actors| && j in s.db.jobs
    && match s.actors[l.i]
       case Succeeding(k, fence, _, _, v) => k == j && v.satisfied && s.db.jobs[j].leaseToken == Some(fence)
       case Settling(view, target, result, _, _) =>
         && view.id == j && target.Succeeded?
         && result.verification.Some? && result.verification.value.satisfied
         && (s.db.jobs[j].state.Verifying? || s.db.jobs[j].state.UnknownOutcome?)
       case _ => false
  }

  /**
   A worker whose adapter raised an error that needs no reconciliation, under the held fence,
   or a reconciler whose adapter said never to retry.
   */
  predicate Fails(s: System, l: Label, j: string) {
    && l.Settle? && l.i < |s.actors| && j in s.db.jobs
    && match s.actors[l.i]
       case Failing(k, fence, e) =>
         k == j && !e.reconciliationRequired && s.db.jobs[j].leaseToken == Some(fence)
       case Settling(view, target, _, error, _) =>
         && view.id == j && target.Failed? && error.Some? && error.value.retry.Never?
         && !s.db.jobs[j].state.Queued? && !Terminal(s.db.jobs[j].state)
       case _ => false
  }

  /** A compare-and-set that finds the job QUEUED, or an adapter's word that it cancelled a job not ended yet. */
  predicate Cancels(s: System, l: Label, j: string) {
    && j in s.db.jobs
    && match l
       case CompareAndCancel(i, _) =>
         i < |s.actors| && s.actors[i].CancelQueued? && s.actors[i].view.id == j && s.db.jobs[j].state.Queued?
       case ApplyCancel(i, _) =>
         && i < |s.actors| && s.actors[i].CancelApplying? && s.actors[i].view.id == j
         && s.actors[i].reply.Returned? && s.actors[i].reply.value.disposition.CancelDone?
         && !Terminal(s.db.jobs[j].state)
       case _ => false
  }

  /** The queue's cutoff is past the job's creation. */
  predicate Expires(s: System, l: Label, j: string) {
    l.ExpireQueue? && j in s.db.jobs && s.db.jobs[j].state.Queued? && Before(s.db.jobs[j].createdAt, l.cutoff)
  }

  predicate Ends(s: System, l: Label, j: string, t: JobState) {
    match t
    case Succeeded => Succeeds(s, l, j)
    case Failed => Fails(s, l, j)
    case Cancelled => Cancels(s, l, j)
    case Expired => Expires(s, l, j)
    case _ => false
  }

  // ---------- a reconciler settles on FAILED only after a final refusal ----------

  predicate SettlesOnRefusal(a: Actor) {
    a.Settling? && a.target.Failed? ==> a.error.Some? && a.error.value.retry.Never?
  }

  ghost predicate RefusalsOk(s: System) {
    forall a | a in s.actors :: SettlesOnRefusal(a)
  }

  lemma ObserveRefusal(s: System, i: nat, reply: Reply<Observation>, s': System)
    requires i < |s.actors| && StepObserveReplies(s, i, reply, s')
    ensures s'.actors == s.actors[i := s'.actors[i]] && SettlesOnRefusal(s'.actors[i])
  {
  }

  lemma VerifyRefusal(s: System, i: nat, reply: Reply<Verification>, s': System)
    requires i < |s.actors| && StepVerifyReplies(s, i, reply, s')
    ensures s'.actors == s.actors[i := s'.actors[i]] && SettlesOnRefusal(s'.actors[i])
  {
  }

  /** No actor moves, or the one that does is not settling. */
  predicate NobodySettles(s: System, l: Label, s': System) {
    || s'.actors == s.actors
    || (!l.ExpireQueue? && !l.Plan? && !l.DropConfirmation? && l.i < |s.actors| == |s'.actors|
        && s'.actors == s.actors[l.i := s'.actors[l.i]] && !s'.actors[l.i].Settling?)
  }

  /** No other step makes an actor settle. */
  lemma OtherRefusal(cfg: Config, s: System, l: Label, s': System)
    requires Step(cfg, s, l, s') && !l.ObserveReplies? && !l.VerifyReplies?
    ensures NobodySettles(s, l, s')
  {
    if IsWorkerLabel(l) { WorkerRefusal(cfg, s, l, s'); }
    else if IsApiLabel(l) { ApiRefusal(cfg, s, l, s'); }
    else { RecoveryRefusal(cfg, s, l, s'); }
  }

  lemma WorkerRefusal(cfg: Config, s: System, l: Label, s': System)
    requires IsWorkerLabel(l) && WorkerStep(cfg, s, l, s') && !l.ObserveReplies? && !l.VerifyReplies?
    ensures NobodySettles(s, l, s')
  {
  }

  lemma ApiRefusal(cfg: Config, s: System, l: Label, s': System)
    requires IsApiLabel(l) && ApiStep(cfg, s, l, s')
    ensures NobodySettles(s, l, s')
  {
  }

  lemma RecoveryRefusal(cfg: Config, s: System, l: Label, s': System)
    requires !IsWorkerLabel(l) && !IsApiLabel(l) && RecoveryStep(cfg, s, l, s')
    ensures NobodySettles(s, l, s')
  {
  }

  lemma RefusalsKept(s: System, i: nat, s': System)
    requires RefusalsOk(s) && i < |s.actors| && |s'.actors| == |s.actors|
    requires s'.actors == s.actors[i := s'.actors[i]] && SettlesOnRefusal(s'.actors[i])
    ensures RefusalsOk(s')
  {
    forall b | b in s'.actors ensures SettlesOnRefusal(b) { if b != s'.actors[i] { assert b in s.actors; } }
  }

  lemma RefusalsStep(cfg: Config, s: System, l: Label, s': System)
    requires RefusalsOk(s) && Step(cfg, s, l, s')
    ensures RefusalsOk(s')
  {
    if l.ObserveReplies? {
      ObserveRefusal(s, l.i, l.observation, s');
      RefusalsKept(s, l.i, s');
    } else if l.VerifyReplies? {
      VerifyRefusal(s, l.i, l.verification, s');
      RefusalsKept(s, l.i, s');
    } else {
      OtherRefusal(cfg, s, l, s');
      if s'.actors != s.actors { RefusalsKept(s, l.i, s'); }
    }
  }

  lemma {:induction false} RunRefusals(cfg: Config, states: seq<System>, labels: seq<Label>, n: nat)
    requires IsRun(cfg, states, labels) && n < |states|
    ensures RefusalsOk(states[n])
  {
    if n > 0 {
      RunRefusals(cfg, states, labels, n - 1);
      RunStepRefusals(cfg, states, labels, n - 1);
    }
  }

  lemma RunStepRefusals(cfg: Config, states: seq<System>, labels: seq<Label>, n: nat)
    requires IsRun(cfg, states, labels) && n < |labels| && RefusalsOk(states[n])
    ensures RefusalsOk(states[n + 1])
  {
    assert StepAt(cfg, states, labels, n);
    RefusalsStep(cfg, states[n], labels[n], states[n + 1]);
  }

  // ---------- where a job can be ----------

  /** Where a job that has left QUEUED and RUNNING can be. */
  predicate Past(state: JobState) {
    state.Verifying? || state.UnknownOutcome? || state.Succeeded? || state.Failed? || state.Cancelled? || state.Expired?
  }

  /** The states a job can be in at all. */
  predicate OfAJob(state: JobState) {
    state.Queued? || state.Running? || Past(state)
  }

  lemma JobIsSomewhere(cfg: Config, s: System, j: string)
    requires EngineOk(cfg, s) && j in s.db.jobs
    ensures OfAJob(s.db.jobs[j].state)
  {
    assert IdOk(cfg, s, j);
    WalkIsBounded(Path(s.db.log, j));
  }

  // ---------- what a step does to the state ----------

  /** The transition's own checks decide whether the row is in the new state. */
  lemma TransitionState(db: Db, k: string, target: JobState, result: Option<ResultDoc>, error: Option<JobError>,
                        fence: Option<string>, expected: Option<JobState>, now: DateTime, j: string)
    requires j in db.jobs
    ensures var jobs' := TransitionJob(db, k, target, result, error, fence, expected, now).0.jobs;
            && j in jobs'
            && jobs'[j].state == if k == j && CanMove(db.jobs[j].state, target)
                                    && (fence.None? || db.jobs[j].leaseToken == fence)
                                    && (expected.None? || db.jobs[j].state == expected.value)
                                 then target else db.jobs[j].state
  {
  }

  lemma SucceedingEnds(s: System, i: nat, now: DateTime, s': System, j: string, t: JobState)
    requires i < |s.actors| && StepSettle(s, i, now, s') && j in s.db.jobs && Terminal(t)
    requires s.actors[i].Succeeding? && ActorOk(s.history, s.actors[i]) && CarrierOk(s.db.jobs, s.actors[i])
    ensures EndedAt(s'.db.jobs, j, t) <==> EndedAt(s.db.jobs, j, t) || Ends(s, Settle(i, now), j, t)
  {
    var a := s.actors[i];
    TransitionState(s.db, a.job, Succeeded,
                    Some(WithEvidence(EMPTY_RESULT.(execution := Some(a.execution)), a.observation, a.verification)),
                    None, Some(a.fence), None, now, j);
  }

  lemma FailingEnds(s: System, i: nat, now: DateTime, s': System, j: string, t: JobState)
    requires i < |s.actors| && StepSettle(s, i, now, s') && j in s.db.jobs && Terminal(t)
    requires s.actors[i].Failing? && LeaseOk(s.db.jobs[j])
    ensures EndedAt(s'.db.jobs, j, t) <==> EndedAt(s.db.jobs, j, t) || Ends(s, Settle(i, now), j, t)
  {
    var a := s.actors[i];
    TransitionState(s.db, a.job, if a.failure.reconciliationRequired then UnknownOutcome else Failed, None, Some(a.failure),
                    Some(a.fence), None, now, j);
  }

  lemma SettlingEnds(s: System, i: nat, now: DateTime, s': System, j: string, t: JobState)
    requires i < |s.actors| && StepSettle(s, i, now, s') && j in s.db.jobs && Terminal(t) && s.actors[i].Settling?
    requires SettlesOnRefusal(s.actors[i]) && ActorOk(s.history, s.actors[i])
    requires OfAJob(s.db.jobs[j].state)
    ensures EndedAt(s'.db.jobs, j, t) <==> EndedAt(s.db.jobs, j, t) || Ends(s, Settle(i, now), j, t)
  {
    var a := s.actors[i];
    TransitionState(s.db, a.view.id, a.target, Some(a.result), a.error, None, None, now, j);
  }

  lemma SettleEnds(s: System, i: nat, now: DateTime, s': System, j: string, t: JobState)
    requires i < |s.actors| && StepSettle(s, i, now, s') && j in s.db.jobs && Terminal(t)
    requires LeaseOk(s.db.jobs[j]) && SettlesOnRefusal(s.actors[i]) && ActorOk(s.history, s.actors[i])
    requires CarrierOk(s.db.jobs, s.actors[i])
    requires OfAJob(s.db.jobs[j].state)
    ensures EndedAt(s'.db.jobs, j, t) <==> EndedAt(s.db.jobs, j, t) || Ends(s, Settle(i, now), j, t)
  {
    if s.actors[i].Succeeding? { SucceedingEnds(s, i, now, s', j, t); }
    else if s.actors[i].Failing? { FailingEnds(s, i, now, s', j, t); }
    else { SettlingEnds(s, i, now, s', j, t); }
  }

  /** The job stays in the state, or goes from one it can still leave to another. */
  predicate EndsNothing(s: System, s': System, j: string) {
    && j in s.db.jobs && j in s'.db.jobs
    && (s'.db.jobs[j].state == s.db.jobs[j].state
        || (!Terminal(s.db.jobs[j].state) && !Terminal(s'.db.jobs[j].state)))
  }

  lemma ClaimEnds(cfg: Config, s: System, l: Label, s': System, j: string)
    requires l.Claim? && WorkerStep(cfg, s, l, s') && j in s.db.jobs
    ensures EndsNothing(s, s', j)
  {
  }

  lemma MarkEnds(s: System, i: nat, now: DateTime, s': System, j: string)
    requires i < |s.actors| && StepMarkVerifying(s, i, now, s') && j in s.db.jobs
    ensures EndsNothing(s, s', j)
  {
    var a := s.actors[i];
    TransitionState(s.db, a.job, Verifying, ExecutionOnly(a.execution), None, Some(a.fence), None, now, j);
  }

  lemma WorkerEnds(cfg: Config, s: System, l: Label, s': System, j: string)
    requires IsWorkerLabel(l) && !l.Settle? && WorkerStep(cfg, s, l, s') && j in s.db.jobs
    ensures EndsNothing(s, s', j)
  {
    if l.MarkVerifying? { MarkEnds(s, l.i, l.now, s', j); }
    else if l.Claim? { ClaimEnds(cfg, s, l, s', j); }
    else if l.Renew? { RenewEnds(cfg, s, l, s', j); }
  }

  lemma RenewEnds(cfg: Config, s: System, l: Label, s': System, j: string)
    requires l.Renew? && WorkerStep(cfg, s, l, s') && j in s.db.jobs
    ensures EndsNothing(s, s', j)
  {
  }

  lemma NothingEnds(s: System, l: Label, s': System, j: string, t: JobState)
    requires EndsNothing(s, s', j) && Terminal(t) && !l.Settle? && (IsWorkerLabel(l) || IsApiLabel(l))
    ensures EndedAt(s'.db.jobs, j, t) <==> EndedAt(s.db.jobs, j, t) || Ends(s, l, j, t)
  {
  }

  lemma RecoveryEnds(cfg: Config, s: System, l: Label, s': System, j: string, t: JobState)
    requires !IsWorkerLabel(l) && !IsApiLabel(l) && RecoveryStep(cfg, s, l, s') && j in s.db.jobs && Terminal(t)
    requires OfAJob(s.db.jobs[j].state)
    ensures EndedAt(s'.db.jobs, j, t) <==> EndedAt(s.db.jobs, j, t) || Ends(s, l, j, t)
  {
    match l
    case Sweep(i, rows, now) => SweepEnds(s, i, rows, now, s', j, t);
    case TakeCandidates(i, rows) => TakeEnds(cfg, s, i, rows, s', j, t);
    case ExpireQueue(rows, cutoff, now) => QueueEnds(s, rows, cutoff, now, s', j, t);
    case BeginReconcile(i, now) => BeginEnds(s, i, now, s', j, t);
    case CompareAndCancel(i, now) => CompareEnds(s, i, now, s', j, t);
    case ApplyCancel(i, now) => ApplyEnds(s, i, now, s', j, t);
    case _ =>
  }

  lemma SweepEnds(s: System, i: nat, rows: seq<string>, now: DateTime, s': System, j: string, t: JobState)
    requires i < |s.actors| && StepSweep(s, i, rows, now, s') && j in s.db.jobs && Terminal(t)
    ensures EndedAt(s'.db.jobs, j, t) <==> EndedAt(s.db.jobs, j, t)
  {
    SweepParks(s.db, rows, now, j);
  }

  lemma TakeEnds(cfg: Config, s: System, i: nat, rows: seq<string>, s': System, j: string, t: JobState)
    requires i < |s.actors| && StepTakeCandidates(cfg, s, i, rows, s') && j in s.db.jobs
    ensures EndedAt(s'.db.jobs, j, t) <==> EndedAt(s.db.jobs, j, t)
  {
    BudgetDecidesOffers(s.db, rows, cfg.maxAttempts, j);
  }

  lemma QueueEnds(s: System, rows: seq<string>, cutoff: DateTime, now: DateTime, s': System, j: string, t: JobState)
    requires StepExpireQueue(s, rows, cutoff, now, s') && j in s.db.jobs && Terminal(t)
    ensures EndedAt(s'.db.jobs, j, t) <==> EndedAt(s.db.jobs, j, t) || Ends(s, ExpireQueue(rows, cutoff, now), j, t)
  {
    QueueExpiryRetires(s.db, rows, now, j);
    QueueExpiryFollowsTheClock(s.db, cutoff, rows, j);
  }

  lemma BeginEnds(s: System, i: nat, now: DateTime, s': System, j: string, t: JobState)
    requires i < |s.actors| && StepBeginReconcile(s, i, now, s') && j in s.db.jobs && Terminal(t)
    ensures EndedAt(s'.db.jobs, j, t) <==> EndedAt(s.db.jobs, j, t)
  {
  }

  lemma CompareEnds(s: System, i: nat, now: DateTime, s': System, j: string, t: JobState)
    requires i < |s.actors| && StepCompareAndCancel(s, i, now, s') && j in s.db.jobs && Terminal(t)
    ensures EndedAt(s'.db.jobs, j, t) <==> EndedAt(s.db.jobs, j, t) || Ends(s, CompareAndCancel(i, now), j, t)
  {
    var view := s.actors[i].view;
    TransitionState(s.db, view.id, Cancelled, view.result, view.error, None, Some(Queued), now, j);
  }

  lemma AppliedState(s: System, i: nat, now: DateTime, s': System, j: string)
    requires i < |s.actors| && StepApplyCancel(s, i, now, s') && j in s.db.jobs
    ensures j in s'.db.jobs
    ensures var target := CancelTarget(s.actors[i].view, s.actors[i].reply);
            s'.db.jobs[j].state == if target.Some? && s.actors[i].view.id == j && CanMove(s.db.jobs[j].state, target.value)
                                   then target.value else s.db.jobs[j].state
  {
    var view, reply := s.actors[i].view, s.actors[i].reply;
    var target := CancelTarget(view, reply);
    CancelWriteIsTransition(s.db, view, reply, now);
    if target.Some? {
      TransitionState(s.db, view.id, target.value, CancelResult(view, reply), CancelError(reply), None, None, now, j);
    }
  }

  lemma ApplyEnds(s: System, i: nat, now: DateTime, s': System, j: string, t: JobState)
    requires i < |s.actors| && StepApplyCancel(s, i, now, s') && j in s.db.jobs && Terminal(t)
    requires OfAJob(s.db.jobs[j].state)
    ensures EndedAt(s'.db.jobs, j, t) <==> EndedAt(s.db.jobs, j, t) || Ends(s, ApplyCancel(i, now), j, t)
  {
    AppliedState(s, i, now, s', j);
    AppliedEnds(s, i, now, s'.db.jobs, j, t);
  }

  lemma AppliedEnds(s: System, i: nat, now: DateTime, jobs': map<string, Job>, j: string, t: JobState)
    requires i < |s.actors| && s.actors[i].CancelApplying? && j in s.db.jobs && Terminal(t) && j in jobs'
    requires OfAJob(s.db.jobs[j].state)
    requires var target := CancelTarget(s.actors[i].view, s.actors[i].reply);
             jobs'[j].state == if target.Some? && s.actors[i].view.id == j && CanMove(s.db.jobs[j].state, target.value)
                               then target.value else s.db.jobs[j].state
    ensures EndedAt(jobs', j, t) <==> EndedAt(s.db.jobs, j, t) || Ends(s, ApplyCancel(i, now), j, t)
  {
  }

  lemma CreatedIsQueued(cfg: Config, s: System, l: Label, s': System, j: string)
    requires EngineOk(cfg, s) && Step(cfg, s, l, s') && j !in s.db.jobs && j in s'.db.jobs
    ensures s'.db.jobs[j].state.Queued?
  {
    StepCarries(cfg, s, l, s');
    assert CarriesAt(s.db.jobs, s'.db.jobs, j);
  }

  lemma SettledEnds(cfg: Config, s: System, l: Label, s': System, j: string, t: JobState)
    requires EngineOk(cfg, s) && RefusalsOk(s) && CargoOk(s) && j in s.db.jobs && Terminal(t)
    requires l.Settle? && WorkerStep(cfg, s, l, s')
    ensures EndedAt(s'.db.jobs, j, t) <==> EndedAt(s.db.jobs, j, t) || Ends(s, l, j, t)
  {
    JobIsSomewhere(cfg, s, j);
    assert IdOk(cfg, s, j) && s.actors[l.i] in s.actors;
    SettleEnds(s, l.i, l.now, s', j, t);
  }

  lemma OrdinaryEnds(cfg: Config, s: System, l: Label, s': System, j: string, t: JobState)
    requires EngineOk(cfg, s) && Step(cfg, s, l, s') && Terminal(t) && j in s.db.jobs
    requires (IsWorkerLabel(l) && !l.Settle?) || IsApiLabel(l)
    ensures EndedAt(s'.db.jobs, j, t) <==> EndedAt(s.db.jobs, j, t) || Ends(s, l, j, t)
  {
    if IsWorkerLabel(l) { WorkerEnds(cfg, s, l, s', j); } else { ApiKeepsRows(cfg, s, l, s', j); }
    NothingEnds(s, l, s', j, t);
  }

  lemma NewlyMadeEnds(cfg: Config, s: System, l: Label, s': System, j: string, t: JobState)
    requires EngineOk(cfg, s) && Step(cfg, s, l, s') && Terminal(t) && j !in s.db.jobs
    ensures !EndedAt(s'.db.jobs, j, t) && !Ends(s, l, j, t)
  {
    if j in s'.db.jobs { CreatedIsQueued(cfg, s, l, s', j); }
  }

  /** For every step and every terminal state: the job is in it afterwards if and only if it was, or the step ends it so. */
  lemma EndsExactly(cfg: Config, s: System, l: Label, s': System, j: string, t: JobState)
    requires EngineOk(cfg, s) && RefusalsOk(s) && CargoOk(s) && Step(cfg, s, l, s') && Terminal(t)
    ensures EndedAt(s'.db.jobs, j, t) <==> EndedAt(s.db.jobs, j, t) || Ends(s, l, j, t)
  {
    if j !in s.db.jobs {
      NewlyMadeEnds(cfg, s, l, s', j, t);
    } else if l.Settle? {
      SettledEnds(cfg, s, l, s', j, t);
    } else if IsWorkerLabel(l) || IsApiLabel(l) {
      OrdinaryEnds(cfg, s, l, s', j, t);
    } else {
      JobIsSomewhere(cfg, s, j);
      RecoveryEnds(cfg, s, l, s', j, t);
    }
  }

  lemma RunStepEnds(cfg: Config, states: seq<System>, labels: seq<Label>, n: nat, j: string, t: JobState)
    requires IsRun(cfg, states, labels) && n < |labels| && Terminal(t)
    ensures EndedAt(states[n + 1].db.jobs, j, t)
            <==> EndedAt(states[n].db.jobs, j, t) || Ends(states[n], labels[n], j, t)
  {
    RunOk(cfg, states, labels, n);
    RunRefusals(cfg, states, labels, n);
    RunCargoOk(cfg, states, labels, n);
    assert StepAt(cfg, states, labels, n);
    EndsExactly(cfg, states[n], labels[n], states[n + 1], j, t);
  }

  /** In every run: a job is in a terminal state if and only if one of the steps so far ended it so. */
  lemma {:induction false} EndedExactly(cfg: Config, states: seq<System>, labels: seq<Label>, n: nat, j: string, t: JobState)
    requires IsRun(cfg, states, labels) && n < |states| && Terminal(t)
    ensures EndedAt(states[n].db.jobs, j, t) <==> exists q :: 0 <= q < n && Ends(states[q], labels[q], j, t)
  {
    if n > 0 {
      EndedExactly(cfg, states, labels, n - 1, j, t);
      RunStepEnds(cfg, states, labels, n - 1, j, t);
    }
  }
}
