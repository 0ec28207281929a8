/** Exactly when the recorded execution of a job survives. */
module Evidence {
  import opened Models
  import opened Clock
  import opened JobStore
  import opened Engine
  import opened EngineInvariant
  import opened EngineTheorems

  function ExecutionIn(result: Option<ResultDoc>): Option<Execution> {
    if result.Some? then result.value.execution else None
  }

  function ExecutionOnly(ex: Execution): Option<ResultDoc> {
    Some(EMPTY_RESULT.(execution := Some(ex)))
  }

  // ---------- what workers and rows agree on ----------

  predicate HasFence(a: Actor) {
    a.Claimed? || a.Executing? || a.Executed? || a.Renewing? || a.Observing? || a.Verify? || a.Succeeding? || a.Failing?
  }

  /** The worker has recorded its execution and still carries it. */
  predicate Carries(a: Actor) {
    a.Renewing? || a.Observing? || a.Verify? || a.Succeeding?
  }

  /** A worker's job has left the queue; while it holds the lease the row shows the execution it carries. */
  predicate CarrierOk(jobs: map<string, Job>, a: Actor) {
    && (HasFence(a) ==> a.job in jobs && !jobs[a.job].state.Queued?)
    && (Carries(a) && jobs[a.job].leaseToken == Some(a.fence) ==>
          jobs[a.job].state.Verifying? && jobs[a.job].result == ExecutionOnly(a.execution))
    && (a.Settling? ==> a.result.execution == ExecutionIn(a.view.result))
  }

  /** Nothing is recorded before the job is verified. */
  predicate TidyAt(jobs: map<string, Job>, j: string) {
    j in jobs && (jobs[j].state.Queued? || jobs[j].state.Running?) ==> jobs[j].result.None?
  }

  ghost predicate CargoOk(s: System) {
    && (forall j: string :: TidyAt(s.db.jobs, j))
    && (forall a | a in s.actors :: CarrierOk(s.db.jobs, a))
  }

  // ---------- what a step does to a row ----------

  /** A lease that stays on a VERIFYING row keeps its result; QUEUED and RUNNING rows keep theirs. */
  predicate RowCarries(a: Job, b: Job) {
    && (!a.state.Queued? ==> !b.state.Queued? && (b.leaseToken == a.leaseToken || b.leaseToken.None?))
    && (a.state.Verifying? && b.leaseToken.Some? ==> b.state.Verifying? && b.result == a.result)
    && (b.state.Queued? || b.state.Running? ==> (a.state.Queued? || a.state.Running?) && b.result == a.result)
  }

  predicate CarriesAt(jobs: map<string, Job>, jobs': map<string, Job>, j: string) {
    if j in jobs then j in jobs' && RowCarries(jobs[j], jobs'[j])
    else j in jobs' ==> jobs'[j].state.Queued? && jobs'[j].result.None?
  }

  ghost predicate JobsCarry(jobs: map<string, Job>, jobs': map<string, Job>) {
    forall j: string :: CarriesAt(jobs, jobs', j)
  }

  lemma SameJobsCarry(jobs: map<string, Job>)
    ensures JobsCarry(jobs, jobs)
  {
    forall j: string ensures CarriesAt(jobs, jobs, j) {}
  }

  lemma PutCarries(jobs: map<string, Job>, j: string, row: Job)
    requires j in jobs && RowCarries(jobs[j], row)
    ensures JobsCarry(jobs, jobs[j := row])
  {
    var jobs' := jobs[j := row];
    forall k: string ensures CarriesAt(jobs, jobs', k) {}
  }

  lemma MovedCarries(row: Job, target: JobState, result: Option<ResultDoc>, error: Option<JobError>, now: DateTime)
    requires CanMove(row.state, target) && target != Queued && target != Running
    ensures RowCarries(row, Moved(row, target, result, error, now))
  {
  }

  lemma TransitionCarries(db: Db, j: string, target: JobState, result: Option<ResultDoc>, error: Option<JobError>,
                          fence: Option<string>, expected: Option<JobState>, now: DateTime)
    requires target != Queued && target != Running
    ensures JobsCarry(db.jobs, TransitionJob(db, j, target, result, error, fence, expected, now).0.jobs)
  {
    var jobs' := TransitionJob(db, j, target, result, error, fence, expected, now).0.jobs;
    if jobs' == db.jobs {
      SameJobsCarry(db.jobs);
    } else {
      MovedCarries(db.jobs[j], target, result, error, now);
      PutCarries(db.jobs, j, Moved(db.jobs[j], target, result, error, now));
    }
  }

  lemma ClaimCarries(db: Db, j: string, worker: string, token: string, until: DateTime, now: DateTime)
    requires j in db.jobs && db.jobs[j].state.Queued?
    ensures JobsCarry(db.jobs, ClaimJob(db, j, worker, token, until, now).jobs)
  {
    var jobs' := ClaimJob(db, j, worker, token, until, now).jobs;
    forall k: string ensures CarriesAt(db.jobs, jobs', k) {}
  }

  lemma RenewCarries(db: Db, j: string, token: string, until: DateTime, now: DateTime)
    ensures JobsCarry(db.jobs, RenewLease(db, j, token, until, now).0.jobs)
  {
    var jobs' := RenewLease(db, j, token, until, now).0.jobs;
    forall k: string ensures CarriesAt(db.jobs, jobs', k) {}
  }

  lemma SweepCarries(db: Db, rows: seq<string>, now: DateTime)
    requires Distinct(rows)
    requires forall j | j in rows :: j in db.jobs && (db.jobs[j].state.Running? || db.jobs[j].state.Verifying?)
    ensures JobsCarry(db.jobs, ExpireLeases(db, rows, now).jobs)
  {
    var jobs' := ExpireLeases(db, rows, now).jobs;
    forall k: string ensures CarriesAt(db.jobs, jobs', k) { if k in db.jobs { SweepParks(db, rows, now, k); } }
  }

  lemma QueueCarries(db: Db, rows: seq<string>, now: DateTime)
    requires Distinct(rows) && forall j | j in rows :: j in db.jobs && db.jobs[j].state.Queued?
    ensures JobsCarry(db.jobs, ExpireStaleQueued(db, rows, now).jobs)
  {
    var jobs' := ExpireStaleQueued(db, rows, now).jobs;
    forall k: string ensures CarriesAt(db.jobs, jobs', k) { if k in db.jobs { QueueExpiryRetires(db, rows, now, k); } }
  }

  lemma CandidatesCarry(db: Db, rows: seq<string>, max: nat)
    requires Distinct(rows) && forall j | j in rows :: j in db.jobs
    ensures JobsCarry(db.jobs, ClaimCandidates(db, rows, max).0.jobs)
  {
    var jobs' := ClaimCandidates(db, rows, max).0.jobs;
    forall k: string ensures CarriesAt(db.jobs, jobs', k) { if k in db.jobs { BudgetDecidesOffers(db, rows, max, k); } }
  }

  /** The state a cancellation reply asks for, if it asks for a write. */
  function CancelTarget(view: JobView, reply: Reply<Cancellation>): Option<JobState> {
    match reply
    case Raised(e) => if e.reconciliationRequired && view.state != UnknownOutcome then Some(UnknownOutcome) else None
    case Returned(c) =>
      if c.disposition == CancelDone then Some(Cancelled)
      else if c.disposition == CancelUnknown && view.state != UnknownOutcome then Some(UnknownOutcome)
      else None
  }

  lemma CancelWriteCarries(db: Db, view: JobView, reply: Reply<Cancellation>, now: DateTime)
    ensures JobsCarry(db.jobs, CancelWrite(db, view, reply, now).jobs)
  {
    SameJobsCarry(db.jobs);
    var target := CancelTarget(view, reply);
    if target.Some? {
      CancelWriteIsTransition(db, view, reply, now);
      TransitionCarries(db, view.id, target.value, CancelResult(view, reply), CancelError(reply), None, None, now);
    }
  }

  function CancelResult(view: JobView, reply: Reply<Cancellation>): Option<ResultDoc> {
    if reply.Returned? && reply.value.disposition == CancelDone
    then Some(ResultOrEmpty(view.result).(cancellation := Some(reply.value))) else view.result
  }

  function CancelError(reply: Reply<Cancellation>): Option<JobError> {
    match reply
    case Raised(e) => Some(e)
    case Returned(c) => if c.disposition == CancelDone then None else Some(CancelUnknownError(c.details))
  }

  /** The canceller's write is one unfenced transition made from its view, or none. */
  lemma CancelWriteIsTransition(db: Db, view: JobView, reply: Reply<Cancellation>, now: DateTime)
    ensures CancelWrite(db, view, reply, now)
         == match CancelTarget(view, reply)
            case None => db
            case Some(t) => TransitionJob(db, view.id, t, CancelResult(view, reply), CancelError(reply), None, None, now).0
  {
  }

  // ---------- the invariant is kept ----------

  lemma CarrierKept(jobs: map<string, Job>, jobs': map<string, Job>, a: Actor)
    requires CarrierOk(jobs, a) && JobsCarry(jobs, jobs')
    ensures CarrierOk(jobs', a)
  {
    if HasFence(a) { assert CarriesAt(jobs, jobs', a.job); }
  }

  /** The actor keeps to the same job, fence and execution, or carries none. */
  predicate SameCargo(a: Actor, a': Actor) {
    && (HasFence(a') ==> HasFence(a) && a'.job == a.job && a'.fence == a.fence)
    && (Carries(a') ==> Carries(a) && a'.execution == a.execution)
    && (a'.Settling? ==> a'.result.execution == ExecutionIn(a'.view.result))
  }

  lemma CargoKept(s: System, i: nat, a: Actor, s': System)
    requires CargoOk(s) && i < |s.actors| && s'.actors == s.actors[i := a]
    requires JobsCarry(s.db.jobs, s'.db.jobs) && (SameCargo(s.actors[i], a) || CarrierOk(s'.db.jobs, a))
    ensures CargoOk(s')
  {
    TidyKept(s.db.jobs, s'.db.jobs, s);
    forall b | b in s'.actors ensures CarrierOk(s'.db.jobs, b) {
      if b == a {
        assert CarrierOk(s.db.jobs, s.actors[i]);
        CarrierKept(s.db.jobs, s'.db.jobs, s.actors[i]);
      } else {
        assert b in s.actors;
        CarrierKept(s.db.jobs, s'.db.jobs, b);
      }
    }
  }

  lemma TidyKept(jobs: map<string, Job>, jobs': map<string, Job>, s: System)
    requires CargoOk(s) && jobs == s.db.jobs && JobsCarry(jobs, jobs')
    ensures forall j: string :: TidyAt(jobs', j)
  {
    forall j: string ensures TidyAt(jobs', j) { assert TidyAt(jobs, j) && CarriesAt(jobs, jobs', j); }
  }

  lemma CargoSame(s: System, s': System)
    requires CargoOk(s) && s'.actors == s.actors && JobsCarry(s.db.jobs, s'.db.jobs)
    ensures CargoOk(s')
  {
    TidyKept(s.db.jobs, s'.db.jobs, s);
    forall b | b in s'.actors ensures CarrierOk(s'.db.jobs, b) { CarrierKept(s.db.jobs, s'.db.jobs, b); }
  }

  lemma WorkerStepCarries(cfg: Config, s: System, l: Label, s': System)
    requires EngineOk(cfg, s) && IsWorkerLabel(l) && WorkerStep(cfg, s, l, s')
    ensures JobsCarry(s.db.jobs, s'.db.jobs)
  {
    match l
    case Claim(i, row, worker, token, until, now) =>
      if row.Some? { ClaimCarries(s.db, row.value, worker, token, until, now); } else { SameJobsCarry(s.db.jobs); }
    case MarkVerifying(i, now) =>
      var a := s.actors[i];
      TransitionCarries(s.db, a.job, Verifying, ExecutionOnly(a.execution), None, Some(a.fence), None, now);
    case Renew(i, until, now) => RenewCarries(s.db, s.actors[i].job, s.actors[i].fence, until, now);
    case Settle(i, now) => assert ActorOk(s.history, s.actors[i]); SettleCarries(s, i, now, s');
    case _ => SameJobsCarry(s.db.jobs);
  }

  lemma SettleCarries(s: System, i: nat, now: DateTime, s': System)
    requires i < |s.actors| && StepSettle(s, i, now, s') && ActorOk(s.history, s.actors[i])
    ensures JobsCarry(s.db.jobs, s'.db.jobs)
  {
    match s.actors[i]
    case Succeeding(j, fence, ex, o, v) =>
      TransitionCarries(s.db, j, Succeeded, Some(WithEvidence(EMPTY_RESULT.(execution := Some(ex)), o, v)), None,
                        Some(fence), None, now);
    case Failing(j, fence, e) =>
      TransitionCarries(s.db, j, if e.reconciliationRequired then UnknownOutcome else Failed, None, Some(e),
                        Some(fence), None, now);
    case Settling(view, target, result, error, todo) =>
      TransitionCarries(s.db, view.id, target, Some(result), error, None, None, now);
  }

  lemma RecoveryStepCarries(cfg: Config, s: System, l: Label, s': System)
    requires !IsWorkerLabel(l) && !IsApiLabel(l) && RecoveryStep(cfg, s, l, s')
    ensures JobsCarry(s.db.jobs, s'.db.jobs)
  {
    match l
    case Sweep(i, rows, now) => SweepCarries(s.db, rows, now);
    case TakeCandidates(i, rows) => CandidatesCarry(s.db, rows, cfg.maxAttempts);
    case BeginReconcile(i, now) =>
      var a := s.actors[i];
      if a.todo == [] { SameJobsCarry(s.db.jobs); }
      else {
        TransitionCarries(s.db, a.todo[0].id, Verifying, Some(ResultOrEmpty(a.todo[0].result)), a.todo[0].error,
                          None, None, now);
      }
    case CompareAndCancel(i, now) =>
      var v := s.actors[i].view;
      TransitionCarries(s.db, v.id, Cancelled, v.result, v.error, None, Some(Queued), now);
    case ApplyCancel(i, now) => CancelWriteCarries(s.db, s.actors[i].view, s.actors[i].reply, now);
    case ExpireQueue(rows, cutoff, now) => QueueCarries(s.db, rows, now);
    case _ => SameJobsCarry(s.db.jobs);
  }

  lemma ApiStepCarries(cfg: Config, s: System, l: Label, s': System)
    requires IsApiLabel(l) && ApiStep(cfg, s, l, s')
    ensures JobsCarry(s.db.jobs, s'.db.jobs)
  {
    if l.Create? {
      forall j: string ensures CarriesAt(s.db.jobs, s'.db.jobs, j) {}
    } else {
      SameJobsCarry(s.db.jobs);
    }
  }

  lemma WorkerStepCargo(cfg: Config, s: System, l: Label, s': System)
    requires IsWorkerLabel(l) && WorkerStep(cfg, s, l, s')
    ensures l.i < |s.actors| && s'.actors == s.actors[l.i := s'.actors[l.i]]
    ensures SameCargo(s.actors[l.i], s'.actors[l.i]) || CarrierOk(s'.db.jobs, s'.actors[l.i])
  {
    if l.MarkVerifying? { MarkingCargo(s, l.i, l.now, s'); }
    else if l.ObserveReplies? { ObserveCargo(s, l.i, l.observation, s'); }
    else if l.VerifyReplies? { VerifyCargo(s, l.i, l.verification, s'); }
    else if l.Settle? { SettleCargo(s, l.i, l.now, s'); }
    else if l.Claim? { ClaimCargo(cfg, s, l, s'); }
    else if l.ExecuteReplies? { ExecuteCargo(s, l.i, l.execution, s'); }
    else { CallCargo(cfg, s, l, s'); }
  }

  lemma CallCargo(cfg: Config, s: System, l: Label, s': System)
    requires (l.Crash? || l.CallExecute? || l.Renew?) && WorkerStep(cfg, s, l, s')
    ensures s'.actors == s.actors[l.i := s'.actors[l.i]] && SameCargo(s.actors[l.i], s'.actors[l.i])
  {
  }

  lemma ClaimCargo(cfg: Config, s: System, l: Label, s': System)
    requires l.Claim? && WorkerStep(cfg, s, l, s')
    ensures s'.actors == s.actors[l.i := s'.actors[l.i]]
    ensures SameCargo(s.actors[l.i], s'.actors[l.i]) || CarrierOk(s'.db.jobs, s'.actors[l.i])
  {
  }

  lemma ExecuteCargo(s: System, i: nat, reply: Reply<Execution>, s': System)
    requires i < |s.actors| && StepExecuteReplies(s, i, reply, s')
    ensures s'.actors == s.actors[i := s'.actors[i]]
    ensures SameCargo(s.actors[i], s'.actors[i]) || CarrierOk(s'.db.jobs, s'.actors[i])
  {
  }

  lemma ObserveCargo(s: System, i: nat, reply: Reply<Observation>, s': System)
    requires i < |s.actors| && StepObserveReplies(s, i, reply, s')
    ensures s'.actors == s.actors[i := s'.actors[i]] && SameCargo(s.actors[i], s'.actors[i])
  {
  }

  lemma SettleCargo(s: System, i: nat, now: DateTime, s': System)
    requires i < |s.actors| && StepSettle(s, i, now, s')
    ensures s'.actors == s.actors[i := s'.actors[i]] && SameCargo(s.actors[i], s'.actors[i])
  {
  }

  lemma MarkingCargo(s: System, i: nat, now: DateTime, s': System)
    requires i < |s.actors| && StepMarkVerifying(s, i, now, s')
    ensures s'.actors == s.actors[i := s'.actors[i]] && CarrierOk(s'.db.jobs, s'.actors[i])
  {
  }

  lemma VerifyCargo(s: System, i: nat, reply: Reply<Verification>, s': System)
    requires i < |s.actors| && StepVerifyReplies(s, i, reply, s')
    ensures s'.actors == s.actors[i := s'.actors[i]] && SameCargo(s.actors[i], s'.actors[i])
  {
  }

  lemma OtherStepCargo(cfg: Config, s: System, l: Label, s': System)
    requires !IsWorkerLabel(l) && Step(cfg, s, l, s')
    ensures s'.actors == s.actors
            || (!l.ExpireQueue? && !l.Plan? && !l.DropConfirmation? && l.i < |s.actors|
                && s'.actors == s.actors[l.i := s'.actors[l.i]] && SameCargo(s.actors[l.i], s'.actors[l.i]))
  {
    if IsApiLabel(l) { ApiStepCargo(cfg, s, l, s'); } else { RecoveryStepCargo(cfg, s, l, s'); }
  }

  lemma RecoveryStepCargo(cfg: Config, s: System, l: Label, s': System)
    requires !IsWorkerLabel(l) && !IsApiLabel(l) && RecoveryStep(cfg, s, l, s')
    ensures s'.actors == s.actors
            || (!l.ExpireQueue? && l.i < |s.actors|
                && s'.actors == s.actors[l.i := s'.actors[l.i]] && SameCargo(s.actors[l.i], s'.actors[l.i]))
  {
    if l.BeginReconcile? { BeginCargo(s, l.i, l.now, s'); }
    else if l.Sweep? || l.TakeCandidates? { PassCargo(cfg, s, l, s'); }
    else if l.Refresh? || l.CancelReplies? || l.ApplyCancel? { CancelCargo(cfg, s, l, s'); }
  }

  lemma BeginCargo(s: System, i: nat, now: DateTime, s': System)
    requires i < |s.actors| && StepBeginReconcile(s, i, now, s')
    ensures s'.actors == s.actors[i := s'.actors[i]] && SameCargo(s.actors[i], s'.actors[i])
  {
  }

  lemma PassCargo(cfg: Config, s: System, l: Label, s': System)
    requires (l.Sweep? || l.TakeCandidates?) && RecoveryStep(cfg, s, l, s')
    ensures s'.actors == s.actors[l.i := s'.actors[l.i]] && SameCargo(s.actors[l.i], s'.actors[l.i])
  {
  }

  lemma CancelCargo(cfg: Config, s: System, l: Label, s': System)
    requires (l.Refresh? || l.CancelReplies? || l.ApplyCancel?) && RecoveryStep(cfg, s, l, s')
    ensures s'.actors == s.actors
            || (s'.actors == s.actors[l.i := s'.actors[l.i]] && SameCargo(s.actors[l.i], s'.actors[l.i]))
  {
  }

  lemma ApiStepCargo(cfg: Config, s: System, l: Label, s': System)
    requires IsApiLabel(l) && ApiStep(cfg, s, l, s')
    ensures s'.actors == s.actors
            || (!l.Plan? && !l.DropConfirmation? && l.i < |s.actors|
                && s'.actors == s.actors[l.i := s'.actors[l.i]] && SameCargo(s.actors[l.i], s'.actors[l.i]))
  {
    if l.Submit? { SubmitCargo(cfg, s, l, s'); }
    else if l.Authorize? || l.Create? { HandlerCargo(cfg, s, l, s'); }
  }

  lemma SubmitCargo(cfg: Config, s: System, l: Label, s': System)
    requires l.Submit? && ApiStep(cfg, s, l, s')
    ensures s'.actors == s.actors
            || (s'.actors == s.actors[l.i := s'.actors[l.i]] && SameCargo(s.actors[l.i], s'.actors[l.i]))
  {
  }

  lemma HandlerCargo(cfg: Config, s: System, l: Label, s': System)
    requires (l.Authorize? || l.Create?) && ApiStep(cfg, s, l, s')
    ensures s'.actors == s.actors[l.i := s'.actors[l.i]] && SameCargo(s.actors[l.i], s'.actors[l.i])
  {
  }

  lemma StepCarries(cfg: Config, s: System, l: Label, s': System)
    requires EngineOk(cfg, s) && Step(cfg, s, l, s')
    ensures JobsCarry(s.db.jobs, s'.db.jobs)
  {
    if IsWorkerLabel(l) { WorkerStepCarries(cfg, s, l, s'); }
    else if IsApiLabel(l) { ApiStepCarries(cfg, s, l, s'); }
    else { RecoveryStepCarries(cfg, s, l, s'); }
  }

  lemma CargoStepOk(cfg: Config, s: System, l: Label, s': System)
    requires EngineOk(cfg, s) && CargoOk(s) && Step(cfg, s, l, s')
    ensures CargoOk(s')
  {
    StepCarries(cfg, s, l, s');
    if IsWorkerLabel(l) {
      WorkerStepCargo(cfg, s, l, s');
      CargoKept(s, l.i, s'.actors[l.i], s');
    } else {
      OtherStepCargo(cfg, s, l, s');
      if s'.actors == s.actors { CargoSame(s, s'); } else { CargoKept(s, l.i, s'.actors[l.i], s'); }
    }
  }

  lemma {:induction false} RunCargoOk(cfg: Config, states: seq<System>, labels: seq<Label>, n: nat)
    requires IsRun(cfg, states, labels) && n < |states|
    ensures CargoOk(states[n])
  {
    if n == 0 {
      forall j: string ensures TidyAt(states[0].db.jobs, j) {}
    } else {
      RunCargoOk(cfg, states, labels, n - 1);
      RunStepCargo(cfg, states, labels, n - 1);
    }
  }

  lemma RunStepCargo(cfg: Config, states: seq<System>, labels: seq<Label>, n: nat)
    requires IsRun(cfg, states, labels) && n < |labels| && CargoOk(states[n])
    ensures CargoOk(states[n + 1])
  {
    RunOk(cfg, states, labels, n);
    assert StepAt(cfg, states, labels, n);
    CargoStepOk(cfg, states[n], labels[n], states[n + 1]);
  }

  // ---------- the execution survives a step exactly unless the step erases it ----------

  /** A write made from this view would not keep the execution. */
  predicate Lacks(view: JobView, j: string, ex: Execution) {
    view.id == j && ExecutionIn(view.result) != Some(ex)
  }

  /**
   The step commits a write to `j` that drops `ex`: a worker's failure under the held fence,
   or an unfenced write by a reconciler or a canceller whose view lacks it.
   */
  predicate Erases(s: System, l: Label, j: string, ex: Execution) {
    && j in s.db.jobs
    && var job := s.db.jobs[j];
       match l
       case Settle(i, _) =>
         i < |s.actors|
         && (match s.actors[i]
             case Failing(k, fence, _) => k == j && job.leaseToken == Some(fence)
             case Settling(view, target, _, _, _) => Lacks(view, j, ex) && CanMove(job.state, target)
             case _ => false)
       case BeginReconcile(i, _) =>
         i < |s.actors| && s.actors[i].Reconciling? && s.actors[i].todo != []
         && Lacks(s.actors[i].todo[0], j, ex) && CanMove(job.state, Verifying)
       case ApplyCancel(i, _) =>
         i < |s.actors| && s.actors[i].CancelApplying? && Lacks(s.actors[i].view, j, ex)
         && CancelTarget(s.actors[i].view, s.actors[i].reply).Some?
         && CanMove(job.state, CancelTarget(s.actors[i].view, s.actors[i].reply).value)
       case _ => false
  }

  predicate Holds(s: System, j: string, ex: Execution) {
    j in s.db.jobs && ExecutionIn(s.db.jobs[j].result) == Some(ex)
  }

  lemma SettleErasure(s: System, i: nat, now: DateTime, s': System, j: string, ex: Execution)
    requires i < |s.actors| && StepSettle(s, i, now, s') && ActorOk(s.history, s.actors[i])
    requires Holds(s, j, ex) && LeaseOk(s.db.jobs[j]) && CarrierOk(s.db.jobs, s.actors[i])
    ensures Holds(s', j, ex) <==> !Erases(s, Settle(i, now), j, ex)
  {
    match s.actors[i]
    case Succeeding(k, fence, ex', o, v) =>
      FencedWrite(s.db, k, Succeeded, Some(WithEvidence(EMPTY_RESULT.(execution := Some(ex')), o, v)), None, fence, now, j);
    case Failing(k, fence, e) =>
      FencedWrite(s.db, k, if e.reconciliationRequired then UnknownOutcome else Failed, None, Some(e), fence, now, j);
    case Settling(view, target, result, error, todo) =>
      UnfencedWrite(s.db, view.id, target, Some(result), error, now, j);
  }

  lemma FencedWrite(db: Db, k: string, target: JobState, result: Option<ResultDoc>, error: Option<JobError>,
                    fence: string, now: DateTime, j: string)
    requires j in db.jobs
    ensures var jobs' := TransitionJob(db, k, target, result, error, Some(fence), None, now).0.jobs;
            j in jobs' && jobs'[j].result
                          == if k == j && db.jobs[j].leaseToken == Some(fence) && CanMove(db.jobs[j].state, target)
                             then result else db.jobs[j].result
  {
  }

  lemma WorkerErasure(cfg: Config, s: System, l: Label, s': System, j: string, ex: Execution)
    requires IsWorkerLabel(l) && !l.Settle? && WorkerStep(cfg, s, l, s')
    requires Holds(s, j, ex) && LeaseOk(s.db.jobs[j]) && TidyAt(s.db.jobs, j)
    ensures Holds(s', j, ex) && !Erases(s, l, j, ex)
  {
    if l.Claim? { ClaimHolds(cfg, s, l, s', j, ex); }
    else if l.MarkVerifying? { MarkingHolds(s, l.i, l.now, s', j, ex); }
    else if l.Renew? { RenewHolds(cfg, s, l.i, l.until, l.now, s', j, ex); }
  }

  lemma ClaimHolds(cfg: Config, s: System, l: Label, s': System, j: string, ex: Execution)
    requires l.Claim? && l.i < |s.actors| && Holds(s, j, ex) && TidyAt(s.db.jobs, j)
    requires StepClaim(cfg, s, l.i, l.row, l.worker, l.token, l.until, l.now, s')
    ensures Holds(s', j, ex)
  {
  }

  lemma MarkingHolds(s: System, i: nat, now: DateTime, s': System, j: string, ex: Execution)
    requires i < |s.actors| && StepMarkVerifying(s, i, now, s')
    requires Holds(s, j, ex) && LeaseOk(s.db.jobs[j]) && TidyAt(s.db.jobs, j)
    ensures Holds(s', j, ex)
  {
    var a := s.actors[i];
    FencedWrite(s.db, a.job, Verifying, Some(EMPTY_RESULT.(execution := Some(a.execution))), None, a.fence, now, j);
  }

  lemma RenewHolds(cfg: Config, s: System, i: nat, until: DateTime, now: DateTime, s': System, j: string, ex: Execution)
    requires i < |s.actors| && StepRenew(cfg, s, i, until, now, s') && Holds(s, j, ex)
    ensures Holds(s', j, ex)
  {
  }

  lemma RecoveryErasure(cfg: Config, s: System, l: Label, s': System, j: string, ex: Execution)
    requires !IsWorkerLabel(l) && !IsApiLabel(l) && RecoveryStep(cfg, s, l, s')
    requires Holds(s, j, ex) && TidyAt(s.db.jobs, j)
    ensures Holds(s', j, ex) <==> !Erases(s, l, j, ex)
  {
    match l
    case Sweep(_, rows, now) => SweepParks(s.db, rows, now, j);
    case TakeCandidates(_, rows) => BudgetDecidesOffers(s.db, rows, cfg.maxAttempts, j);
    case ExpireQueue(rows, _, now) => QueueExpiryRetires(s.db, rows, now, j);
    case BeginReconcile(i, now) => BeginErasure(s, i, now, s', j, ex);
    case CompareAndCancel(i, now) => CompareErasure(s, i, now, s', j, ex);
    case ApplyCancel(i, now) => ApplyErasure(s, i, now, s', j, ex);
    case _ =>
  }

  lemma BeginErasure(s: System, i: nat, now: DateTime, s': System, j: string, ex: Execution)
    requires i < |s.actors| && StepBeginReconcile(s, i, now, s') && Holds(s, j, ex)
    ensures Holds(s', j, ex) <==> !Erases(s, BeginReconcile(i, now), j, ex)
  {
  }

  /** The compare-and-set never erases: a QUEUED row has nothing recorded. */
  lemma CompareErasure(s: System, i: nat, now: DateTime, s': System, j: string, ex: Execution)
    requires i < |s.actors| && StepCompareAndCancel(s, i, now, s') && Holds(s, j, ex) && TidyAt(s.db.jobs, j)
    ensures Holds(s', j, ex)
  {
  }

  lemma ApplyErasure(s: System, i: nat, now: DateTime, s': System, j: string, ex: Execution)
    requires i < |s.actors| && StepApplyCancel(s, i, now, s') && Holds(s, j, ex)
    ensures Holds(s', j, ex) <==> !Erases(s, ApplyCancel(i, now), j, ex)
  {
    var view, reply := s.actors[i].view, s.actors[i].reply;
    var target := CancelTarget(view, reply);
    CancelWriteIsTransition(s.db, view, reply, now);
    if target.Some? {
      UnfencedWrite(s.db, view.id, target.value, CancelResult(view, reply), CancelError(reply), now, j);
      assert ExecutionIn(CancelResult(view, reply)) == ExecutionIn(view.result);
    }
  }

  lemma UnfencedWrite(db: Db, k: string, target: JobState, result: Option<ResultDoc>, error: Option<JobError>,
                      now: DateTime, j: string)
    requires j in db.jobs
    ensures var jobs' := TransitionJob(db, k, target, result, error, None, None, now).0.jobs;
            j in jobs' && jobs'[j].result == if k == j && CanMove(db.jobs[j].state, target) then result else db.jobs[j].result
  {
  }

  /** For every step: the row still holds the execution if and only if the step does not erase it. */
  lemma ExecutionSurvivesStep(cfg: Config, s: System, l: Label, s': System, j: string, ex: Execution)
    requires EngineOk(cfg, s) && CargoOk(s) && Step(cfg, s, l, s') && Holds(s, j, ex)
    ensures Holds(s', j, ex) <==> !Erases(s, l, j, ex)
  {
    assert IdOk(cfg, s, j) && TidyAt(s.db.jobs, j);
    if l.Settle? {
      assert ActorOk(s.history, s.actors[l.i]) && CarrierOk(s.db.jobs, s.actors[l.i]);
      SettleErasure(s, l.i, l.now, s', j, ex);
    } else if IsWorkerLabel(l) {
      WorkerErasure(cfg, s, l, s', j, ex);
    } else if IsApiLabel(l) {
      ApiKeepsRows(cfg, s, l, s', j);
    } else {
      RecoveryErasure(cfg, s, l, s', j, ex);
    }
  }

  lemma ApiKeepsRows(cfg: Config, s: System, l: Label, s': System, j: string)
    requires IsApiLabel(l) && ApiStep(cfg, s, l, s') && j in s.db.jobs
    ensures j in s'.db.jobs && s'.db.jobs[j] == s.db.jobs[j]
  {
    if l.Create? { CreateKeepsRows(cfg, s, l, s', j); }
    else if l.Submit? { SubmitKeepsRows(cfg, s, l, s'); }
  }

  lemma CreateKeepsRows(cfg: Config, s: System, l: Label, s': System, j: string)
    requires l.Create? && ApiStep(cfg, s, l, s') && j in s.db.jobs
    ensures j in s'.db.jobs && s'.db.jobs[j] == s.db.jobs[j]
  {
  }

  lemma SubmitKeepsRows(cfg: Config, s: System, l: Label, s': System)
    requires l.Submit? && ApiStep(cfg, s, l, s')
    ensures s'.db.jobs == s.db.jobs
  {
  }

  /** Over any stretch of any run: the execution stays on the row throughout if and only if no step erases it. */
  lemma {:induction false} ExecutionSurvivesExactly(cfg: Config, states: seq<System>, labels: seq<Label>, m: nat, n: nat,
                                                    j: string, ex: Execution)
    requires IsRun(cfg, states, labels) && m <= n < |states| && Holds(states[m], j, ex)
    ensures (forall q | m <= q <= n :: Holds(states[q], j, ex))
            <==> (forall q | m <= q < n :: !Erases(states[q], labels[q], j, ex))
    decreases n
  {
    if m < n {
      ExecutionSurvivesExactly(cfg, states, labels, m, n - 1, j, ex);
      if Holds(states[n - 1], j, ex) { RunStepSurvival(cfg, states, labels, n - 1, j, ex); }
    }
  }

  lemma RunStepSurvival(cfg: Config, states: seq<System>, labels: seq<Label>, n: nat, j: string, ex: Execution)
    requires IsRun(cfg, states, labels) && n < |labels| && Holds(states[n], j, ex)
    ensures Holds(states[n + 1], j, ex) <==> !Erases(states[n], labels[n], j, ex)
  {
    RunOk(cfg, states, labels, n);
    RunCargoOk(cfg, states, labels, n);
    assert StepAt(cfg, states, labels, n);
    ExecutionSurvivesStep(cfg, states[n], labels[n], states[n + 1], j, ex);
  }
}
