/**
 The job engine as a concurrent protocol: any number of workers, reconcilers,
 cancellers and API handlers over one store. One step is one store transaction or
 one adapter reply; steps of different actors interleave freely, and any actor may
 die between two of its own steps.
 */
module Engine {
  import opened Models
  import opened Clock
  import opened JobStore

  /** What an adapter call brings back. Any other exception ends the actor's pass: a `Crash`. */
  datatype Reply<+T> = Returned(value: T) | Raised(error: JobError)

  /** The execution handed to `verify`: the recorded one, or one made from the partial result. */
  datatype ExecutionArg = Recorded(execution: Execution) | FromPartial(partial: ResultDoc)

  function ExecutionArgFor(partial: ResultDoc): ExecutionArg {
    if partial.execution.Some? then Recorded(partial.execution.value) else FromPartial(partial)
  }

  /** Where one actor is between two of its steps, with the local data it carries. */
  datatype Actor =
    | Idle
    // Worker.run_once
    | Claimed(job: string, fence: string)
    | Executing(job: string, fence: string)
    | Executed(job: string, fence: string, execution: Execution)
    | Renewing(job: string, fence: string, execution: Execution)
    | Observing(job: string, fence: string, execution: Execution)
    | Verify(job: string, fence: string, execution: Execution, observation: Observation)
    | Succeeding(job: string, fence: string, execution: Execution, observation: Observation, verification: Verification)
    | Failing(job: string, fence: string, failure: JobError)
    // Reconciler.run_once
    | Swept
    | Reconciling(todo: seq<JobView>)
    | ReObserving(view: JobView, todo: seq<JobView>)
    | ReVerifying(view: JobView, observation: Observation, todo: seq<JobView>)
    | Settling(view: JobView, target: JobState, result: ResultDoc, error: Option<JobError>, todo: seq<JobView>)
    // Canceller.cancel
    | CancelQueued(view: JobView)
    | CancelRefresh(job: string)
    | CancelCalling(view: JobView)
    | CancelApplying(view: JobView, reply: Reply<Cancellation>)
    // the execute handler; `approval` is the confirmation it consumed
    | Authorizing(request: ActionRequest, subject: Subject, approval: Option<string>)
    | Creating(request: ActionRequest, subject: Subject, approval: Option<string>)

  /** Claims and adapter traffic, in the order they happened. */
  datatype Note =
    | ClaimNote(job: string, token: string)
    | ExecuteNote(job: string)
    | ObserveNote(job: string, observation: Observation)
    | VerifyNote(job: string, execution: ExecutionArg, observation: Observation, verification: Verification)
    | CancelNote(job: string, disposition: Disposition)

  /**
   `history` and `approvedBy` record what happened and influence no step:
   `approvedBy` maps a job to the confirmation its handler had consumed.
   */
  datatype System = System(db: Db, actors: seq<Actor>, history: seq<Note>, approvedBy: map<string, string>)

  predicate Init(s: System) {
    && s.db == Db(map[], map[], [])
    && (forall i | 0 <= i < |s.actors| :: s.actors[i].Idle?)
    && s.history == [] && s.approvedBy == map[]
  }

  datatype Label =
    | Crash(i: nat)
    | Claim(i: nat, row: Option<string>, worker: string, token: string, until: DateTime, now: DateTime)
    | CallExecute(i: nat)
    | ExecuteReplies(i: nat, execution: Reply<Execution>)
    | MarkVerifying(i: nat, now: DateTime)
    | Renew(i: nat, until: DateTime, now: DateTime)
    | ObserveReplies(i: nat, observation: Reply<Observation>)
    | VerifyReplies(i: nat, verification: Reply<Verification>)
    | Settle(i: nat, now: DateTime)
    | Sweep(i: nat, rows: seq<string>, now: DateTime)
    | TakeCandidates(i: nat, rows: seq<string>)
    | BeginReconcile(i: nat, now: DateTime)
    | ReadForCancel(i: nat, job: string, subject: Subject)
    | CompareAndCancel(i: nat, now: DateTime)
    | Refresh(i: nat)
    | CancelReplies(i: nat, cancellation: Reply<Cancellation>)
    | ApplyCancel(i: nat, now: DateTime)
    | ExpireQueue(rows: seq<string>, cutoff: DateTime, now: DateTime)
    | Plan(request: ActionRequest, subject: Subject, id: string, token: string, expires: DateTime, now: DateTime)
    | DropConfirmation(confirmation: string, subject: Subject, now: DateTime)
    | Submit(i: nat, request: ActionRequest, subject: Subject, row: Option<string>, now: DateTime)
    | Authorize(i: nat)
    | Create(i: nat, id: string, found: Option<string>, now: DateTime)

  const RECONCILE_LIMIT: nat := 100

  function Unsatisfied(v: Verification): JobError {
    JobError("conflict", "adapter postcondition is not yet satisfied", ReconcileFirst, true, v.details)
  }

  function WithEvidence(partial: ResultDoc, o: Observation, v: Verification): ResultDoc {
    partial.(observation := Some(o), verification := Some(v))
  }

  function Become(s: System, i: nat, a: Actor): System
    requires i < |s.actors|
  {
    s.(actors := s.actors[i := a])
  }

  // ---------- worker ----------

  predicate StepClaim(cfg: Config, s: System, i: nat, row: Option<string>, worker: string, token: string,
                      until: DateTime, now: DateTime, s': System)
    requires i < |s.actors|
  {
    && s.actors[i].Idle? && NextClaimable(s.db, now, row)
    && match row
       case None => s' == s
       case Some(j) =>
         && IsAfter(now, LeaseFor(cfg, s.db.jobs[j].request), until)
         && s' == Become(s, i, Claimed(j, token)).(
                    db := ClaimJob(s.db, j, worker, token, until, now),
                    history := s.history + [ClaimNote(j, token)])
  }

  /** A request the catalog refuses, or an unregistered adapter, ends the pass instead: a `Crash`. */
  predicate StepCallExecute(s: System, i: nat, s': System)
    requires i < |s.actors|
  {
    && s.actors[i].Claimed?
    && s' == Become(s, i, Executing(s.actors[i].job, s.actors[i].fence)).(
               history := s.history + [ExecuteNote(s.actors[i].job)])
  }

  predicate StepExecuteReplies(s: System, i: nat, reply: Reply<Execution>, s': System)
    requires i < |s.actors|
  {
    var a := s.actors[i];
    && a.Executing?
    && match reply
       case Returned(ex) => s' == Become(s, i, Executed(a.job, a.fence, ex))
       case Raised(e) => s' == Become(s, i, Failing(a.job, a.fence, e))
  }

  predicate StepMarkVerifying(s: System, i: nat, now: DateTime, s': System)
    requires i < |s.actors|
  {
    var a := s.actors[i];
    && a.Executed?
    && var partial := EMPTY_RESULT.(execution := Some(a.execution));
       var (db, r) := TransitionJob(s.db, a.job, Verifying, Some(partial), None, Some(a.fence), None, now);
       s' == Become(s, i, if r.Success? then Renewing(a.job, a.fence, a.execution) else Idle).(db := db)
  }

  /** The renewal's verdict is ignored. */
  predicate StepRenew(cfg: Config, s: System, i: nat, until: DateTime, now: DateTime, s': System)
    requires i < |s.actors|
  {
    var a := s.actors[i];
    && a.Renewing?
    && (a.job in s.db.jobs ==> IsAfter(now, LeaseFor(cfg, s.db.jobs[a.job].request), until))
    && s' == Become(s, i, Observing(a.job, a.fence, a.execution)).(
               db := RenewLease(s.db, a.job, a.fence, until, now).0)
  }

  predicate StepObserveReplies(s: System, i: nat, reply: Reply<Observation>, s': System)
    requires i < |s.actors|
  {
    var a := s.actors[i];
    && (a.Observing? || a.ReObserving?)
    && match reply
       case Returned(o) =>
         var j := if a.Observing? then a.job else a.view.id;
         s' == Become(s, i, if a.Observing? then Verify(a.job, a.fence, a.execution, o)
                            else ReVerifying(a.view, o, a.todo)).(
                 history := s.history + [ObserveNote(j, o)])
       case Raised(e) =>
         s' == Become(s, i, if a.Observing? then Failing(a.job, a.fence, e) else ReconcileFailure(a.view, e, a.todo))
  }

  predicate StepVerifyReplies(s: System, i: nat, reply: Reply<Verification>, s': System)
    requires i < |s.actors|
  {
    var a := s.actors[i];
    && (a.Verify? || a.ReVerifying?)
    && match reply
       case Returned(v) =>
         if a.Verify? then
           s' == Become(s, i, if v.satisfied then Succeeding(a.job, a.fence, a.execution, a.observation, v)
                              else Failing(a.job, a.fence, Unsatisfied(v))).(
                   history := s.history + [VerifyNote(a.job, Recorded(a.execution), a.observation, v)])
         else
           var partial := ResultOrEmpty(a.view.result);
           s' == Become(s, i, if v.satisfied
                              then Settling(a.view, Succeeded, WithEvidence(partial, a.observation, v), None, a.todo)
                              else Settling(a.view, UnknownOutcome, partial, Some(Unsatisfied(v)), a.todo)).(
                   history := s.history + [VerifyNote(a.view.id, ExecutionArgFor(partial), a.observation, v)])
       case Raised(e) =>
         s' == Become(s, i, if a.Verify? then Failing(a.job, a.fence, e) else ReconcileFailure(a.view, e, a.todo))
  }

  /** The last write of a pass: the worker's under its fence, the reconciler's unfenced. */
  predicate StepSettle(s: System, i: nat, now: DateTime, s': System)
    requires i < |s.actors|
  {
    var a := s.actors[i];
    match a
    case Succeeding(j, fence, ex, o, v) =>
      var doc := WithEvidence(EMPTY_RESULT.(execution := Some(ex)), o, v);
      s' == Become(s, i, Idle).(db := TransitionJob(s.db, j, Succeeded, Some(doc), None, Some(fence), None, now).0)
    case Failing(j, fence, e) =>
      var target := if e.reconciliationRequired then UnknownOutcome else Failed;
      s' == Become(s, i, Idle).(db := TransitionJob(s.db, j, target, None, Some(e), Some(fence), None, now).0)
    case Settling(view, target, result, error, todo) =>
      var (db, r) := TransitionJob(s.db, view.id, target, Some(result), error, None, None, now);
      s' == Become(s, i, if r.Success? then Reconciling(todo) else Idle).(db := db)
    case _ => false
  }

  // ---------- reconciler ----------

  function ReconcileFailure(view: JobView, e: JobError, todo: seq<JobView>): Actor {
    Settling(view, if e.retry != Never then UnknownOutcome else Failed, ResultOrEmpty(view.result), Some(e), todo)
  }

  predicate StepSweep(s: System, i: nat, rows: seq<string>, now: DateTime, s': System)
    requires i < |s.actors|
  {
    && s.actors[i].Idle? && SelectsLapsedLeases(s.db, now, rows)
    && s' == Become(s, i, Swept).(db := ExpireLeases(s.db, rows, now))
  }

  predicate StepTakeCandidates(cfg: Config, s: System, i: nat, rows: seq<string>, s': System)
    requires i < |s.actors|
  {
    && s.actors[i].Swept? && SelectsUnknown(s.db, RECONCILE_LIMIT, rows)
    && var (db, views) := ClaimCandidates(s.db, rows, cfg.maxAttempts);
       s' == Become(s, i, Reconciling(views)).(db := db)
  }

  /** The next claimed job, or the end of the pass. A write that raises ends the pass too. */
  predicate StepBeginReconcile(s: System, i: nat, now: DateTime, s': System)
    requires i < |s.actors|
  {
    var a := s.actors[i];
    && a.Reconciling?
    && if a.todo == [] then s' == Become(s, i, Idle)
       else
         var view := a.todo[0];
         var (db, r) := TransitionJob(s.db, view.id, Verifying, Some(ResultOrEmpty(view.result)), view.error,
                                      None, None, now);
         s' == Become(s, i, if r.Success? then ReObserving(view, a.todo[1..]) else Idle).(db := db)
  }

  // ---------- canceller ----------

  predicate StepReadForCancel(s: System, i: nat, j: string, subject: Subject, s': System)
    requires i < |s.actors|
  {
    && s.actors[i].Idle?
    && if j !in s.db.jobs || s.db.jobs[j].subject.name != subject.name
          || s.db.jobs[j].subject.device != subject.device || Terminal(s.db.jobs[j].state)
       then s' == s
       else if s.db.jobs[j].state == Queued then s' == Become(s, i, CancelQueued(View(j, s.db.jobs[j])))
       else s' == Become(s, i, CancelCalling(View(j, s.db.jobs[j])))
  }

  predicate StepCompareAndCancel(s: System, i: nat, now: DateTime, s': System)
    requires i < |s.actors|
  {
    var a := s.actors[i];
    && a.CancelQueued?
    && var (db, r) := TransitionJob(s.db, a.view.id, Cancelled, a.view.result, a.view.error, None, Some(Queued), now);
       s' == Become(s, i, if r == Failure(StaleLease) then CancelRefresh(a.view.id) else Idle).(db := db)
  }

  predicate StepRefresh(s: System, i: nat, s': System)
    requires i < |s.actors|
  {
    var a := s.actors[i];
    && a.CancelRefresh?
    && s' == Become(s, i, if a.job !in s.db.jobs || Terminal(s.db.jobs[a.job].state) then Idle
                          else CancelCalling(View(a.job, s.db.jobs[a.job])))
  }

  predicate StepCancelReplies(s: System, i: nat, reply: Reply<Cancellation>, s': System)
    requires i < |s.actors|
  {
    var a := s.actors[i];
    && a.CancelCalling?
    && s' == Become(s, i, CancelApplying(a.view, reply)).(
               history := if reply.Returned? then s.history + [CancelNote(a.view.id, reply.value.disposition)]
                          else s.history)
  }

  function CancelUnknownError(details: string): JobError {
    JobError("cancellation_unknown", "adapter could not determine the cancellation outcome", ReconcileFirst, true, details)
  }

  /** The write a cancellation reply calls for, if any. */
  function CancelWrite(db: Db, view: JobView, reply: Reply<Cancellation>, now: DateTime): Db {
    match reply
    case Raised(e) =>
      if e.reconciliationRequired && view.state != UnknownOutcome then
        TransitionJob(db, view.id, UnknownOutcome, view.result, Some(e), None, None, now).0
      else db
    case Returned(c) =>
      match c.disposition
      case CancelDone =>
        var doc := ResultOrEmpty(view.result).(cancellation := Some(c));
        TransitionJob(db, view.id, Cancelled, Some(doc), None, None, None, now).0
      case CancelUnknown =>
        if view.state == UnknownOutcome then db
        else TransitionJob(db, view.id, UnknownOutcome, view.result, Some(CancelUnknownError(c.details)),
                           None, None, now).0
      case _ => db
  }

  predicate StepApplyCancel(s: System, i: nat, now: DateTime, s': System)
    requires i < |s.actors|
  {
    var a := s.actors[i];
    && a.CancelApplying?
    && s' == Become(s, i, Idle).(db := CancelWrite(s.db, a.view, a.reply, now))
  }

  // ---------- scheduler and API ----------

  predicate StepExpireQueue(s: System, rows: seq<string>, cutoff: DateTime, now: DateTime, s': System) {
    && SelectsLapsedQueue(s.db, cutoff, rows)
    && s' == s.(db := ExpireStaleQueued(s.db, rows, now))
  }

  /** The plan handler makes at most one transaction: a recorded denial or a new challenge. */
  predicate StepPlan(cfg: Config, s: System, r: ActionRequest, subject: Subject, id: string, token: string,
                     expires: DateTime, now: DateTime, s': System)
  {
    var action := cfg.validate(r);
    && action.Some?
    && var decision := Decide(action.value, cfg.mutationsEnabled, PlanPhase, false);
       if !decision.allow then s' == s.(db := RecordDenial(cfg, s.db, PlanPhase, r, subject, decision.reason))
       else if action.value.mutation && decision.required != NoConfirmation then
         && id !in s.db.confirmations
         && s' == s.(db := CreateConfirmation(cfg, s.db, id, r, subject, decision.required, token, expires, now))
       else s' == s
  }

  predicate StepDropConfirmation(s: System, c: string, subject: Subject, now: DateTime, s': System) {
    s' == s.(db := CancelConfirmation(s.db, c, subject, now).0)
  }

  /** The execute handler consumes the confirmation before anything else. */
  predicate StepSubmit(cfg: Config, s: System, i: nat, r: ActionRequest, subject: Subject, row: Option<string>,
                       now: DateTime, s': System)
    requires i < |s.actors|
  {
    && s.actors[i].Idle? && cfg.validate(r).Some?
    && if r.confirmationToken.None? then s' == Become(s, i, Authorizing(r, subject, None))
       else
         && NewestPending(s.db, cfg.confirmationDigest(AuthorityOf(r)), subject, row)
         && var (db, verdict) := Consume(cfg, s.db, row, r, subject, r.confirmationToken.value,
                                         r.confirmationResponse, now);
            match verdict
            case CompareRaises => s' == s
            case Reject(_) => s' == Become(s, i, Authorizing(r, subject, None)).(db := db)
            case Accept => s' == Become(s, i, Authorizing(r, subject, row)).(db := db)
  }

  predicate StepAuthorize(cfg: Config, s: System, i: nat, s': System)
    requires i < |s.actors|
  {
    var a := s.actors[i];
    && a.Authorizing? && cfg.validate(a.request).Some?
    && var decision := Decide(cfg.validate(a.request).value, cfg.mutationsEnabled, ExecutePhase, a.approval.Some?);
       if !decision.allow then
         s' == Become(s, i, Idle).(db := RecordDenial(cfg, s.db, ExecutePhase, a.request, a.subject, decision.reason))
       else if a.request.dryRun then s' == Become(s, i, Idle)
       else s' == Become(s, i, Creating(a.request, a.subject, a.approval))
  }

  predicate StepCreate(cfg: Config, s: System, i: nat, id: string, found: Option<string>, now: DateTime, s': System)
    requires i < |s.actors|
  {
    var a := s.actors[i];
    && a.Creating? && id !in s.db.jobs && FoundByKey(s.db, a.request.idempotencyKey, found)
    && s' == Become(s, i, Idle).(
               db := CreateJob(cfg, s.db, found, id, a.request, a.subject, now).0,
               approvedBy := if found.None? && a.approval.Some? then s.approvedBy[id := a.approval.value]
                             else s.approvedBy)
  }

  // ---------- all steps ----------

  predicate IsWorkerLabel(l: Label) {
    l.Crash? || l.Claim? || l.CallExecute? || l.ExecuteReplies? || l.MarkVerifying? || l.Renew?
    || l.ObserveReplies? || l.VerifyReplies? || l.Settle?
  }

  predicate IsApiLabel(l: Label) {
    l.Plan? || l.DropConfirmation? || l.Submit? || l.Authorize? || l.Create?
  }

  /** Worker passes; `observe`, `verify` and the final write are shared with the reconciler. */
  predicate WorkerStep(cfg: Config, s: System, l: Label, s': System)
    requires IsWorkerLabel(l)
  {
    && l.i < |s.actors|
    && match l
       case Crash(i) => s' == Become(s, i, Idle)
       case Claim(i, row, worker, token, until, now) => StepClaim(cfg, s, i, row, worker, token, until, now, s')
       case CallExecute(i) => StepCallExecute(s, i, s')
       case ExecuteReplies(i, reply) => StepExecuteReplies(s, i, reply, s')
       case MarkVerifying(i, now) => StepMarkVerifying(s, i, now, s')
       case Renew(i, until, now) => StepRenew(cfg, s, i, until, now, s')
       case ObserveReplies(i, reply) => StepObserveReplies(s, i, reply, s')
       case VerifyReplies(i, reply) => StepVerifyReplies(s, i, reply, s')
       case Settle(i, now) => StepSettle(s, i, now, s')
  }

  predicate RecoveryStep(cfg: Config, s: System, l: Label, s': System)
    requires !IsWorkerLabel(l) && !IsApiLabel(l)
  {
    && (l.ExpireQueue? || l.i < |s.actors|)
    && match l
       case Sweep(i, rows, now) => StepSweep(s, i, rows, now, s')
       case TakeCandidates(i, rows) => StepTakeCandidates(cfg, s, i, rows, s')
       case BeginReconcile(i, now) => StepBeginReconcile(s, i, now, s')
       case ReadForCancel(i, j, subject) => StepReadForCancel(s, i, j, subject, s')
       case CompareAndCancel(i, now) => StepCompareAndCancel(s, i, now, s')
       case Refresh(i) => StepRefresh(s, i, s')
       case CancelReplies(i, reply) => StepCancelReplies(s, i, reply, s')
       case ApplyCancel(i, now) => StepApplyCancel(s, i, now, s')
       case ExpireQueue(rows, cutoff, now) => StepExpireQueue(s, rows, cutoff, now, s')
  }

  predicate ApiStep(cfg: Config, s: System, l: Label, s': System)
    requires IsApiLabel(l)
  {
    && (l.Plan? || l.DropConfirmation? || l.i < |s.actors|)
    && match l
       case Plan(r, subject, id, token, expires, now) => StepPlan(cfg, s, r, subject, id, token, expires, now, s')
       case DropConfirmation(c, subject, now) => StepDropConfirmation(s, c, subject, now, s')
       case Submit(i, r, subject, row, now) => StepSubmit(cfg, s, i, r, subject, row, now, s')
       case Authorize(i) => StepAuthorize(cfg, s, i, s')
       case Create(i, id, found, now) => StepCreate(cfg, s, i, id, found, now, s')
  }

  predicate Step(cfg: Config, s: System, l: Label, s': System) {
    if IsWorkerLabel(l) then WorkerStep(cfg, s, l, s')
    else if IsApiLabel(l) then ApiStep(cfg, s, l, s')
    else RecoveryStep(cfg, s, l, s')
  }

  predicate StepAt(cfg: Config, states: seq<System>, labels: seq<Label>, n: nat)
    requires |states| == |labels| + 1
  {
    n < |labels| ==> Step(cfg, states[n], labels[n], states[n + 1])
  }

  /** A stretch of a run, from any state: `states[n]` is the system after the first `n` labels. */
  ghost predicate IsPath(cfg: Config, states: seq<System>, labels: seq<Label>) {
    |states| == |labels| + 1 && forall n: nat :: StepAt(cfg, states, labels, n)
  }

  /** A run from the empty store. */
  ghost predicate IsRun(cfg: Config, states: seq<System>, labels: seq<Label>) {
    IsPath(cfg, states, labels) && Init(states[0])
  }

  // ---------- putting paths together ----------

  lemma NoSteps(cfg: Config, s: System)
    ensures IsPath(cfg, [s], [])
  {
    var labels: seq<Label> := [];
    forall n: nat ensures StepAt(cfg, [s], labels, n) {}
  }

  /** A step found in one path is the same step in another. */
  lemma SameStepAt(cfg: Config, states: seq<System>, labels: seq<Label>, n: nat,
                   states': seq<System>, labels': seq<Label>, n': nat)
    requires |states| == |labels| + 1 && |states'| == |labels'| + 1 && n < |labels| && n' < |labels'|
    requires states[n] == states'[n'] && labels[n] == labels'[n'] && states[n + 1] == states'[n' + 1]
    ensures StepAt(cfg, states, labels, n) == StepAt(cfg, states', labels', n')
  {
  }

  lemma StepIsAt(cfg: Config, s: System, l: Label, s': System, states: seq<System>, labels: seq<Label>, n: nat)
    requires Step(cfg, s, l, s') && |states| == |labels| + 1 && n < |labels|
    requires states[n] == s && labels[n] == l && states[n + 1] == s'
    ensures StepAt(cfg, states, labels, n)
  {
  }

  lemma OneStep(cfg: Config, s: System, l: Label, s': System)
    requires Step(cfg, s, l, s')
    ensures IsPath(cfg, [s, s'], [l])
  {
    var states, labels := [s, s'], [l];
    StepIsAt(cfg, s, l, s', states, labels, 0);
    forall n: nat ensures StepAt(cfg, states, labels, n) { assert n == 0 || n >= |labels|; }
  }

  lemma EarlierAt(cfg: Config, states: seq<System>, labels: seq<Label>, l: Label, s': System, n: nat)
    requires IsPath(cfg, states, labels) && n != |labels|
    ensures StepAt(cfg, states + [s'], labels + [l], n)
  {
    if n < |labels| {
      assert StepAt(cfg, states, labels, n);
      SameStepAt(cfg, states, labels, n, states + [s'], labels + [l], n);
    }
  }

  lemma PathThenStep(cfg: Config, states: seq<System>, labels: seq<Label>, l: Label, s': System)
    requires IsPath(cfg, states, labels) && Step(cfg, states[|labels|], l, s')
    ensures IsPath(cfg, states + [s'], labels + [l])
  {
    StepIsAt(cfg, states[|labels|], l, s', states + [s'], labels + [l], |labels|);
    forall n: nat ensures StepAt(cfg, states + [s'], labels + [l], n) {
      if n != |labels| { EarlierAt(cfg, states, labels, l, s', n); }
    }
  }

  lemma Shifted<T>(x: T, xs: seq<T>, n: nat)
    requires n < |xs|
    ensures ([x] + xs)[n + 1] == xs[n]
  {
  }

  lemma LaterAt(cfg: Config, s: System, l: Label, states: seq<System>, labels: seq<Label>, n: nat)
    requires IsPath(cfg, states, labels)
    ensures StepAt(cfg, [s] + states, [l] + labels, n + 1)
  {
    if n < |labels| {
      Shifted(s, states, n);
      Shifted(s, states, n + 1);
      Shifted(l, labels, n);
      SameStepAt(cfg, states, labels, n, [s] + states, [l] + labels, n + 1);
    }
  }

  lemma StepThenPath(cfg: Config, s: System, l: Label, states: seq<System>, labels: seq<Label>)
    requires IsPath(cfg, states, labels) && Step(cfg, s, l, states[0])
    ensures IsPath(cfg, [s] + states, [l] + labels)
  {
    StepIsAt(cfg, s, l, states[0], [s] + states, [l] + labels, 0);
    forall n: nat ensures StepAt(cfg, [s] + states, [l] + labels, n) {
      if n != 0 { LaterAt(cfg, s, l, states, labels, n - 1); }
    }
  }
}
