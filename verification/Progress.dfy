/**
 Nobody is stuck: from every reachable state each actor can take exactly the steps its place
 and the tables allow, whatever the adapters reply and the clock says, and a step's label
 settles what it does.
 */
module Progress {
  import opened Models
  import opened Clock
  import opened JobStore
  import opened Engine
  import opened EngineInvariant
  import opened EngineTheorems
  import Parked
  import opened Passes
  import opened Requests

  // ---------- the queries, by the instants in the rows ----------

  predicate IsQueued(db: Db, j: string) {
    j in db.jobs && db.jobs[j].state.Queued?
  }

  /** No job is queued, or the row is a queued one that no queued one is older than. */
  predicate OldestQueued(db: Db, row: Option<string>) {
    match row
    case None => forall j | j in db.jobs :: !IsQueued(db, j)
    case Some(j) =>
      && IsQueued(db, j)
      && forall k | k in db.jobs && IsQueued(db, k) :: Instant(db.jobs[j].createdAt) <= Instant(db.jobs[k].createdAt)
  }

  /** The newest unused confirmation for what the request asks, by its subject; none if there is none. */
  predicate NewestUnused(cfg: Config, db: Db, r: ActionRequest, subject: Subject, row: Option<string>) {
    match row
    case None => forall c | c in db.confirmations :: !IsUnused(cfg, db.confirmations[c], r, subject)
    case Some(c) =>
      && c in db.confirmations && IsUnused(cfg, db.confirmations[c], r, subject)
      && forall d | d in db.confirmations && IsUnused(cfg, db.confirmations[d], r, subject) ::
           Instant(db.confirmations[d].createdAt) <= Instant(db.confirmations[c].createdAt)
  }

  predicate IsUnused(cfg: Config, c: Confirmation, r: ActionRequest, subject: Subject) {
    && c.usedAt.None? && c.subjectName == subject.name && c.subjectDevice == subject.device
    && c.digest == cfg.confirmationDigest(Authority(r.actionId, r.actionVersion, r.target, r.parameters))
  }

  predicate HasLapsed(db: Db, j: string, now: DateTime) {
    && j in db.jobs && Busy(db.jobs[j]) && db.jobs[j].leaseExpiresAt.Some?
    && Instant(db.jobs[j].leaseExpiresAt.value) < Instant(now)
  }

  predicate HasWaited(db: Db, j: string, cutoff: DateTime) {
    IsQueued(db, j) && Instant(db.jobs[j].createdAt) < Instant(cutoff)
  }

  /** `rows` are the jobs whose lease has lapsed, each once. */
  ghost predicate AreLapsed(db: Db, rows: seq<string>, now: DateTime) {
    Distinct(rows) && forall j :: j in rows <==> HasLapsed(db, j, now)
  }

  ghost predicate HaveWaited(db: Db, rows: seq<string>, cutoff: DateTime) {
    Distinct(rows) && forall j :: j in rows <==> HasWaited(db, j, cutoff)
  }

  lemma ClaimQuery(db: Db, now: DateTime, row: Option<string>)
    requires forall j | j in db.jobs :: LeaseOk(db.jobs[j])
    ensures NextClaimable(db, now, row) <==> OldestQueued(db, row)
  {
    if row.Some? && IsQueued(db, row.value) {
      forall k | k in db.jobs ensures
        TextBefore(db.jobs[k].createdAt, db.jobs[row.value].createdAt)
        <==> Instant(db.jobs[k].createdAt) < Instant(db.jobs[row.value].createdAt)
      {
        TextOrderIsTimeOrder(db.jobs[k].createdAt, db.jobs[row.value].createdAt);
      }
    }
    forall j | j in db.jobs ensures Claimable(db.jobs[j], now) <==> IsQueued(db, j) {}
  }

  lemma SubmitQuery(cfg: Config, db: Db, r: ActionRequest, subject: Subject, row: Option<string>)
    ensures NewestPending(db, cfg.confirmationDigest(AuthorityOf(r)), subject, row) <==> NewestUnused(cfg, db, r, subject, row)
  {
    if row.Some? && row.value in db.confirmations {
      forall d | d in db.confirmations ensures
        TextBefore(db.confirmations[row.value].createdAt, db.confirmations[d].createdAt)
        <==> Instant(db.confirmations[row.value].createdAt) < Instant(db.confirmations[d].createdAt)
      {
        TextOrderIsTimeOrder(db.confirmations[row.value].createdAt, db.confirmations[d].createdAt);
      }
    }
    forall c | c in db.confirmations ensures
      Pending(db.confirmations[c], cfg.confirmationDigest(AuthorityOf(r)), subject)
      <==> IsUnused(cfg, db.confirmations[c], r, subject)
    {}
  }

  lemma SweepQuery(db: Db, now: DateTime, rows: seq<string>)
    ensures SelectsLapsedLeases(db, now, rows) <==> AreLapsed(db, rows, now)
  {
    forall j ensures j in db.jobs && LeaseLapsed(db.jobs[j], now) <==> HasLapsed(db, j, now) {
      if j in db.jobs && db.jobs[j].leaseExpiresAt.Some? {
        TextOrderIsTimeOrder(db.jobs[j].leaseExpiresAt.value, now);
      }
    }
  }

  lemma QueueQuery(db: Db, cutoff: DateTime, rows: seq<string>)
    ensures SelectsLapsedQueue(db, cutoff, rows) <==> HaveWaited(db, rows, cutoff)
  {
    forall j ensures j in db.jobs && QueueLapsed(db.jobs[j], cutoff) <==> HasWaited(db, j, cutoff) {
      if j in db.jobs { TextOrderIsTimeOrder(db.jobs[j].createdAt, cutoff); }
    }
  }

  // ---------- which steps an actor's place allows ----------

  /** The step fits the place of the actor that takes it, and the rows it is given are what its query finds. */
  ghost predicate Fits(cfg: Config, s: System, l: Label) {
    if l.ExpireQueue? then HaveWaited(s.db, l.rows, l.cutoff)
    else if l.Plan? then
      cfg.validate(l.request).Some? && (PlanNeedsChallenge(cfg, l.request) ==> l.id !in s.db.confirmations)
    else if l.DropConfirmation? then true
    else l.i < |s.actors| && FitsActor(cfg, s.db, s.actors[l.i], l)
  }

  ghost predicate FitsActor(cfg: Config, db: Db, a: Actor, l: Label) {
    match l
    case Crash(_) => true
    case Claim(_, row, _, _, until, now) =>
      && a.Idle? && OldestQueued(db, row)
      && (row.Some? ==>
            Instant(until) == Instant(now) + LeaseSeconds(cfg, db.jobs[row.value].request) * 1000000)
    case CallExecute(_) => a.Claimed?
    case ExecuteReplies(_, _) => a.Executing?
    case MarkVerifying(_, _) => a.Executed?
    case Renew(_, until, now) =>
      && a.Renewing? && a.job in db.jobs
      && Instant(until) == Instant(now) + LeaseSeconds(cfg, db.jobs[a.job].request) * 1000000
    case ObserveReplies(_, _) => a.Observing? || a.ReObserving?
    case VerifyReplies(_, _) => a.Verify? || a.ReVerifying?
    case Settle(_, _) => a.Succeeding? || a.Failing? || a.Settling?
    case Sweep(_, rows, now) => a.Idle? && AreLapsed(db, rows, now)
    case TakeCandidates(_, rows) => a.Swept? && Parked.SelectsOldest(db, 100, rows)
    case BeginReconcile(_, _) => a.Reconciling?
    case ReadForCancel(_, _, _) => a.Idle?
    case CompareAndCancel(_, _) => a.CancelQueued?
    case Refresh(_) => a.CancelRefresh?
    case CancelReplies(_, _) => a.CancelCalling?
    case ApplyCancel(_, _) => a.CancelApplying?
    case Submit(_, r, subject, row, _) =>
      a.Idle? && cfg.validate(r).Some? && (r.confirmationToken.Some? ==> NewestUnused(cfg, db, r, subject, row))
    case Authorize(_) => a.Authorizing?
    case Create(_, id, found, _) =>
      && a.Creating? && id !in db.jobs
      && (found.None? ==> forall j | j in db.jobs :: db.jobs[j].key != a.request.idempotencyKey)
      && (found.Some? ==> found.value in db.jobs && db.jobs[found.value].key == a.request.idempotencyKey)
    case _ => false
  }

  /** What is known of a reachable state here. */
  predicate SoundFor(cfg: Config, s: System, i: nat)
    requires i < |s.actors|
  {
    && (forall j | j in s.db.jobs :: LeaseOk(s.db.jobs[j]))
    && (s.actors[i].Renewing? ==> s.actors[i].job in s.db.jobs)
    && (s.actors[i].Authorizing? ==> cfg.validate(s.actors[i].request).Some?)
  }

  lemma ReachableIsSound(cfg: Config, states: seq<System>, labels: seq<Label>, n: nat, i: nat)
    requires IsRun(cfg, states, labels) && n < |states| && i < |states[n].actors|
    ensures SoundFor(cfg, states[n], i)
  {
    forall j | j in states[n].db.jobs ensures LeaseOk(states[n].db.jobs[j]) {
      LeasesAreWellFormed(cfg, states, labels, n, j);
    }
    if states[n].actors[i].Renewing? { HeldRow(cfg, states, labels, n, i, states[n].actors[i].job); }
    if states[n].actors[i].Authorizing? {
      var q := HandlerCameFrom(cfg, states, labels, n, i);
    }
  }

  // ---------- a step that fits can happen ----------

  lemma ClaimCan(cfg: Config, s: System, i: nat, row: Option<string>, worker: string, token: string, until: DateTime,
                 now: DateTime) returns (s': System)
    requires i < |s.actors| && s.actors[i].Idle? && NextClaimable(s.db, now, row)
    requires row.Some? ==> IsAfter(now, LeaseFor(cfg, s.db.jobs[row.value].request), until)
    ensures StepClaim(cfg, s, i, row, worker, token, until, now, s')
  {
    s' := s;
    if row.Some? {
      s' := Become(s, i, Claimed(row.value, token)).(db := ClaimJob(s.db, row.value, worker, token, until, now),
                                                    history := s.history + [ClaimNote(row.value, token)]);
    }
  }

  lemma ObserveCan(s: System, i: nat, reply: Reply<Observation>) returns (s': System)
    requires i < |s.actors| && (s.actors[i].Observing? || s.actors[i].ReObserving?)
    ensures StepObserveReplies(s, i, reply, s')
  {
    var a := s.actors[i];
    match reply {
      case Returned(o) =>
        var j := if a.Observing? then a.job else a.view.id;
        s' := Become(s, i, if a.Observing? then Verify(a.job, a.fence, a.execution, o) else ReVerifying(a.view, o, a.todo)).(
                history := s.history + [ObserveNote(j, o)]);
      case Raised(e) =>
        s' := Become(s, i, if a.Observing? then Failing(a.job, a.fence, e) else ReconcileFailure(a.view, e, a.todo));
    }
  }

  lemma VerifyCan(s: System, i: nat, reply: Reply<Verification>) returns (s': System)
    requires i < |s.actors| && (s.actors[i].Verify? || s.actors[i].ReVerifying?)
    ensures StepVerifyReplies(s, i, reply, s')
  {
    var a := s.actors[i];
    match reply {
      case Raised(e) =>
        s' := Become(s, i, if a.Verify? then Failing(a.job, a.fence, e) else ReconcileFailure(a.view, e, a.todo));
      case Returned(v) =>
        if a.Verify? {
          s' := Become(s, i, if v.satisfied then Succeeding(a.job, a.fence, a.execution, a.observation, v)
                             else Failing(a.job, a.fence, Unsatisfied(v))).(
                  history := s.history + [VerifyNote(a.job, Recorded(a.execution), a.observation, v)]);
        } else {
          var partial := ResultOrEmpty(a.view.result);
          s' := Become(s, i, if v.satisfied
                             then Settling(a.view, Succeeded, WithEvidence(partial, a.observation, v), None, a.todo)
                             else Settling(a.view, UnknownOutcome, partial, Some(Unsatisfied(v)), a.todo)).(
                  history := s.history + [VerifyNote(a.view.id, ExecutionArgFor(partial), a.observation, v)]);
        }
    }
  }

  lemma WriteCan(s: System, i: nat, now: DateTime) returns (s': System)
    requires i < |s.actors| && (s.actors[i].Succeeding? || s.actors[i].Failing? || s.actors[i].Settling?)
    ensures StepSettle(s, i, now, s')
  {
    match s.actors[i] {
      case Succeeding(j, fence, ex, o, v) =>
        var doc := WithEvidence(EMPTY_RESULT.(execution := Some(ex)), o, v);
        s' := Become(s, i, Idle).(db := TransitionJob(s.db, j, Succeeded, Some(doc), None, Some(fence), None, now).0);
      case Failing(j, fence, e) =>
        var target := if e.reconciliationRequired then UnknownOutcome else Failed;
        s' := Become(s, i, Idle).(db := TransitionJob(s.db, j, target, None, Some(e), Some(fence), None, now).0);
      case Settling(view, target, result, error, todo) =>
        var (db, r) := TransitionJob(s.db, view.id, target, Some(result), error, None, None, now);
        s' := Become(s, i, if r.Success? then Reconciling(todo) else Idle).(db := db);
    }
  }

  lemma WorkerCan(cfg: Config, s: System, l: Label) returns (s': System)
    requires IsWorkerLabel(l) && Fits(cfg, s, l) && SoundFor(cfg, s, l.i)
    ensures WorkerStep(cfg, s, l, s')
  {
    var a := s.actors[l.i];
    match l {
      case Crash(i) => s' := Become(s, i, Idle);
      case Claim(i, row, worker, token, until, now) =>
        ClaimQuery(s.db, now, row);
        s' := ClaimCan(cfg, s, i, row, worker, token, until, now);
      case CallExecute(i) =>
        s' := Become(s, i, Executing(a.job, a.fence)).(history := s.history + [ExecuteNote(a.job)]);
      case ExecuteReplies(i, reply) =>
        s' := Become(s, i, match reply case Returned(ex) => Executed(a.job, a.fence, ex)
                                       case Raised(e) => Failing(a.job, a.fence, e));
      case MarkVerifying(i, now) =>
        var partial := EMPTY_RESULT.(execution := Some(a.execution));
        var (db, r) := TransitionJob(s.db, a.job, Verifying, Some(partial), None, Some(a.fence), None, now);
        s' := Become(s, i, if r.Success? then Renewing(a.job, a.fence, a.execution) else Idle).(db := db);
      case Renew(i, until, now) =>
        s' := Become(s, i, Observing(a.job, a.fence, a.execution)).(db := RenewLease(s.db, a.job, a.fence, until, now).0);
      case ObserveReplies(i, reply) => s' := ObserveCan(s, i, reply);
      case VerifyReplies(i, reply) => s' := VerifyCan(s, i, reply);
      case Settle(i, now) => s' := WriteCan(s, i, now);
    }
  }

  lemma RecoveryCan(cfg: Config, s: System, l: Label) returns (s': System)
    requires !IsWorkerLabel(l) && !IsApiLabel(l) && Fits(cfg, s, l)
    ensures RecoveryStep(cfg, s, l, s')
  {
    match l {
      case ExpireQueue(rows, cutoff, now) =>
        QueueQuery(s.db, cutoff, rows);
        s' := s.(db := ExpireStaleQueued(s.db, rows, now));
      case Sweep(i, rows, now) =>
        SweepQuery(s.db, now, rows);
        s' := Become(s, i, Swept).(db := ExpireLeases(s.db, rows, now));
      case TakeCandidates(i, rows) =>
        Parked.SelectionByInstant(s.db, 100, rows);
        var (db, views) := ClaimCandidates(s.db, rows, cfg.maxAttempts);
        s' := Become(s, i, Reconciling(views)).(db := db);
      case BeginReconcile(i, now) => s' := BeginCan(s, i, now);
      case _ => s' := CancelCan(s, l);
    }
  }

  lemma BeginCan(s: System, i: nat, now: DateTime) returns (s': System)
    requires i < |s.actors| && s.actors[i].Reconciling?
    ensures StepBeginReconcile(s, i, now, s')
  {
    var a := s.actors[i];
    if a.todo == [] {
      s' := Become(s, i, Idle);
    } else {
      var view := a.todo[0];
      var (db, r) := TransitionJob(s.db, view.id, Verifying, Some(ResultOrEmpty(view.result)), view.error, None, None, now);
      s' := Become(s, i, if r.Success? then ReObserving(view, a.todo[1..]) else Idle).(db := db);
    }
  }

  predicate IsCancelLabel(l: Label) {
    l.ReadForCancel? || l.CompareAndCancel? || l.Refresh? || l.CancelReplies? || l.ApplyCancel?
  }

  lemma CancelCan(s: System, l: Label) returns (s': System)
    requires IsCancelLabel(l) && l.i < |s.actors|
    requires var a := s.actors[l.i];
             && (l.ReadForCancel? ==> a.Idle?) && (l.CompareAndCancel? ==> a.CancelQueued?) && (l.Refresh? ==> a.CancelRefresh?)
             && (l.CancelReplies? ==> a.CancelCalling?) && (l.ApplyCancel? ==> a.CancelApplying?)
    ensures match l
            case ReadForCancel(i, j, subject) => StepReadForCancel(s, i, j, subject, s')
            case CompareAndCancel(i, now) => StepCompareAndCancel(s, i, now, s')
            case Refresh(i) => StepRefresh(s, i, s')
            case CancelReplies(i, reply) => StepCancelReplies(s, i, reply, s')
            case ApplyCancel(i, now) => StepApplyCancel(s, i, now, s')
            case _ => false
  {
    var a := s.actors[l.i];
    match l {
      case ReadForCancel(i, j, subject) =>
        if OwnerAsks(s, l, j) {
          s' := Become(s, i, if s.db.jobs[j].state.Queued? then CancelQueued(View(j, s.db.jobs[j]))
                             else CancelCalling(View(j, s.db.jobs[j])));
        } else { s' := s; }
      case CompareAndCancel(i, now) =>
        var (db, r) := TransitionJob(s.db, a.view.id, Cancelled, a.view.result, a.view.error, None, Some(Queued), now);
        s' := Become(s, i, if r == Failure(StaleLease) then CancelRefresh(a.view.id) else Idle).(db := db);
      case Refresh(i) =>
        s' := Become(s, i, if a.job !in s.db.jobs || Terminal(s.db.jobs[a.job].state) then Idle
                           else CancelCalling(View(a.job, s.db.jobs[a.job])));
      case CancelReplies(i, reply) =>
        s' := Become(s, i, CancelApplying(a.view, reply)).(
                history := if reply.Returned? then s.history + [CancelNote(a.view.id, reply.value.disposition)] else s.history);
      case ApplyCancel(i, now) =>
        s' := Become(s, i, Idle).(db := CancelWrite(s.db, a.view, a.reply, now));
    }
  }

  lemma ApiCan(cfg: Config, s: System, l: Label) returns (s': System)
    requires IsApiLabel(l) && Fits(cfg, s, l)
    requires !l.Plan? && !l.DropConfirmation? ==> SoundFor(cfg, s, l.i)
    ensures ApiStep(cfg, s, l, s')
  {
    match l {
      case Plan(r, subject, id, token, expires, now) => s' := PlanCan(cfg, s, r, subject, id, token, expires, now);
      case DropConfirmation(c, subject, now) => s' := s.(db := CancelConfirmation(s.db, c, subject, now).0);
      case Submit(i, r, subject, row, now) => s' := SubmitCan(cfg, s, i, r, subject, row, now);
      case Authorize(i) => s' := AuthorizeCan(cfg, s, i);
      case Create(i, id, found, now) =>
        var a := s.actors[i];
        s' := Become(s, i, Idle).(
                db := CreateJob(cfg, s.db, found, id, a.request, a.subject, now).0,
                approvedBy := if found.None? && a.approval.Some? then s.approvedBy[id := a.approval.value] else s.approvedBy);
    }
  }

  lemma PlanCan(cfg: Config, s: System, r: ActionRequest, subject: Subject, id: string, token: string, expires: DateTime,
                now: DateTime) returns (s': System)
    requires cfg.validate(r).Some? && (PlanNeedsChallenge(cfg, r) ==> id !in s.db.confirmations)
    ensures StepPlan(cfg, s, r, subject, id, token, expires, now, s')
  {
    var action := cfg.validate(r).value;
    if action.mutation && !cfg.mutationsEnabled {
      s' := s.(db := RecordDenial(cfg, s.db, PlanPhase, r, subject, MutationsDisabled));
    } else if PlanNeedsChallenge(cfg, r) {
      s' := s.(db := CreateConfirmation(cfg, s.db, id, r, subject, action.confirmation, token, expires, now));
    } else {
      s' := s;
    }
  }

  lemma SubmitCan(cfg: Config, s: System, i: nat, r: ActionRequest, subject: Subject, row: Option<string>, now: DateTime)
      returns (s': System)
    requires i < |s.actors| && s.actors[i].Idle? && cfg.validate(r).Some?
    requires r.confirmationToken.Some? ==> NewestUnused(cfg, s.db, r, subject, row)
    ensures StepSubmit(cfg, s, i, r, subject, row, now, s')
  {
    if r.confirmationToken.None? {
      s' := Become(s, i, Authorizing(r, subject, None));
    } else {
      SubmitQuery(cfg, s.db, r, subject, row);
      var (db, verdict) := Consume(cfg, s.db, row, r, subject, r.confirmationToken.value, r.confirmationResponse, now);
      match verdict {
        case CompareRaises => s' := s;
        case Reject(_) => s' := Become(s, i, Authorizing(r, subject, None)).(db := db);
        case Accept => s' := Become(s, i, Authorizing(r, subject, row)).(db := db);
      }
    }
  }

  lemma AuthorizeCan(cfg: Config, s: System, i: nat) returns (s': System)
    requires i < |s.actors| && s.actors[i].Authorizing? && cfg.validate(s.actors[i].request).Some?
    ensures StepAuthorize(cfg, s, i, s')
  {
    var a := s.actors[i];
    var decision := Decide(cfg.validate(a.request).value, cfg.mutationsEnabled, ExecutePhase, a.approval.Some?);
    if !decision.allow {
      s' := Become(s, i, Idle).(db := RecordDenial(cfg, s.db, ExecutePhase, a.request, a.subject, decision.reason));
    } else if a.request.dryRun {
      s' := Become(s, i, Idle);
    } else {
      s' := Become(s, i, Creating(a.request, a.subject, a.approval));
    }
  }

  // ---------- a step that happens fits, and has one outcome ----------

  lemma WorkerFits(cfg: Config, s: System, l: Label, s': System)
    requires IsWorkerLabel(l) && l.i < |s.actors| && WorkerStep(cfg, s, l, s') && SoundFor(cfg, s, l.i)
    ensures Fits(cfg, s, l)
  {
    if l.Claim? { ClaimQuery(s.db, l.now, l.row); }
  }

  lemma RecoveryFits(cfg: Config, s: System, l: Label, s': System)
    requires !IsWorkerLabel(l) && !IsApiLabel(l) && RecoveryStep(cfg, s, l, s')
    ensures Fits(cfg, s, l)
  {
    if l.ExpireQueue? { QueueQuery(s.db, l.cutoff, l.rows); }
    if l.Sweep? { SweepQuery(s.db, l.now, l.rows); }
    if l.TakeCandidates? { Parked.SelectionByInstant(s.db, 100, l.rows); }
  }

  lemma ApiFits(cfg: Config, s: System, l: Label, s': System)
    requires IsApiLabel(l) && ApiStep(cfg, s, l, s')
    ensures Fits(cfg, s, l)
  {
    if l.Submit? && l.request.confirmationToken.Some? { SubmitQuery(cfg, s.db, l.request, l.subject, l.row); }
  }

  /** The label settles the outcome. */
  lemma StepIsDetermined(cfg: Config, s: System, l: Label, s': System, t': System)
    requires Step(cfg, s, l, s') && Step(cfg, s, l, t')
    ensures s' == t'
  {
  }

  /** What is asked of the state a step starts from, for the actor that takes it. */
  predicate SoundForLabel(cfg: Config, s: System, l: Label) {
    l.ExpireQueue? || l.Plan? || l.DropConfirmation? || (l.i < |s.actors| ==> SoundFor(cfg, s, l.i))
  }

  lemma FitsExactly(cfg: Config, s: System, l: Label)
    requires SoundForLabel(cfg, s, l)
    ensures Fits(cfg, s, l) <==> exists s' :: Step(cfg, s, l, s')
  {
    if Fits(cfg, s, l) {
      var s';
      if IsWorkerLabel(l) { s' := WorkerCan(cfg, s, l); }
      else if IsApiLabel(l) { s' := ApiCan(cfg, s, l); }
      else { s' := RecoveryCan(cfg, s, l); }
      assert Step(cfg, s, l, s');
    }
    forall s' | Step(cfg, s, l, s') ensures Fits(cfg, s, l) {
      if IsWorkerLabel(l) { WorkerFits(cfg, s, l, s'); }
      else if IsApiLabel(l) { ApiFits(cfg, s, l, s'); }
      else { RecoveryFits(cfg, s, l, s'); }
    }
  }

  /**
   In every reachable state a step can happen if and only if it fits, and then in one way. No
   actor waits for another: a claimed job can be executed, a reply taken whatever it is, a
   last write made at any time, and a queued job claimed, the oldest first.
   */
  lemma NobodyIsStuck(cfg: Config, states: seq<System>, labels: seq<Label>, n: nat, l: Label)
    requires IsRun(cfg, states, labels) && n < |states|
    ensures Fits(cfg, states[n], l) <==> exists s' :: Step(cfg, states[n], l, s')
    ensures forall s', t' :: Step(cfg, states[n], l, s') && Step(cfg, states[n], l, t') ==> s' == t'
  {
    if !l.ExpireQueue? && !l.Plan? && !l.DropConfirmation? && l.i < |states[n].actors| {
      ReachableIsSound(cfg, states, labels, n, l.i);
    }
    FitsExactly(cfg, states[n], l);
    forall s', t' | Step(cfg, states[n], l, s') && Step(cfg, states[n], l, t') ensures s' == t' {
      StepIsDetermined(cfg, states[n], l, s', t');
    }
  }

  // ---------- a queued job can always be claimed ----------

  predicate NoneOlder(db: Db, j: string, among: set<string>) {
    && IsQueued(db, j)
    && forall k | k in among && IsQueued(db, k) :: Instant(db.jobs[j].createdAt) <= Instant(db.jobs[k].createdAt)
  }

  lemma {:induction false} OldestExists(db: Db, j: string, among: set<string>) returns (oldest: string)
    requires IsQueued(db, j)
    ensures NoneOlder(db, oldest, among + {j})
    decreases among
  {
    if among == {} {
      oldest := j;
    } else {
      var k :| k in among;
      oldest := OldestExists(db, j, among - {k});
      if IsQueued(db, k) && Instant(db.jobs[k].createdAt) < Instant(db.jobs[oldest].createdAt) { oldest := k; }
    }
  }

  /**
   In every reachable state with a queued job, an idle worker can at any moment claim one: an
   oldest one, for as long as its action asks, as long as the calendar lasts.
   */
  lemma QueuedCanBeClaimed(cfg: Config, states: seq<System>, labels: seq<Label>, n: nat, i: nat, j: string, worker: string,
                           token: string, now: DateTime) returns (l: Label, s': System)
    requires IsRun(cfg, states, labels) && n < |states| && i < |states[n].actors| && states[n].actors[i].Idle?
    requires IsQueued(states[n].db, j)
    requires forall k | IsQueued(states[n].db, k) ::
               Instant(now) + LeaseSeconds(cfg, states[n].db.jobs[k].request) * 1000000 <= Instant(LATEST)
    ensures l.Claim? && l.i == i && l.now == now && l.row.Some? && Step(cfg, states[n], l, s')
    ensures IsQueued(states[n].db, l.row.value)
            && Instant(states[n].db.jobs[l.row.value].createdAt) <= Instant(states[n].db.jobs[j].createdAt)
    ensures l.row.value in s'.db.jobs && s'.db.jobs[l.row.value].state.Running?
    ensures s'.db.jobs[l.row.value].leaseToken == Some(token)
  {
    var s := states[n];
    var oldest := OldestExists(s.db, j, s.db.jobs.Keys);
    var until := NoInstantIsMissing(now, LeaseSeconds(cfg, s.db.jobs[oldest].request) * 1000000);
    l := Claim(i, Some(oldest), worker, token, until, now);
    ReachableIsSound(cfg, states, labels, n, i);
    ClaimQuery(s.db, now, Some(oldest));
    s' := ClaimCan(cfg, s, i, Some(oldest), worker, token, until, now);
    ClaimedNow(cfg, s, i, oldest, worker, token, until, now, s');
  }

  lemma ClaimedNow(cfg: Config, s: System, i: nat, j: string, worker: string, token: string, until: DateTime, now: DateTime,
                   s': System)
    requires i < |s.actors| && StepClaim(cfg, s, i, Some(j), worker, token, until, now, s')
    ensures Step(cfg, s, Claim(i, Some(j), worker, token, until, now), s')
    ensures j in s'.db.jobs && s'.db.jobs[j].state.Running? && s'.db.jobs[j].leaseToken == Some(token)
  {
  }
}
