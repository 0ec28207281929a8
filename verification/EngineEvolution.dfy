/** What one step can do to the tables: rows only ever advance and the log only grows. */
module EngineEvolution {
  import opened Models
  import opened Clock
  import opened JobStore
  import opened AuditReplay
  import opened Engine
  import opened EngineInvariant

  /** A terminal row is frozen; a token, once gone from a job that left QUEUED, never comes back. */
  predicate RowAdvances(a: Job, b: Job) {
    && SameIdentity(a, b) && a.createdAt == b.createdAt && a.attempts <= b.attempts
    && (Terminal(a.state) ==> b == a)
    && (!a.state.Queued? ==> !b.state.Queued? && (b.leaseToken == a.leaseToken || b.leaseToken.None?))
  }

  predicate JobAdvances(jobs: map<string, Job>, jobs': map<string, Job>, j: string) {
    j in jobs ==> j in jobs' && RowAdvances(jobs[j], jobs'[j])
  }

  ghost predicate JobsAdvance(jobs: map<string, Job>, jobs': map<string, Job>) {
    forall j: string :: JobAdvances(jobs, jobs', j)
  }

  predicate SameSpendings(log: seq<Event>, log': seq<Event>, c: string) {
    Spendings(log', c) == Spendings(log, c)
  }

  /** The step is about jobs only: no row is added, no confirmation is touched. */
  ghost predicate JobsOnly(db: Db, db': Db) {
    && db'.jobs.Keys == db.jobs.Keys && db'.confirmations == db.confirmations
    && JobsAdvance(db.jobs, db'.jobs) && db.log <= db'.log
    && forall c: string :: SameSpendings(db.log, db'.log, c)
  }

  lemma AdvanceTrans(a: map<string, Job>, b: map<string, Job>, c: map<string, Job>)
    requires JobsAdvance(a, b) && JobsAdvance(b, c)
    ensures JobsAdvance(a, c)
  {
    forall j: string ensures JobAdvances(a, c, j) { assert JobAdvances(a, b, j) && JobAdvances(b, c, j); }
  }

  lemma JobsOnlyTrans(a: Db, b: Db, c: Db)
    requires JobsOnly(a, b) && JobsOnly(b, c)
    ensures JobsOnly(a, c)
  {
    AdvanceTrans(a.jobs, b.jobs, c.jobs);
    forall x: string ensures SameSpendings(a.log, c.log, x) {
      assert SameSpendings(a.log, b.log, x) && SameSpendings(b.log, c.log, x);
    }
    assert a.log <= c.log;
  }

  lemma AdvanceRefl(jobs: map<string, Job>)
    ensures JobsAdvance(jobs, jobs)
  {
    forall j: string ensures JobAdvances(jobs, jobs, j) {}
  }

  lemma JobsOnlyRefl(db: Db)
    ensures JobsOnly(db, db)
  {
    AdvanceRefl(db.jobs);
    forall c: string ensures SameSpendings(db.log, db.log, c) {}
  }

  /** One row is replaced, with at most one event about it. */
  lemma OneRow(db: Db, j: string, after: Job, events: seq<Event>, db': Db)
    requires j in db.jobs && RowAdvances(db.jobs[j], after) && |events| <= 1
    requires forall e | e in events :: !e.ConfirmationConsumed? && !e.ConfirmationCancelled?
    requires db' == db.(jobs := db.jobs[j := after], log := db.log + events)
    ensures JobsOnly(db, db')
  {
    forall k: string ensures JobAdvances(db.jobs, db'.jobs, k) {}
    forall c: string ensures SameSpendings(db.log, db'.log, c) {
      if events == [] { assert db.log + events == db.log; }
      else { assert events == [events[0]]; SpendingsAppend(db.log, events[0], c); }
    }
  }

  lemma TransitionAdvances(db: Db, j: string, target: JobState, result: Option<ResultDoc>, error: Option<JobError>,
                           fence: Option<string>, expected: Option<JobState>, now: DateTime)
    requires target != Queued
    ensures JobsOnly(db, TransitionJob(db, j, target, result, error, fence, expected, now).0)
  {
    var db' := TransitionJob(db, j, target, result, error, fence, expected, now).0;
    if db' == db {
      JobsOnlyRefl(db);
    } else {
      OneRow(db, j, Moved(db.jobs[j], target, result, error, now), [JobMoved(j, target, result, error)], db');
    }
  }

  lemma RenewAdvances(db: Db, j: string, token: string, until: DateTime, now: DateTime)
    ensures JobsOnly(db, RenewLease(db, j, token, until, now).0)
  {
    var db' := RenewLease(db, j, token, until, now).0;
    if db' == db { JobsOnlyRefl(db); }
    else {
      assert db'.log == db.log + [];
      OneRow(db, j, db'.jobs[j], [], db');
    }
  }

  lemma {:induction false} ExpireLeasesAdvances(db: Db, rows: seq<string>, now: DateTime)
    requires Distinct(rows)
    requires forall j | j in rows :: j in db.jobs && (db.jobs[j].state.Running? || db.jobs[j].state.Verifying?)
    ensures JobsOnly(db, ExpireLeases(db, rows, now))
  {
    if rows == [] {
      JobsOnlyRefl(db);
    } else {
      var front, j := rows[..|rows| - 1], rows[|rows| - 1];
      var db1 := ExpireLeases(db, front, now);
      ExpireLeasesAdvances(db, front, now);
      ExpiryTouchesRows(db, front, now, j);
      var db' := ExpireLease(db1, j, now);
      OneRow(db1, j, db'.jobs[j], [LeaseExpired(j)], db');
      JobsOnlyTrans(db, db1, db');
    }
  }

  lemma {:induction false} ExpireQueueAdvances(db: Db, rows: seq<string>, now: DateTime)
    requires Distinct(rows)
    requires forall j | j in rows :: j in db.jobs && db.jobs[j].state.Queued?
    ensures JobsOnly(db, ExpireStaleQueued(db, rows, now))
  {
    if rows == [] {
      JobsOnlyRefl(db);
    } else {
      var front, j := rows[..|rows| - 1], rows[|rows| - 1];
      var db1 := ExpireStaleQueued(db, front, now);
      ExpireQueueAdvances(db, front, now);
      ExpiryTouchesRows(db, front, now, j);
      var db' := ExpireQueued(db1, j, now);
      OneRow(db1, j, db'.jobs[j], [QueueExpired(j)], db');
      JobsOnlyTrans(db, db1, db');
    }
  }

  lemma CandidateAdvances(db: Db, j: string, max: nat)
    requires j in db.jobs && db.jobs[j].state.UnknownOutcome?
    ensures JobsOnly(db, ClaimCandidate(db, j, max))
  {
    var db' := ClaimCandidate(db, j, max);
    var n := db.jobs[j].attempts + 1;
    var events := if n == max then [ReconcileExhausted(j, n)] else [];
    assert db'.log == db.log + events;
    OneRow(db, j, db'.jobs[j], events, db');
  }

  lemma {:induction false} CandidatesAdvance(db: Db, rows: seq<string>, max: nat)
    requires Distinct(rows)
    requires forall j | j in rows :: j in db.jobs && db.jobs[j].state.UnknownOutcome?
    ensures JobsOnly(db, ClaimCandidates(db, rows, max).0)
  {
    if rows == [] {
      JobsOnlyRefl(db);
    } else {
      var front, j := rows[..|rows| - 1], rows[|rows| - 1];
      var db1 := ClaimCandidates(db, front, max).0;
      CandidatesAdvance(db, front, max);
      CandidatesTouchRows(db, front, max, j);
      CandidateAdvances(db1, j, max);
      if db1.jobs[j].attempts < max { JobsOnlyTrans(db, db1, ClaimCandidate(db1, j, max)); }
    }
  }

  lemma CancelWriteAdvances(db: Db, view: JobView, reply: Reply<Cancellation>, now: DateTime)
    ensures JobsOnly(db, CancelWrite(db, view, reply, now))
  {
    var db' := CancelWrite(db, view, reply, now);
    if db' == db { JobsOnlyRefl(db); }
    else {
      match reply
      case Raised(e) => TransitionAdvances(db, view.id, UnknownOutcome, view.result, Some(e), None, None, now);
      case Returned(c) =>
        if c.disposition == CancelDone {
          TransitionAdvances(db, view.id, Cancelled, Some(ResultOrEmpty(view.result).(cancellation := Some(c))),
                             None, None, None, now);
        } else {
          TransitionAdvances(db, view.id, UnknownOutcome, view.result, Some(CancelUnknownError(c.details)),
                             None, None, now);
        }
    }
  }

  lemma SettleAdvances(s: System, i: nat, now: DateTime, s': System)
    requires i < |s.actors| && StepSettle(s, i, now, s') && ActorOk(s.history, s.actors[i])
    ensures JobsOnly(s.db, s'.db)
  {
    match s.actors[i]
    case Succeeding(j, fence, ex, o, v) =>
      TransitionAdvances(s.db, j, Succeeded, Some(WithEvidence(EMPTY_RESULT.(execution := Some(ex)), o, v)), None,
                         Some(fence), None, now);
    case Failing(j, fence, e) =>
      TransitionAdvances(s.db, j, if e.reconciliationRequired then UnknownOutcome else Failed, None, Some(e),
                         Some(fence), None, now);
    case Settling(view, target, result, error, todo) =>
      TransitionAdvances(s.db, view.id, target, Some(result), error, None, None, now);
  }

  lemma ClaimAdvances(db: Db, j: string, worker: string, token: string, until: DateTime, now: DateTime)
    requires j in db.jobs && db.jobs[j].state.Queued?
    ensures JobsOnly(db, ClaimJob(db, j, worker, token, until, now))
  {
    OneRow(db, j, Leased(db.jobs[j], worker, token, until, now), [JobRunning(j, worker)],
           ClaimJob(db, j, worker, token, until, now));
  }

  lemma WorkerStepAdvances(cfg: Config, s: System, l: Label, s': System)
    requires EngineOk(cfg, s) && IsWorkerLabel(l) && WorkerStep(cfg, s, l, s')
    ensures JobsOnly(s.db, s'.db)
  {
    match l
    case Claim(i, row, worker, token, until, now) =>
      if row.Some? { ClaimAdvances(s.db, row.value, worker, token, until, now); } else { JobsOnlyRefl(s.db); }
    case MarkVerifying(i, now) =>
      var a := s.actors[i];
      TransitionAdvances(s.db, a.job, Verifying, Some(EMPTY_RESULT.(execution := Some(a.execution))), None,
                         Some(a.fence), None, now);
    case Renew(i, until, now) => RenewAdvances(s.db, s.actors[i].job, s.actors[i].fence, until, now);
    case Settle(i, now) => assert ActorOk(s.history, s.actors[i]); SettleAdvances(s, i, now, s');
    case _ => JobsOnlyRefl(s.db);
  }

  lemma RecoveryStepAdvances(cfg: Config, s: System, l: Label, s': System)
    requires !IsWorkerLabel(l) && !IsApiLabel(l) && RecoveryStep(cfg, s, l, s')
    ensures JobsOnly(s.db, s'.db)
  {
    match l
    case Sweep(i, rows, now) => ExpireLeasesAdvances(s.db, rows, now);
    case TakeCandidates(i, rows) => CandidatesAdvance(s.db, rows, cfg.maxAttempts);
    case BeginReconcile(i, now) =>
      var a := s.actors[i];
      if a.todo == [] { JobsOnlyRefl(s.db); }
      else {
        TransitionAdvances(s.db, a.todo[0].id, Verifying, Some(ResultOrEmpty(a.todo[0].result)), a.todo[0].error,
                           None, None, now);
      }
    case CompareAndCancel(i, now) =>
      var v := s.actors[i].view;
      TransitionAdvances(s.db, v.id, Cancelled, v.result, v.error, None, Some(Queued), now);
    case ApplyCancel(i, now) => CancelWriteAdvances(s.db, s.actors[i].view, s.actors[i].reply, now);
    case ExpireQueue(rows, cutoff, now) => ExpireQueueAdvances(s.db, rows, now);
    case _ => JobsOnlyRefl(s.db);
  }

  lemma ApiStepAdvances(cfg: Config, s: System, l: Label, s': System)
    requires IsApiLabel(l) && ApiStep(cfg, s, l, s')
    ensures JobsAdvance(s.db.jobs, s'.db.jobs) && s.db.log <= s'.db.log && s'.history == s.history
  {
    if !l.Create? {
      AdvanceRefl(s.db.jobs);
    } else {
      forall j: string ensures JobAdvances(s.db.jobs, s'.db.jobs, j) {}
    }
  }

  lemma WorkerHistory(cfg: Config, s: System, l: Label, s': System)
    requires IsWorkerLabel(l) && WorkerStep(cfg, s, l, s')
    ensures s.history <= s'.history
  {
  }

  /** Every step: rows advance, log and history only grow. */
  lemma StepAdvances(cfg: Config, s: System, l: Label, s': System)
    requires EngineOk(cfg, s) && Step(cfg, s, l, s')
    ensures JobsAdvance(s.db.jobs, s'.db.jobs)
    ensures s.db.log <= s'.db.log && s.history <= s'.history
  {
    if IsWorkerLabel(l) {
      WorkerStepAdvances(cfg, s, l, s');
      WorkerHistory(cfg, s, l, s');
    } else if IsApiLabel(l) {
      ApiStepAdvances(cfg, s, l, s');
    } else {
      RecoveryStepAdvances(cfg, s, l, s');
    }
  }
}
