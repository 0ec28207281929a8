/** What holds of every run of the job engine, whatever the interleaving. */
module EngineTheorems {
  import opened Models
  import opened Clock
  import opened JobStore
  import opened AuditReplay
  import opened Engine
  import opened EngineInvariant
  import opened EngineSteps
  import opened EngineEvolution
  import opened Approvals
  import opened EngineHistory

  // ---------- from steps to runs ----------

  lemma {:induction false} RunOk(cfg: Config, states: seq<System>, labels: seq<Label>, n: nat)
    requires IsRun(cfg, states, labels) && n < |states|
    ensures EngineOk(cfg, states[n]) && ApprovalsOk(cfg, states[n])
  {
    if n == 0 {
      InitOk(cfg, states[0]);
      InitApprovals(cfg, states[0]);
    } else {
      RunOk(cfg, states, labels, n - 1);
      RunStepOk(cfg, states, labels, n - 1);
    }
  }

  lemma RunStepOk(cfg: Config, states: seq<System>, labels: seq<Label>, n: nat)
    requires IsRun(cfg, states, labels) && n < |labels|
    requires EngineOk(cfg, states[n]) && ApprovalsOk(cfg, states[n])
    ensures EngineOk(cfg, states[n + 1]) && ApprovalsOk(cfg, states[n + 1])
  {
    assert StepAt(cfg, states, labels, n);
    EngineStepOk(cfg, states[n], labels[n], states[n + 1]);
    ApprovalsStepOk(cfg, states[n], labels[n], states[n + 1]);
  }

  lemma RunStepAdvances(cfg: Config, states: seq<System>, labels: seq<Label>, n: nat)
    requires IsRun(cfg, states, labels) && n < |labels|
    ensures JobsAdvance(states[n].db.jobs, states[n + 1].db.jobs)
    ensures states[n].db.log <= states[n + 1].db.log && states[n].history <= states[n + 1].history
  {
    RunOk(cfg, states, labels, n);
    assert StepAt(cfg, states, labels, n);
    StepAdvances(cfg, states[n], labels[n], states[n + 1]);
  }

  lemma PrefixTrans<T>(a: seq<T>, b: seq<T>, c: seq<T>)
    requires a <= b <= c
    ensures a <= c
  {
  }

  lemma {:induction false} RunAdvances(cfg: Config, states: seq<System>, labels: seq<Label>, m: nat, n: nat)
    requires IsRun(cfg, states, labels) && m <= n < |states|
    ensures JobsAdvance(states[m].db.jobs, states[n].db.jobs)
    ensures states[m].db.log <= states[n].db.log && states[m].history <= states[n].history
    decreases n
  {
    if m == n {
      AdvanceRefl(states[m].db.jobs);
    } else {
      RunAdvances(cfg, states, labels, m, n - 1);
      RunStepAdvances(cfg, states, labels, n - 1);
      PrefixTrans(states[m].db.log, states[n - 1].db.log, states[n].db.log);
      PrefixTrans(states[m].history, states[n - 1].history, states[n].history);
      AdvanceTrans(states[m].db.jobs, states[n - 1].db.jobs, states[n].db.jobs);
    }
  }

  // ---------- at most one execution ----------

  /** Calls of `execute` for jobs submitted under one idempotency key. */
  function KeyExecutions(h: seq<Note>, jobs: map<string, Job>, key: string): nat {
    if h == [] then 0
    else
      var n := h[|h| - 1];
      KeyExecutions(h[..|h| - 1], jobs, key)
      + if n.ExecuteNote? && n.job in jobs && jobs[n.job].key == key then 1 else 0
  }

  lemma {:induction false} KeyExecutionsAreItsJobs(h: seq<Note>, jobs: map<string, Job>, j: string)
    requires j in jobs && KeysUnique(jobs)
    ensures KeyExecutions(h, jobs, jobs[j].key) == Executions(h, j)
  {
    if h != [] {
      KeyExecutionsAreItsJobs(h[..|h| - 1], jobs, j);
      var n := h[|h| - 1];
      if n.ExecuteNote? { assert KeysDiffer(jobs, n.job, j); }
    }
  }

  lemma {:induction false} UnusedKeyExecutesNothing(h: seq<Note>, jobs: map<string, Job>, key: string)
    requires forall j | j in jobs :: jobs[j].key != key
    ensures KeyExecutions(h, jobs, key) == 0
  {
    if h != [] { UnusedKeyExecutesNothing(h[..|h| - 1], jobs, key); }
  }

  /** `adapter.execute` is called at most once per job and at most once per idempotency key. */
  lemma AtMostOnceExecution(cfg: Config, states: seq<System>, labels: seq<Label>, n: nat, j: string, key: string)
    requires IsRun(cfg, states, labels) && n < |states|
    ensures ExecuteCalls(states, labels, n, j) <= 1
    ensures Claims(states[n].history, j) <= 1
    ensures KeyExecutions(states[n].history, states[n].db.jobs, key) <= 1
  {
    var s := states[n];
    RunOk(cfg, states, labels, n);
    assert IdOk(cfg, s, j);
    CallsAreCounted(cfg, states, labels, n, j);
    if k :| k in s.db.jobs && s.db.jobs[k].key == key {
      assert IdOk(cfg, s, k);
      KeyExecutionsAreItsJobs(s.history, s.db.jobs, k);
    } else {
      UnusedKeyExecutesNothing(s.history, s.db.jobs, key);
    }
  }

  // ---------- bounded life ----------

  /** A job changes state at most 2k + 4 times after it is queued, k being the attempt budget. */
  lemma BoundedLife(cfg: Config, states: seq<System>, labels: seq<Label>, n: nat, j: string)
    requires IsRun(cfg, states, labels) && n < |states| && j in states[n].db.jobs
    ensures 1 <= |Path(states[n].db.log, j)| <= 2 * cfg.maxAttempts + 5
    ensures Reverifications(Path(states[n].db.log, j)) + TotalOpenClaims(states[n].actors, j)
            <= states[n].db.jobs[j].attempts <= cfg.maxAttempts
  {
    RunOk(cfg, states, labels, n);
    assert IdOk(cfg, states[n], j);
    WalkIsBounded(Path(states[n].db.log, j));
  }

  /** `reconcile_exhausted` is logged exactly when the budget is used up, and then once. */
  lemma ExhaustedOnce(cfg: Config, states: seq<System>, labels: seq<Label>, n: nat, j: string)
    requires IsRun(cfg, states, labels) && n < |states|
    ensures Exhaustions(states[n].db.log, j)
         == if j in states[n].db.jobs && cfg.maxAttempts >= 1 && states[n].db.jobs[j].attempts == cfg.maxAttempts
            then 1 else 0
  {
    RunOk(cfg, states, labels, n);
    assert IdOk(cfg, states[n], j);
  }

  // ---------- the audit log refines the jobs table ----------

  /** Folding the log from empty rebuilds every job's digest, subject, state, result and error. */
  lemma AuditRebuildsJobs(cfg: Config, states: seq<System>, labels: seq<Label>, n: nat)
    requires IsRun(cfg, states, labels) && n < |states|
    ensures Replay(states[n].db.log) == Table(states[n].db.jobs)
  {
    RunOk(cfg, states, labels, n);
  }

  /** A job's state events form a path of allowed transitions from QUEUED to its state. */
  lemma AuditPathIsAllowed(cfg: Config, states: seq<System>, labels: seq<Label>, n: nat, j: string)
    requires IsRun(cfg, states, labels) && n < |states|
    ensures if j in states[n].db.jobs
            then Walk(Path(states[n].db.log, j)) && Last(Path(states[n].db.log, j)) == states[n].db.jobs[j].state
            else Path(states[n].db.log, j) == []
  {
    RunOk(cfg, states, labels, n);
    assert IdOk(cfg, states[n], j);
  }

  // ---------- fencing ----------

  lemma LeasesAreWellFormed(cfg: Config, states: seq<System>, labels: seq<Label>, n: nat, j: string)
    requires IsRun(cfg, states, labels) && n < |states| && j in states[n].db.jobs
    ensures LeaseOk(states[n].db.jobs[j])
  {
    RunOk(cfg, states, labels, n);
    assert IdOk(cfg, states[n], j);
  }

  lemma {:induction false} ClaimedIsCounted(h: seq<Note>, j: string, token: string)
    requires Contains(h, ClaimNote(j, token))
    ensures Claims(h, j) >= 1
  {
    var p :| 0 <= p < |h| && h[p] == ClaimNote(j, token);
    if p < |h| - 1 {
      assert h[..|h| - 1][p] == ClaimNote(j, token);
      ClaimedIsCounted(h[..|h| - 1], j, token);
    }
  }

  lemma ClaimedHasLeftQueue(cfg: Config, s: System, j: string, token: string)
    requires EngineOk(cfg, s) && j in s.db.jobs && Contains(s.history, ClaimNote(j, token))
    ensures !s.db.jobs[j].state.Queued?
  {
    assert IdOk(cfg, s, j);
    ClaimedIsCounted(s.history, j, token);
    WalkIsBounded(Path(s.db.log, j));
  }

  /** Once a claimed job no longer carries a token, no write or renewal under that token ever works again. */
  lemma LostFenceStaysLost(cfg: Config, states: seq<System>, labels: seq<Label>, m: nat, n: nat, j: string, token: string)
    requires IsRun(cfg, states, labels) && m <= n < |states|
    requires j in states[m].db.jobs && Contains(states[m].history, ClaimNote(j, token))
    requires states[m].db.jobs[j].leaseToken != Some(token)
    ensures j in states[n].db.jobs && states[n].db.jobs[j].leaseToken != Some(token)
    ensures forall target, result, error, expected, now ::
              TransitionJob(states[n].db, j, target, result, error, Some(token), expected, now)
              == (states[n].db, Failure(StaleLease))
    ensures forall until, now :: RenewLease(states[n].db, j, token, until, now) == (states[n].db, false)
  {
    RunOk(cfg, states, labels, m);
    RunAdvances(cfg, states, labels, m, n);
    ClaimedHasLeftQueue(cfg, states[m], j, token);
    assert JobAdvances(states[m].db.jobs, states[n].db.jobs, j);
  }

  // ---------- success, finality ----------

  /** A SUCCEEDED job's result holds an observation and a satisfied verification made from it. */
  lemma ObservedBeforeSuccess(cfg: Config, states: seq<System>, labels: seq<Label>, n: nat, j: string)
    requires IsRun(cfg, states, labels) && n < |states|
    requires j in states[n].db.jobs && states[n].db.jobs[j].state.Succeeded?
    ensures Proven(states[n].history, j, states[n].db.jobs[j].result)
  {
    RunOk(cfg, states, labels, n);
    assert IdOk(cfg, states[n], j);
  }

  /** A terminal row never changes again, in any column, and QUEUED is never entered again. */
  lemma TerminalIsFinal(cfg: Config, states: seq<System>, labels: seq<Label>, m: nat, n: nat, j: string)
    requires IsRun(cfg, states, labels) && m <= n < |states| && j in states[m].db.jobs
    ensures j in states[n].db.jobs
    ensures Terminal(states[m].db.jobs[j].state) ==> states[n].db.jobs[j] == states[m].db.jobs[j]
    ensures states[n].db.jobs[j].state.Queued? ==> states[m].db.jobs[j].state.Queued?
  {
    RunAdvances(cfg, states, labels, m, n);
    assert JobAdvances(states[m].db.jobs, states[n].db.jobs, j);
  }

  // ---------- what a transition answers ----------

  /**
   The answer tells what happened: a view is the row as it now stands, with the state, result
   and error asked for; a refusal names the first check that failed and nothing has changed.
   */
  lemma TransitionAnswers(db: Db, j: string, target: JobState, result: Option<ResultDoc>, error: Option<JobError>,
                          fence: Option<string>, expected: Option<JobState>, now: DateTime)
    ensures var (db', r) := TransitionJob(db, j, target, result, error, fence, expected, now);
            var held := j in db.jobs && (fence.None? || db.jobs[j].leaseToken == fence)
                        && (expected.None? || db.jobs[j].state == expected.value);
            match r
            case Success(v) =>
              && held && CanMove(db.jobs[j].state, target)
              && v == JobView(j, target, result, error) && j in db'.jobs && v == View(j, db'.jobs[j])
              && db'.log == db.log + [JobMoved(j, target, result, error)]
            case Failure(e) =>
              && db' == db
              && (e.JobNotFound? <==> j !in db.jobs)
              && (e.StaleLease? <==> j in db.jobs && !held)
              && (e.InvalidTransition? <==> held && !CanMove(db.jobs[j].state, target))
  {
  }

  // ---------- idempotent submission ----------

  /** A key belongs to one job for good; a replay finds it, and only a different request is refused. */
  lemma ReplayedSubmission(cfg: Config, states: seq<System>, labels: seq<Label>, m: nat, n: nat, j: string,
                           r: ActionRequest, subject: Subject, found: Option<string>, id: string, now: DateTime)
    requires IsRun(cfg, states, labels) && m <= n < |states| && j in states[m].db.jobs
    requires r.idempotencyKey == states[m].db.jobs[j].key
    requires FoundByKey(states[n].db, r.idempotencyKey, found)
    ensures found == Some(j) && j in states[n].db.jobs
    ensures CreateJob(cfg, states[n].db, found, id, r, subject, now)
         == (states[n].db,
             if cfg.requestDigest(IdentityOf(r)) == states[m].db.jobs[j].digest
             then Success(View(j, states[n].db.jobs[j])) else Failure(KeyReused))
  {
    RunOk(cfg, states, labels, n);
    RunAdvances(cfg, states, labels, m, n);
    assert JobAdvances(states[m].db.jobs, states[n].db.jobs, j);
    if found.Some? { assert KeysDiffer(states[n].db.jobs, found.value, j); }
  }

  // ---------- approvals ----------

  ghost predicate Injective(digest: Authority -> string) {
    forall a, b :: digest(a) == digest(b) ==> a == b
  }

  /**
   Jobs that need a confirmation map one-to-one into consumed confirmations with the same
   digest, subject name, device and control.
   */
  lemma ApprovalsAreConserved(cfg: Config, states: seq<System>, labels: seq<Label>, n: nat)
    requires IsRun(cfg, states, labels) && n < |states|
    ensures forall j | j in states[n].db.jobs && NeedsConfirmation(cfg, states[n].db.jobs[j].request) ::
              && j in states[n].approvedBy
              && Binds(cfg, states[n].db, states[n].approvedBy[j], states[n].db.jobs[j].request, states[n].db.jobs[j].subject)
    ensures forall j, k | j in states[n].approvedBy && k in states[n].approvedBy && j != k ::
              states[n].approvedBy[j] != states[n].approvedBy[k]
  {
    var s := states[n];
    RunOk(cfg, states, labels, n);
    forall j | j in s.db.jobs && NeedsConfirmation(cfg, s.db.jobs[j].request)
      ensures j in s.approvedBy && Binds(cfg, s.db, s.approvedBy[j], s.db.jobs[j].request, s.db.jobs[j].subject)
    {
      assert ApprovedOk(cfg, s.db, s.approvedBy, j);
    }
    forall j, k | j in s.approvedBy && k in s.approvedBy && j != k
      ensures s.approvedBy[j] != s.approvedBy[k]
    {
      assert ApprovalsDiffer(s.approvedBy, j, k);
    }
  }

  /** A confirmation is consumed or cancelled at most once in total, exactly when it is marked used. */
  lemma SpentAtMostOnce(cfg: Config, states: seq<System>, labels: seq<Label>, n: nat, c: string)
    requires IsRun(cfg, states, labels) && n < |states|
    ensures Spendings(states[n].db.log, c)
         == if c in states[n].db.confirmations && states[n].db.confirmations[c].usedAt.Some? then 1 else 0
  {
    RunOk(cfg, states, labels, n);
    assert SpentOk(states[n].db, c);
  }

  // ---------- queries compare instants ----------

  /** The lease sweep takes exactly the held jobs whose lease instant is past. */
  lemma SweepFollowsTheClock(db: Db, now: DateTime, rows: seq<string>, j: string)
    requires SelectsLapsedLeases(db, now, rows)
    ensures j in rows <==>
              && j in db.jobs && (db.jobs[j].state.Running? || db.jobs[j].state.Verifying?)
              && db.jobs[j].leaseExpiresAt.Some? && Before(db.jobs[j].leaseExpiresAt.value, now)
  {
    if j in db.jobs && db.jobs[j].leaseExpiresAt.Some? {
      TextOrderIsTimeOrder(db.jobs[j].leaseExpiresAt.value, now);
    }
  }

  lemma QueueExpiryFollowsTheClock(db: Db, cutoff: DateTime, rows: seq<string>, j: string)
    requires SelectsLapsedQueue(db, cutoff, rows)
    ensures j in rows <==> j in db.jobs && db.jobs[j].state.Queued? && Before(db.jobs[j].createdAt, cutoff)
  {
    if j in db.jobs { TextOrderIsTimeOrder(db.jobs[j].createdAt, cutoff); }
  }

  /** The job a worker claims is a queued one no queued, unleased job is older than. */
  lemma ClaimsTheOldest(db: Db, now: DateTime, j: string, k: string)
    requires NextClaimable(db, now, Some(j)) && k in db.jobs
    requires db.jobs[k].state.Queued? && db.jobs[k].leaseExpiresAt.None?
    ensures db.jobs[j].state.Queued? && Instant(db.jobs[j].createdAt) <= Instant(db.jobs[k].createdAt)
  {
    TextOrderIsTimeOrder(db.jobs[k].createdAt, db.jobs[j].createdAt);
  }

  /**
   A lease granted at `claimed` outlives every sweep whose clock reads no later than the
   action's timeout plus the headroom.
   */
  lemma LeaseCoversTheAction(cfg: Config, db: Db, j: string, worker: string, token: string, until: DateTime,
                             claimed: DateTime, now: DateTime, rows: seq<string>)
    requires j in db.jobs && IsAfter(claimed, LeaseFor(cfg, db.jobs[j].request), until)
    requires SelectsLapsedLeases(ClaimJob(db, j, worker, token, until, claimed), now, rows)
    ensures j in rows <==> Instant(now) > Instant(claimed) + LeaseFor(cfg, db.jobs[j].request) * 1000000
    ensures cfg.validate(db.jobs[j].request).Some? ==>
              LeaseFor(cfg, db.jobs[j].request) == cfg.validate(db.jobs[j].request).value.timeoutSeconds + 15
  {
    SweepFollowsTheClock(ClaimJob(db, j, worker, token, until, claimed), now, rows, j);
  }

  /** A renewal the store grants gives the holder the same cover again, from the renewal on. */
  lemma RenewalCoversTheAction(cfg: Config, db: Db, j: string, token: string, until: DateTime,
                               renewed: DateTime, now: DateTime, rows: seq<string>)
    requires j in db.jobs && IsAfter(renewed, LeaseFor(cfg, db.jobs[j].request), until)
    requires RenewLease(db, j, token, until, renewed).1
    requires SelectsLapsedLeases(RenewLease(db, j, token, until, renewed).0, now, rows)
    ensures db.jobs[j].leaseToken == Some(token)
    ensures j in rows <==> Instant(now) > Instant(renewed) + LeaseFor(cfg, db.jobs[j].request) * 1000000
  {
    SweepFollowsTheClock(RenewLease(db, j, token, until, renewed).0, now, rows, j);
  }

  // ---------- what the multi-row transactions leave behind ----------

  /** One `lease_expired` event per row, in the rows' order. */
  function SweepEvents(rows: seq<string>): seq<Event> {
    seq(|rows|, i requires 0 <= i < |rows| => LeaseExpired(rows[i]))
  }

  lemma {:induction false} SweepLogs(db: Db, rows: seq<string>, now: DateTime)
    requires Distinct(rows) && (forall k | k in rows :: k in db.jobs)
    ensures ExpireLeases(db, rows, now).log == db.log + SweepEvents(rows)
  {
    if rows != [] {
      var front, last := rows[..|rows| - 1], rows[|rows| - 1];
      SweepLogs(db, front, now);
      assert SweepEvents(rows) == SweepEvents(front) + [LeaseExpired(last)];
    }
  }

  /**
   The sweep parks every lapsed job as UNKNOWN_OUTCOME with its lease gone, its result kept and
   an error that asks for a reconciliation, and leaves every other row alone.
   */
  lemma {:induction false} SweepParks(db: Db, rows: seq<string>, now: DateTime, j: string)
    requires Distinct(rows) && (forall k | k in rows :: k in db.jobs) && j in db.jobs
    ensures var after := ExpireLeases(db, rows, now).jobs[j];
            if j in rows then
              after == Unleased(db.jobs[j]).(state := UnknownOutcome, error := Some(LEASE_EXPIRED_ERROR), updatedAt := now)
            else after == db.jobs[j]
    ensures j in rows ==>
              var error := ExpireLeases(db, rows, now).jobs[j].error;
              && error.Some? && error.value.code == "lease_expired" && error.value.reconciliationRequired
              && error.value.retry == ReconcileFirst
    ensures ExpireLeases(db, rows, now).log == db.log + SweepEvents(rows)
  {
    SweepLogs(db, rows, now);
    if rows != [] {
      var front, last := rows[..|rows| - 1], rows[|rows| - 1];
      SweepParks(db, front, now, j);
      if j == last { assert j !in front by { assert forall i | 0 <= i < |front| :: front[i] == rows[i]; } }
      assert j in rows <==> j in front || j == last by { assert rows == front + [last]; }
    }
  }

  /** Queue expiry retires exactly the selected jobs and leaves every other row alone. */
  lemma {:induction false} QueueExpiryRetires(db: Db, rows: seq<string>, now: DateTime, j: string)
    requires Distinct(rows) && (forall k | k in rows :: k in db.jobs) && j in db.jobs
    ensures ExpireStaleQueued(db, rows, now).jobs[j]
         == if j in rows then Unleased(db.jobs[j]).(state := Expired, updatedAt := now) else db.jobs[j]
  {
    if rows != [] {
      var front, last := rows[..|rows| - 1], rows[|rows| - 1];
      QueueExpiryRetires(db, front, now, j);
      if j == last { assert j !in front by { assert forall i | 0 <= i < |front| :: front[i] == rows[i]; } }
      assert j in rows <==> j in front || j == last by { assert rows == front + [last]; }
    }
  }

  predicate Offered(views: seq<JobView>, j: string) {
    exists i :: 0 <= i < |views| && views[i].id == j
  }

  /** A selected job is offered, and its attempt counted, exactly while its budget lasts. */
  lemma {:induction false} BudgetDecidesOffers(db: Db, rows: seq<string>, max: nat, j: string)
    requires Distinct(rows) && (forall k | k in rows :: k in db.jobs) && j in db.jobs
    ensures var (db', views) := ClaimCandidates(db, rows, max);
            && (Offered(views, j) <==> j in rows && db.jobs[j].attempts < max)
            && db'.jobs[j] == db.jobs[j].(attempts := db.jobs[j].attempts + if Offered(views, j) then 1 else 0)
  {
    if rows != [] {
      var front, last := rows[..|rows| - 1], rows[|rows| - 1];
      assert rows == front + [last];
      BudgetDecidesOffers(db, front, max, j);
      BudgetDecidesOffers(db, front, max, last);
      LastIsNew(rows, front, last);
      var (db1, views1) := ClaimCandidates(db, front, max);
      OneMoreOffer(db1, views1, last, max, j);
    }
  }

  /** The selected jobs whose budget lasts, in the query's order. */
  function UnderBudget(db: Db, rows: seq<string>, max: nat): seq<string>
    requires forall j | j in rows :: j in db.jobs
  {
    if rows == [] then []
    else
      var front, last := rows[..|rows| - 1], rows[|rows| - 1];
      UnderBudget(db, front, max) + if db.jobs[last].attempts < max then [last] else []
  }

  predicate ShowsRows(db: Db, views: seq<JobView>, ids: seq<string>) {
    && |views| == |ids|
    && forall i | 0 <= i < |ids| ::
         ids[i] in db.jobs
         && views[i] == JobView(ids[i], db.jobs[ids[i]].state, db.jobs[ids[i]].result, db.jobs[ids[i]].error)
  }

  /** The jobs are offered as their rows stood before the transaction, each once, in the query's order. */
  lemma {:induction false} OffersAsSelected(db: Db, rows: seq<string>, max: nat)
    requires Distinct(rows) && forall k | k in rows :: k in db.jobs
    ensures ShowsRows(db, ClaimCandidates(db, rows, max).1, UnderBudget(db, rows, max))
  {
    if rows != [] {
      var front, last := rows[..|rows| - 1], rows[|rows| - 1];
      assert rows == front + [last];
      LastIsNew(rows, front, last);
      OffersAsSelected(db, front, max);
      BudgetDecidesOffers(db, front, max, last);
    }
  }

  lemma LastIsNew(rows: seq<string>, front: seq<string>, last: string)
    requires rows == front + [last] && Distinct(rows)
    ensures Distinct(front) && last !in front
  {
    forall i | 0 <= i < |front| ensures front[i] != last { assert rows[i] == front[i] && rows[|front|] == last; }
    forall a, b | 0 <= a < b < |front| ensures front[a] != front[b] { assert rows[a] == front[a] && rows[b] == front[b]; }
  }

  lemma OneMoreOffer(db: Db, views: seq<JobView>, last: string, max: nat, j: string)
    requires last in db.jobs && j in db.jobs
    ensures var taken := db.jobs[last].attempts < max;
            var views' := if taken then views + [View(last, db.jobs[last])] else views;
            var db' := if taken then ClaimCandidate(db, last, max) else db;
            && (Offered(views', j) <==> Offered(views, j) || (taken && j == last))
            && db'.jobs[j] == db.jobs[j].(attempts := db.jobs[j].attempts + if taken && j == last then 1 else 0)
  {
    OfferedMore(views, View(last, db.jobs[last]), j);
  }

  lemma OfferedMore(views: seq<JobView>, v: JobView, j: string)
    ensures Offered(views + [v], j) <==> Offered(views, j) || v.id == j
  {
    if Offered(views, j) {
      var i :| 0 <= i < |views| && views[i].id == j;
      assert (views + [v])[i].id == j;
    }
    assert (views + [v])[|views|] == v;
  }
}
