/** Concrete runs that show what the engine does not give. */
module Scenarios {
  import opened Models
  import opened Clock
  import opened JobStore
  import opened Engine
  import opened Evidence
  import opened Endings

  // ---------- reachability ----------

  ghost predicate Reachable(cfg: Config, s: System) {
    exists states, labels :: IsRun(cfg, states, labels) && states[|labels|] == s
  }

  lemma ReachInit(cfg: Config, s: System)
    requires Init(s)
    ensures Reachable(cfg, s)
  {
    NoSteps(cfg, s);
    assert IsRun(cfg, [s], []);
  }

  lemma ReachStep(cfg: Config, s: System, l: Label, s': System)
    requires Reachable(cfg, s) && Step(cfg, s, l, s')
    ensures Reachable(cfg, s')
  {
    var states, labels :| IsRun(cfg, states, labels) && states[|labels|] == s;
    PathThenStep(cfg, states, labels, l, s');
    assert IsRun(cfg, states + [s'], labels + [l]);
  }

  // One lemma per kind of step, so that a scenario only has to show the step's own conditions.

  lemma ReachCrash(cfg: Config, s: System, i: nat, s': System)
    requires Reachable(cfg, s) && i < |s.actors| && s' == Become(s, i, Idle)
    ensures Reachable(cfg, s')
  {
    ReachStep(cfg, s, Crash(i), s');
  }

  lemma ReachClaim(cfg: Config, s: System, i: nat, row: Option<string>, worker: string, token: string,
                   until: DateTime, now: DateTime, s': System)
    requires Reachable(cfg, s) && i < |s.actors| && StepClaim(cfg, s, i, row, worker, token, until, now, s')
    ensures Reachable(cfg, s')
  {
    ReachStep(cfg, s, Claim(i, row, worker, token, until, now), s');
  }

  lemma ReachCallExecute(cfg: Config, s: System, i: nat, s': System)
    requires Reachable(cfg, s) && i < |s.actors| && StepCallExecute(s, i, s')
    ensures Reachable(cfg, s')
  {
    ReachStep(cfg, s, CallExecute(i), s');
  }

  lemma ReachExecuteReplies(cfg: Config, s: System, i: nat, reply: Reply<Execution>, s': System)
    requires Reachable(cfg, s) && i < |s.actors| && StepExecuteReplies(s, i, reply, s')
    ensures Reachable(cfg, s')
  {
    ReachStep(cfg, s, ExecuteReplies(i, reply), s');
  }

  lemma ReachMarkVerifying(cfg: Config, s: System, i: nat, now: DateTime, s': System)
    requires Reachable(cfg, s) && i < |s.actors| && StepMarkVerifying(s, i, now, s')
    ensures Reachable(cfg, s')
  {
    ReachStep(cfg, s, MarkVerifying(i, now), s');
  }

  lemma ReachRenew(cfg: Config, s: System, i: nat, until: DateTime, now: DateTime, s': System)
    requires Reachable(cfg, s) && i < |s.actors| && StepRenew(cfg, s, i, until, now, s')
    ensures Reachable(cfg, s')
  {
    ReachStep(cfg, s, Renew(i, until, now), s');
  }

  lemma ReachObserveReplies(cfg: Config, s: System, i: nat, reply: Reply<Observation>, s': System)
    requires Reachable(cfg, s) && i < |s.actors| && StepObserveReplies(s, i, reply, s')
    ensures Reachable(cfg, s')
  {
    ReachStep(cfg, s, ObserveReplies(i, reply), s');
  }

  lemma ReachVerifyReplies(cfg: Config, s: System, i: nat, reply: Reply<Verification>, s': System)
    requires Reachable(cfg, s) && i < |s.actors| && StepVerifyReplies(s, i, reply, s')
    ensures Reachable(cfg, s')
  {
    ReachStep(cfg, s, VerifyReplies(i, reply), s');
  }

  lemma ReachSettle(cfg: Config, s: System, i: nat, now: DateTime, s': System)
    requires Reachable(cfg, s) && i < |s.actors| && StepSettle(s, i, now, s')
    ensures Reachable(cfg, s')
  {
    ReachStep(cfg, s, Settle(i, now), s');
  }

  lemma ReachSweep(cfg: Config, s: System, i: nat, rows: seq<string>, now: DateTime, s': System)
    requires Reachable(cfg, s) && i < |s.actors| && StepSweep(s, i, rows, now, s')
    ensures Reachable(cfg, s')
  {
    ReachStep(cfg, s, Sweep(i, rows, now), s');
  }

  /** The sweep of these rows, as a step. */
  lemma SweepThem(cfg: Config, s: System, i: nat, rows: seq<string>, now: DateTime) returns (s': System)
    requires Reachable(cfg, s) && i < |s.actors| && s.actors[i].Idle? && SelectsLapsedLeases(s.db, now, rows)
    ensures Reachable(cfg, s') && s'.actors == s.actors[i := Swept] && s'.db == ExpireLeases(s.db, rows, now)
  {
    s' := Become(s, i, Swept).(db := ExpireLeases(s.db, rows, now));
    ReachSweep(cfg, s, i, rows, now, s');
  }

  lemma ReachTakeCandidates(cfg: Config, s: System, i: nat, rows: seq<string>, s': System)
    requires Reachable(cfg, s) && i < |s.actors| && StepTakeCandidates(cfg, s, i, rows, s')
    ensures Reachable(cfg, s')
  {
    ReachStep(cfg, s, TakeCandidates(i, rows), s');
  }

  lemma ReachBeginReconcile(cfg: Config, s: System, i: nat, now: DateTime, s': System)
    requires Reachable(cfg, s) && i < |s.actors| && StepBeginReconcile(s, i, now, s')
    ensures Reachable(cfg, s')
  {
    ReachStep(cfg, s, BeginReconcile(i, now), s');
  }

  lemma ReachReadForCancel(cfg: Config, s: System, i: nat, j: string, subject: Subject, s': System)
    requires Reachable(cfg, s) && i < |s.actors| && StepReadForCancel(s, i, j, subject, s')
    ensures Reachable(cfg, s')
  {
    ReachStep(cfg, s, ReadForCancel(i, j, subject), s');
  }

  lemma ReachCancelReplies(cfg: Config, s: System, i: nat, reply: Reply<Cancellation>, s': System)
    requires Reachable(cfg, s) && i < |s.actors| && StepCancelReplies(s, i, reply, s')
    ensures Reachable(cfg, s')
  {
    ReachStep(cfg, s, CancelReplies(i, reply), s');
  }

  lemma ReachApplyCancel(cfg: Config, s: System, i: nat, now: DateTime, s': System)
    requires Reachable(cfg, s) && i < |s.actors| && StepApplyCancel(s, i, now, s')
    ensures Reachable(cfg, s')
  {
    ReachStep(cfg, s, ApplyCancel(i, now), s');
  }

  // ---------- queries over a table of one job ----------

  lemma OnlyJobIsNext(db: Db, j: string, row: Job, now: DateTime)
    requires db.jobs == map[j := row] && row.state.Queued? && row.leaseExpiresAt.None?
    ensures NextClaimable(db, now, Some(j))
  {
    NotLessThanItself(Iso(row.createdAt));
  }

  lemma OnlyJobLapsed(db: Db, j: string, row: Job, now: DateTime)
    requires db.jobs == map[j := row] && (row.state.Running? || row.state.Verifying?)
    requires row.leaseExpiresAt.Some? && Before(row.leaseExpiresAt.value, now)
    ensures SelectsLapsedLeases(db, now, [j])
  {
    TextOrderIsTimeOrder(row.leaseExpiresAt.value, now);
  }

  lemma OnlyJobUnleased(db: Db, j: string, row: Job, now: DateTime)
    requires db.jobs == map[j := row] && row.leaseExpiresAt.None?
    ensures SelectsLapsedLeases(db, now, [])
  {
  }

  lemma OnlyJobUnknown(db: Db, j: string, row: Job, limit: nat)
    requires db.jobs == map[j := row] && row.state.UnknownOutcome? && limit >= 1
    ensures SelectsUnknown(db, limit, [j])
  {
  }

  /** A transition of the one row that its checks let through. */
  lemma Committed(db: Db, j: string, row: Job, target: JobState, result: Option<ResultDoc>, error: Option<JobError>,
                  fence: Option<string>, now: DateTime)
    requires db.jobs == map[j := row] && (fence.None? || row.leaseToken == fence) && CanMove(row.state, target)
    ensures var (db', r) := TransitionJob(db, j, target, result, error, fence, None, now);
            && r.Success? && db'.jobs == map[j := Moved(row, target, result, error, now)]
            && db'.confirmations == db.confirmations
  {
  }

  // ---------- the cast ----------

  const JOB := "j"
  const REQUEST := ActionRequest("a.b", 1, Target("t", "x"), "{}", RequestContext(None, None, "c", None), "k", false, None, None)
  const OWNER := Subject("o", "d", "c")
  const EXECUTION := Execution(None, "e")
  const TIMED_OUT := JobError("timeout", "m", ReconcileFirst, true, "")
  const SLOW := JobError("timeout", "m", Safe, false, "")
  const REFUSED := JobError("not_found", "m", Never, false, "")
  const SEEN := Observation("up", "")
  const SATISFIED := Verification(true, "")
  const UNCLEAR := Cancellation(CancelUnknown, "")

  /** A start, the end of a 45 second lease taken then, and a time after that. */
  datatype Times = Times(start: DateTime, until: DateTime, later: DateTime)

  predicate InOrder(t: Times) {
    IsAfter(t.start, 45, t.until) && Before(t.until, t.later)
  }

  /** Midnight, 45 seconds past and a minute past, on the first of January. */
  lemma SomeTimes(year: int := 2026) returns (t: Times)
    requires 1 <= year <= 9999
    ensures InOrder(t) && t.start.year == t.until.year == t.later.year == year
  {
    t := Times(Fields(year, 1, 1, 0, 0, 0, 0), Fields(year, 1, 1, 0, 0, 45, 0), Fields(year, 1, 1, 0, 1, 0, 0));
    SameDay(t.start, t.until);
    SameDay(t.until, t.later);
  }

  lemma SameDay(a: DateTime, b: DateTime)
    requires SameDate(a, b)
    ensures Instant(b) - Instant(a) == (SecondOfDay(b) - SecondOfDay(a)) * 1000000 + b.micro - a.micro
  {
  }

  /** The catalog takes the request as a read with a 30 second timeout, and two reconcile attempts are allowed. */
  predicate Accepting(cfg: Config) {
    cfg.validate(REQUEST) == Some(ActionDefinition(false, NoConfirmation, 30)) && cfg.maxAttempts >= 2
  }

  /** The one job is `row`, no confirmation exists, and these are the actors. */
  predicate Scene(s: System, row: Job, actors: seq<Actor>) {
    s.db.jobs == map[JOB := row] && s.db.confirmations == map[] && s.actors == actors
  }

  function QueuedRow(cfg: Config, t: Times): Job {
    NewJob(cfg, REQUEST, OWNER, t.start)
  }

  function ClaimedRow(cfg: Config, t: Times): Job {
    Leased(QueuedRow(cfg, t), "w", "t", t.until, t.start)
  }

  function VerifyingRow(cfg: Config, t: Times): Job {
    Moved(ClaimedRow(cfg, t), Verifying, ExecutionOnly(EXECUTION), None, t.start)
  }

  /** Submitted and queued. */
  lemma Queue(cfg: Config, t: Times) returns (s: System)
    requires Accepting(cfg)
    ensures Reachable(cfg, s) && Scene(s, QueuedRow(cfg, t), [Idle, Idle, Idle])
  {
    var s0 := System(Db(map[], map[], []), [Idle, Idle, Idle], [], map[]);
    ReachInit(cfg, s0);
    var s1 := Become(s0, 0, Authorizing(REQUEST, OWNER, None));
    assert StepSubmit(cfg, s0, 0, REQUEST, OWNER, None, t.start, s1);
    ReachStep(cfg, s0, Submit(0, REQUEST, OWNER, None, t.start), s1);
    s := QueueFrom(cfg, t, s1);
  }

  lemma QueueFrom(cfg: Config, t: Times, s1: System) returns (s: System)
    requires Accepting(cfg) && Reachable(cfg, s1) && s1.db.jobs == map[] && s1.db.confirmations == map[]
    requires s1.actors == [Authorizing(REQUEST, OWNER, None), Idle, Idle]
    ensures Reachable(cfg, s) && Scene(s, QueuedRow(cfg, t), [Idle, Idle, Idle])
  {
    var s2 := Become(s1, 0, Creating(REQUEST, OWNER, None));
    assert StepAuthorize(cfg, s1, 0, s2);
    ReachStep(cfg, s1, Authorize(0), s2);
    s := CreateIt(cfg, t, s2);
  }

  lemma CreateIt(cfg: Config, t: Times, s2: System) returns (s: System)
    requires Reachable(cfg, s2) && s2.db.jobs == map[] && s2.db.confirmations == map[]
    requires s2.actors == [Creating(REQUEST, OWNER, None), Idle, Idle]
    ensures Reachable(cfg, s) && Scene(s, QueuedRow(cfg, t), [Idle, Idle, Idle])
  {
    s := Become(s2, 0, Idle).(db := CreateJob(cfg, s2.db, None, JOB, REQUEST, OWNER, t.start).0);
    assert StepCreate(cfg, s2, 0, JOB, None, t.start, s);
    ReachStep(cfg, s2, Create(0, JOB, None, t.start), s);
  }

  /** Claimed by actor 0. */
  lemma ClaimIt(cfg: Config, t: Times) returns (s: System)
    requires Accepting(cfg) && InOrder(t)
    ensures Reachable(cfg, s) && Scene(s, ClaimedRow(cfg, t), [Claimed(JOB, "t"), Idle, Idle])
  {
    var q := Queue(cfg, t);
    s := Become(q, 0, Claimed(JOB, "t")).(db := ClaimJob(q.db, JOB, "w", "t", t.until, t.start),
                                          history := q.history + [ClaimNote(JOB, "t")]);
    assert LeaseFor(cfg, REQUEST) == 45;
    OnlyJobIsNext(q.db, JOB, QueuedRow(cfg, t), t.start);
    ReachClaim(cfg, q, 0, Some(JOB), "w", "t", t.until, t.start, s);
  }

  /** Actor 0 goes from its claim to a recorded execution while the others keep their places. */
  lemma RecordIt(cfg: Config, t: Times, c: System, second: Actor, third: Actor) returns (s: System)
    requires Reachable(cfg, c) && Scene(c, ClaimedRow(cfg, t), [Claimed(JOB, "t"), second, third])
    ensures Reachable(cfg, s)
    ensures Scene(s, VerifyingRow(cfg, t), [Renewing(JOB, "t", EXECUTION), second, third])
  {
    var s1 := Become(c, 0, Executing(JOB, "t")).(history := c.history + [ExecuteNote(JOB)]);
    ReachCallExecute(cfg, c, 0, s1);
    var s2 := Become(s1, 0, Executed(JOB, "t", EXECUTION));
    ReachExecuteReplies(cfg, s1, 0, Returned(EXECUTION), s2);
    s := Become(s2, 0, Renewing(JOB, "t", EXECUTION)).(
           db := TransitionJob(s2.db, JOB, Verifying, ExecutionOnly(EXECUTION), None, Some("t"), None, t.start).0);
    Committed(s2.db, JOB, ClaimedRow(cfg, t), Verifying, ExecutionOnly(EXECUTION), None, Some("t"), t.start);
    ReachMarkVerifying(cfg, s2, 0, t.start, s);
  }

  /** Observing fails. */
  lemma FailIt(cfg: Config, t: Times, c: System, second: Actor, third: Actor, e: JobError) returns (s: System)
    requires Accepting(cfg) && InOrder(t) && Reachable(cfg, c)
    requires Scene(c, VerifyingRow(cfg, t), [Renewing(JOB, "t", EXECUTION), second, third])
    ensures Reachable(cfg, s) && Scene(s, VerifyingRow(cfg, t), [Failing(JOB, "t", e), second, third])
  {
    var s1 := Become(c, 0, Observing(JOB, "t", EXECUTION)).(db := RenewLease(c.db, JOB, "t", t.until, t.start).0);
    assert LeaseFor(cfg, REQUEST) == 45;
    ReachRenew(cfg, c, 0, t.until, t.start, s1);
    s := Become(s1, 0, Failing(JOB, "t", e));
    ReachObserveReplies(cfg, s1, 0, Raised(e), s);
  }

  // ---------- a job succeeds ----------

  /** Renewed, observed and found in order: actor 0 is about to say so. */
  lemma CheckIt(cfg: Config, t: Times, c: System) returns (s: System)
    requires Accepting(cfg) && InOrder(t) && Reachable(cfg, c)
    requires Scene(c, VerifyingRow(cfg, t), [Renewing(JOB, "t", EXECUTION), Idle, Idle])
    ensures Reachable(cfg, s)
    ensures Scene(s, RenewedRow(cfg, t), [Succeeding(JOB, "t", EXECUTION, SEEN, SATISFIED), Idle, Idle])
  {
    var s1 := Become(c, 0, Observing(JOB, "t", EXECUTION)).(db := RenewLease(c.db, JOB, "t", t.until, t.start).0);
    assert LeaseFor(cfg, REQUEST) == 45;
    ReachRenew(cfg, c, 0, t.until, t.start, s1);
    var s2 := Become(s1, 0, Verify(JOB, "t", EXECUTION, SEEN)).(history := s1.history + [ObserveNote(JOB, SEEN)]);
    ReachObserveReplies(cfg, s1, 0, Returned(SEEN), s2);
    s := Become(s2, 0, Succeeding(JOB, "t", EXECUTION, SEEN, SATISFIED)).(
           history := s2.history + [VerifyNote(JOB, Recorded(EXECUTION), SEEN, SATISFIED)]);
    ReachVerifyReplies(cfg, s2, 0, Returned(SATISFIED), s);
  }

  function RenewedRow(cfg: Config, t: Times): Job {
    VerifyingRow(cfg, t).(leaseExpiresAt := Some(t.until), updatedAt := t.start)
  }

  /** Submit, claim, execute, record, renew, observe, verify, settle: the job ends SUCCEEDED. */
  lemma SuccessIsReachable(cfg: Config) returns (s: System)
    requires Accepting(cfg)
    ensures Reachable(cfg, s) && s.actors == [Idle, Idle, Idle] && JOB in s.db.jobs
    ensures s.db.jobs[JOB].state.Succeeded? && s.db.jobs[JOB].error.None?
    ensures s.db.jobs[JOB].result == Some(ResultDoc(Some(EXECUTION), Some(SEEN), Some(SATISFIED), None))
  {
    var t := SomeTimes();
    var c := ClaimIt(cfg, t);
    var r := RecordIt(cfg, t, c, Idle, Idle);
    var v := CheckIt(cfg, t, r);
    var doc := WithEvidence(EMPTY_RESULT.(execution := Some(EXECUTION)), SEEN, SATISFIED);
    s := Become(v, 0, Idle).(db := TransitionJob(v.db, JOB, Succeeded, Some(doc), None, Some("t"), None, t.start).0);
    Committed(v.db, JOB, RenewedRow(cfg, t), Succeeded, Some(doc), None, Some("t"), t.start);
    ReachSettle(cfg, v, 0, t.start, s);
  }

  // ---------- a job is stranded ----------

  function SweptRow(cfg: Config, t: Times): Job {
    Expiry(ClaimedRow(cfg, t), t.later)
  }

  /** The worker dies after its claim, and a reconciler sweeps and takes the job. */
  lemma AbandonAndTake(cfg: Config, t: Times) returns (s: System)
    requires Accepting(cfg) && InOrder(t)
    ensures Reachable(cfg, s)
    ensures Scene(s, SweptRow(cfg, t).(attempts := 1), [Reconciling([View(JOB, SweptRow(cfg, t))]), Idle, Idle])
  {
    var c := ClaimIt(cfg, t);
    var s1 := Become(c, 0, Idle);
    ReachCrash(cfg, c, 0, s1);
    var s2 := SweepOne(cfg, t, s1);
    s := TakeOne(cfg, s2, 0, SweptRow(cfg, t));
  }

  lemma SweepOne(cfg: Config, t: Times, s1: System) returns (s: System)
    requires InOrder(t) && Reachable(cfg, s1) && Scene(s1, ClaimedRow(cfg, t), [Idle, Idle, Idle])
    ensures Reachable(cfg, s) && Scene(s, SweptRow(cfg, t), [Swept, Idle, Idle])
  {
    ClaimIsHeld(cfg, t);
    s := SweepRow(cfg, s1, ClaimedRow(cfg, t), t.later);
  }

  lemma ClaimIsHeld(cfg: Config, t: Times)
    requires InOrder(t)
    ensures ClaimedRow(cfg, t).state.Running? && ClaimedRow(cfg, t).leaseExpiresAt == Some(t.until)
    ensures Before(t.until, t.later)
  {
  }

  lemma SweepRow(cfg: Config, s1: System, row: Job, now: DateTime) returns (s: System)
    requires Reachable(cfg, s1) && Scene(s1, row, [Idle, Idle, Idle])
    requires row.state.Running? && row.leaseExpiresAt.Some? && Before(row.leaseExpiresAt.value, now)
    ensures Reachable(cfg, s) && Scene(s, Expiry(row, now), [Swept, Idle, Idle])
  {
    OnlyJobLapsed(s1.db, JOB, row, now);
    ExpireOnly(s1.db, JOB, now);
    s := SweepThem(cfg, s1, 0, [JOB], now);
  }

  /** What the sweep leaves of a row. */
  function Expiry(row: Job, now: DateTime): Job {
    Unleased(row).(state := UnknownOutcome, error := Some(LEASE_EXPIRED_ERROR), updatedAt := now)
  }

  lemma ExpireOnly(db: Db, id: string, now: DateTime)
    requires id in db.jobs
    ensures ExpireLeases(db, [id], now).jobs == db.jobs[id := Expiry(db.jobs[id], now)]
    ensures ExpireLeases(db, [id], now).confirmations == db.confirmations
  {
    assert ExpireLeases(db, [], now) == db;
  }

  /** A swept reconciler takes the one unknown job. */
  lemma TakeOne(cfg: Config, c: System, i: nat, row: Job) returns (s: System)
    requires Reachable(cfg, c) && i < |c.actors| && c.actors[i].Swept?
    requires c.db.jobs == map[JOB := row] && c.db.confirmations == map[]
    requires row.state.UnknownOutcome? && row.attempts < cfg.maxAttempts
    ensures Reachable(cfg, s)
    ensures Scene(s, row.(attempts := row.attempts + 1), c.actors[i := Reconciling([View(JOB, row)])])
  {
    OnlyJobUnknown(c.db, JOB, row, RECONCILE_LIMIT);
    TakenOne(c.db, row, cfg.maxAttempts);
    var (db, views) := ClaimCandidates(c.db, [JOB], cfg.maxAttempts);
    s := Become(c, i, Reconciling(views)).(db := db);
    ReachTakeCandidates(cfg, c, i, [JOB], s);
  }

  lemma TakenOne(db: Db, row: Job, max: nat)
    requires db.jobs == map[JOB := row] && row.attempts < max
    ensures var (db', views) := ClaimCandidates(db, [JOB], max);
            && db'.jobs == map[JOB := row.(attempts := row.attempts + 1)] && views == [View(JOB, row)]
            && db'.confirmations == db.confirmations
  {
    assert ClaimCandidates(db, [], max) == (db, []);
  }

  /** The first unfenced write of a reconciler's pass. */
  lemma BeginOne(cfg: Config, c: System, i: nat, row: Job, view: JobView, now: DateTime) returns (s: System)
    requires Reachable(cfg, c) && i < |c.actors| && c.actors[i] == Reconciling([view])
    requires c.db.jobs == map[JOB := row] && c.db.confirmations == map[] && view.id == JOB && row.state.UnknownOutcome?
    ensures Reachable(cfg, s) && StepBeginReconcile(c, i, now, s)
    ensures Scene(s, Moved(row, Verifying, Some(ResultOrEmpty(view.result)), view.error, now),
                  c.actors[i := ReObserving(view, [])])
  {
    s := Become(c, i, ReObserving(view, [])).(
           db := TransitionJob(c.db, JOB, Verifying, Some(ResultOrEmpty(view.result)), view.error, None, None, now).0);
    Committed(c.db, JOB, row, Verifying, Some(ResultOrEmpty(view.result)), view.error, None, now);
    assert [view][1..] == [];
    ReachBeginReconcile(cfg, c, i, now, s);
  }

  /**
   Create, claim, crash, sweep, take, begin, crash: the job is VERIFYING, has no lease, and
   every actor is idle.
   */
  lemma StrandedIsReachable(cfg: Config) returns (s: System)
    requires Accepting(cfg)
    ensures Reachable(cfg, s) && s.actors == [Idle, Idle, Idle]
    ensures JOB in s.db.jobs && s.db.jobs[JOB].state.Verifying? && s.db.jobs[JOB].leaseToken.None?
  {
    var t := SomeTimes();
    var c := AbandonAndTake(cfg, t);
    var s1 := BeginOne(cfg, c, 0, SweptRow(cfg, t).(attempts := 1), View(JOB, SweptRow(cfg, t)), t.later);
    s := Become(s1, 0, Idle);
    ReachCrash(cfg, s1, 0, s);
  }

  // ---------- an execution is erased ----------

  /** The step is enabled in a reachable state that holds the execution, and it is gone afterwards. */
  ghost predicate ErasesReachably(cfg: Config, s: System, l: Label, s': System) {
    Reachable(cfg, s) && Step(cfg, s, l, s') && Holds(s, JOB, EXECUTION) && !Holds(s', JOB, EXECUTION)
  }

  /** By the worker itself, when observing fails after the execution was recorded. */
  lemma WorkerErases(cfg: Config) returns (s: System, l: Label, s': System)
    requires Accepting(cfg)
    ensures ErasesReachably(cfg, s, l, s') && l.Settle? && s.actors[l.i].Failing?
  {
    var t := SomeTimes();
    var c := ClaimIt(cfg, t);
    var r := RecordIt(cfg, t, c, Idle, Idle);
    s := FailIt(cfg, t, r, Idle, Idle, TIMED_OUT);
    l := Settle(0, t.start);
    s' := FailureWrite(cfg, t, s, Idle, Idle);
  }

  lemma FailureWrite(cfg: Config, t: Times, s: System, second: Actor, third: Actor) returns (s': System)
    requires Reachable(cfg, s) && Scene(s, VerifyingRow(cfg, t), [Failing(JOB, "t", TIMED_OUT), second, third])
    ensures Step(cfg, s, Settle(0, t.start), s') && Reachable(cfg, s')
    ensures Scene(s', Moved(VerifyingRow(cfg, t), UnknownOutcome, None, Some(TIMED_OUT), t.start), [Idle, second, third])
  {
    s' := Become(s, 0, Idle).(
            db := TransitionJob(s.db, JOB, UnknownOutcome, None, Some(TIMED_OUT), Some("t"), None, t.start).0);
    Committed(s.db, JOB, VerifyingRow(cfg, t), UnknownOutcome, None, Some(TIMED_OUT), Some("t"), t.start);
    SettleIsStep(cfg, s, 0, t.start, s');
    ReachSettle(cfg, s, 0, t.start, s');
  }

  /**
   A job whose execution was recorded ends FAILED: observing timed out, which needs no
   reconciliation.
   */
  lemma FailsAfterRunning(cfg: Config) returns (s: System, l: Label, s': System)
    requires Accepting(cfg)
    ensures Reachable(cfg, s) && Step(cfg, s, l, s') && Holds(s, JOB, EXECUTION)
    ensures Fails(s, l, JOB) && EndedAt(s'.db.jobs, JOB, Failed)
  {
    var t := SomeTimes();
    var c := ClaimIt(cfg, t);
    var r := RecordIt(cfg, t, c, Idle, Idle);
    s := FailIt(cfg, t, r, Idle, Idle, SLOW);
    l := Settle(0, t.start);
    s' := FailForGood(cfg, t, s);
  }

  lemma FailForGood(cfg: Config, t: Times, s: System) returns (s': System)
    requires Scene(s, VerifyingRow(cfg, t), [Failing(JOB, "t", SLOW), Idle, Idle])
    ensures Step(cfg, s, Settle(0, t.start), s') && EndedAt(s'.db.jobs, JOB, Failed)
  {
    s' := Become(s, 0, Idle).(
            db := TransitionJob(s.db, JOB, Failed, None, Some(SLOW), Some("t"), None, t.start).0);
    Committed(s.db, JOB, VerifyingRow(cfg, t), Failed, None, Some(SLOW), Some("t"), t.start);
    SettleIsStep(cfg, s, 0, t.start, s');
  }

  /** The owner asks to cancel; actor 1 reads the row as it is now. */
  lemma AskToCancel(cfg: Config, c: System, row: Job, first: Actor) returns (s: System)
    requires Reachable(cfg, c) && Scene(c, row, [first, Idle, Idle])
    requires row.subject == OWNER && (row.state.Running? || row.state.Verifying?)
    ensures Reachable(cfg, s) && Scene(s, row, [first, CancelCalling(View(JOB, row)), Idle])
  {
    s := Become(c, 1, CancelCalling(View(JOB, row)));
    ReachReadForCancel(cfg, c, 1, JOB, OWNER, s);
  }

  /** The adapter cannot tell, and actor 1 is about to write what it read. */
  lemma HearUnclear(cfg: Config, c: System, row: Job, first: Actor, view: JobView, third: Actor) returns (s: System)
    requires Reachable(cfg, c) && Scene(c, row, [first, CancelCalling(view), third])
    ensures Reachable(cfg, s) && Scene(s, row, [first, CancelApplying(view, Returned(UNCLEAR)), third])
  {
    s := Become(c, 1, CancelApplying(view, Returned(UNCLEAR))).(
           history := c.history + [CancelNote(view.id, CancelUnknown)]);
    ReachCancelReplies(cfg, c, 1, Returned(UNCLEAR), s);
  }

  /** Its write, from the view, unfenced. */
  lemma WriteUnclear(cfg: Config, s: System, row: Job, first: Actor, view: JobView, third: Actor, now: DateTime)
      returns (s': System)
    requires Reachable(cfg, s) && Scene(s, row, [first, CancelApplying(view, Returned(UNCLEAR)), third])
    requires view.id == JOB && view.state != UnknownOutcome && CanMove(row.state, UnknownOutcome)
    ensures Step(cfg, s, ApplyCancel(1, now), s') && Reachable(cfg, s')
    ensures Scene(s', Moved(row, UnknownOutcome, view.result, Some(CancelUnknownError("")), now), [first, Idle, third])
  {
    s' := Become(s, 1, Idle).(db := CancelWrite(s.db, view, Returned(UNCLEAR), now));
    UnclearWrite(s.db, row, view, now);
    ApplyIsStep(cfg, s, 1, now, s');
    ReachApplyCancel(cfg, s, 1, now, s');
  }

  lemma UnclearWrite(db: Db, row: Job, view: JobView, now: DateTime)
    requires db.jobs == map[JOB := row] && view.id == JOB
    requires view.state != UnknownOutcome && CanMove(row.state, UnknownOutcome)
    ensures var db' := CancelWrite(db, view, Returned(UNCLEAR), now);
            && db'.jobs == map[JOB := Moved(row, UnknownOutcome, view.result, Some(CancelUnknownError("")), now)]
            && db'.confirmations == db.confirmations
  {
  }

  lemma SettleIsStep(cfg: Config, s: System, i: nat, now: DateTime, s': System)
    requires i < |s.actors| && StepSettle(s, i, now, s')
    ensures Step(cfg, s, Settle(i, now), s')
  {
  }

  lemma ApplyIsStep(cfg: Config, s: System, i: nat, now: DateTime, s': System)
    requires i < |s.actors| && StepApplyCancel(s, i, now, s')
    ensures Step(cfg, s, ApplyCancel(i, now), s')
  {
  }

  /** By a canceller that read the job before the worker recorded anything. */
  lemma CancellerErases(cfg: Config) returns (s: System, l: Label, s': System)
    requires Accepting(cfg)
    ensures ErasesReachably(cfg, s, l, s') && l.ApplyCancel?
  {
    var t := SomeTimes();
    var c := ClaimIt(cfg, t);
    var view := View(JOB, ClaimedRow(cfg, t));
    var a := AskToCancel(cfg, c, ClaimedRow(cfg, t), Claimed(JOB, "t"));
    var r := RecordIt(cfg, t, a, CancelCalling(view), Idle);
    s := HearUnclear(cfg, r, VerifyingRow(cfg, t), Renewing(JOB, "t", EXECUTION), view, Idle);
    l := ApplyCancel(1, t.start);
    s' := WriteUnclear(cfg, s, VerifyingRow(cfg, t), Renewing(JOB, "t", EXECUTION), view, Idle, t.start);
  }

  // The reconciler's two writes can erase as well, when a canceller puts an execution back
  // that had been erased before the reconciler took the job.

  /** The row a failed worker leaves, and the view every reconciler takes of it. */
  function FailedRow(cfg: Config, t: Times): Job {
    Moved(VerifyingRow(cfg, t), UnknownOutcome, None, Some(TIMED_OUT), t.start)
  }

  function BlankView(cfg: Config, t: Times): JobView {
    View(JOB, FailedRow(cfg, t))
  }

  /** Actor 1 holds a view with the execution, the worker then fails, and actors 0 and 2 both take the job. */
  lemma TwoReconcilers(cfg: Config, t: Times) returns (s: System)
    requires Accepting(cfg) && InOrder(t)
    ensures Reachable(cfg, s)
    ensures Scene(s, FailedRow(cfg, t).(attempts := 2),
                  [Reconciling([BlankView(cfg, t)]), CancelCalling(View(JOB, VerifyingRow(cfg, t))),
                   Reconciling([BlankView(cfg, t)])])
  {
    var view := View(JOB, VerifyingRow(cfg, t));
    var c := ClaimIt(cfg, t);
    var r := RecordIt(cfg, t, c, Idle, Idle);
    var a := AskToCancel(cfg, r, VerifyingRow(cfg, t), Renewing(JOB, "t", EXECUTION));
    var f := FailIt(cfg, t, a, CancelCalling(view), Idle, TIMED_OUT);
    var w := FailureWrite(cfg, t, f, CancelCalling(view), Idle);
    var b := SweepNothing(cfg, w, 0, FailedRow(cfg, t), t.start);
    var d := TakeOne(cfg, b, 0, FailedRow(cfg, t));
    var e := SweepNothing(cfg, d, 2, FailedRow(cfg, t).(attempts := 1), t.start);
    s := TakeOne(cfg, e, 2, FailedRow(cfg, t).(attempts := 1));
  }

  lemma SweepNothing(cfg: Config, c: System, i: nat, row: Job, now: DateTime) returns (s: System)
    requires Reachable(cfg, c) && i < |c.actors| && c.actors[i].Idle?
    requires c.db.jobs == map[JOB := row] && c.db.confirmations == map[] && row.leaseExpiresAt.None?
    ensures Reachable(cfg, s) && Scene(s, row, c.actors[i := Swept])
  {
    OnlyJobUnleased(c.db, JOB, row, now);
    s := SweepThem(cfg, c, i, [], now);
    assert ExpireLeases(c.db, [], now) == c.db;
  }

  function RevivedRow(cfg: Config, t: Times): Job {
    Moved(Moved(FailedRow(cfg, t).(attempts := 2), Verifying, Some(EMPTY_RESULT), Some(TIMED_OUT), t.start),
          UnknownOutcome, ExecutionOnly(EXECUTION), Some(CancelUnknownError("")), t.start)
  }

  /** Actor 0 begins; actor 1's unclear cancellation then writes the execution back. */
  lemma Revive(cfg: Config, t: Times) returns (s: System)
    requires Accepting(cfg) && InOrder(t)
    ensures Reachable(cfg, s)
    ensures Scene(s, RevivedRow(cfg, t), [ReObserving(BlankView(cfg, t), []), Idle, Reconciling([BlankView(cfg, t)])])
  {
    var view, blank := View(JOB, VerifyingRow(cfg, t)), BlankView(cfg, t);
    var c := TwoReconcilers(cfg, t);
    var b := BeginOne(cfg, c, 0, FailedRow(cfg, t).(attempts := 2), blank, t.start);
    var begun := Moved(FailedRow(cfg, t).(attempts := 2), Verifying, Some(EMPTY_RESULT), Some(TIMED_OUT), t.start);
    assert b.actors == [ReObserving(blank, []), CancelCalling(view), Reconciling([blank])];
    var h := HearUnclear(cfg, b, begun, ReObserving(blank, []), view, Reconciling([blank]));
    s := WriteUnclear(cfg, h, begun, ReObserving(blank, []), view, Reconciling([blank]), t.start);
  }

  /** By a second reconciler that begins from the view it took before. */
  lemma BeginningErases(cfg: Config) returns (s: System, l: Label, s': System)
    requires Accepting(cfg)
    ensures ErasesReachably(cfg, s, l, s') && l.BeginReconcile?
  {
    var t := SomeTimes();
    s := Revive(cfg, t);
    l := BeginReconcile(2, t.start);
    s' := BeginOne(cfg, s, 2, RevivedRow(cfg, t), BlankView(cfg, t), t.start);
  }

  /** By the first reconciler when it settles. */
  lemma SettlingErases(cfg: Config) returns (s: System, l: Label, s': System)
    requires Accepting(cfg)
    ensures ErasesReachably(cfg, s, l, s') && l.Settle? && s.actors[l.i].Settling?
  {
    var t := SomeTimes();
    var r := Revive(cfg, t);
    s := Become(r, 0, Settling(BlankView(cfg, t), Failed, EMPTY_RESULT, Some(REFUSED), []));
    ReachObserveReplies(cfg, r, 0, Raised(REFUSED), s);
    l := Settle(0, t.start);
    s' := SettleRefused(cfg, s, RevivedRow(cfg, t), BlankView(cfg, t), t.start);
  }

  lemma SettleRefused(cfg: Config, s: System, row: Job, view: JobView, now: DateTime) returns (s': System)
    requires |s.actors| > 0 && s.actors[0] == Settling(view, Failed, EMPTY_RESULT, Some(REFUSED), [])
    requires s.db.jobs == map[JOB := row] && view.id == JOB && row.state.UnknownOutcome?
    ensures Step(cfg, s, Settle(0, now), s')
    ensures s'.db.jobs == map[JOB := Moved(row, Failed, Some(EMPTY_RESULT), Some(REFUSED), now)]
  {
    s' := Become(s, 0, Reconciling([])).(
            db := TransitionJob(s.db, JOB, Failed, Some(EMPTY_RESULT), Some(REFUSED), None, None, now).0);
    Committed(s.db, JOB, row, Failed, Some(EMPTY_RESULT), Some(REFUSED), None, now);
    SettleIsStep(cfg, s, 0, now, s');
  }
}
