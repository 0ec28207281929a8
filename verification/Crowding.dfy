/** A concrete run after which a job within its budget is crowded out for good. */
module Crowding {
  import opened Models
  import opened Clock
  import opened JobStore
  import opened Engine
  import opened EngineTheorems
  import opened Parked
  import opened Scenarios
  import Offering

  // ---------- one more abandoned job ----------

  function Keyed(key: string): ActionRequest {
    REQUEST.(idempotencyKey := key)
  }

  /** The catalog takes the request under any key, as a read with a 30 second timeout. */
  ghost predicate AcceptingAll(cfg: Config) {
    forall key :: cfg.validate(Keyed(key)) == Some(ActionDefinition(false, NoConfirmation, 30))
  }

  /** Every job is UNKNOWN_OUTCOME without a lease and filed under its own key. */
  predicate Quiet(jobs: map<string, Job>) {
    forall k | k in jobs :: jobs[k].state.UnknownOutcome? && jobs[k].leaseToken.None? && jobs[k].leaseExpiresAt.None? && jobs[k].key == k
  }

  /** One actor, no confirmations, and these jobs. */
  predicate Stage(s: System, jobs: map<string, Job>, a: Actor) {
    s.db.jobs == jobs && s.db.confirmations == map[] && s.actors == [a]
  }

  function NewRow(cfg: Config, t: Times, id: string): Job {
    NewJob(cfg, Keyed(id), OWNER, t.start)
  }

  function HeldRow(cfg: Config, t: Times, id: string): Job {
    Leased(NewRow(cfg, t, id), "w", "t", t.until, t.start)
  }

  function AbandonedRow(cfg: Config, t: Times, id: string): Job {
    Expiry(HeldRow(cfg, t, id), t.later)
  }

  lemma SubmitOne(cfg: Config, t: Times, s: System, jobs: map<string, Job>, id: string) returns (s': System)
    requires AcceptingAll(cfg) && Reachable(cfg, s) && Stage(s, jobs, Idle)
    ensures Reachable(cfg, s') && Stage(s', jobs, Authorizing(Keyed(id), OWNER, None))
  {
    s' := Become(s, 0, Authorizing(Keyed(id), OWNER, None));
    assert cfg.validate(Keyed(id)).Some?;
    assert StepSubmit(cfg, s, 0, Keyed(id), OWNER, None, t.start, s');
    ReachStep(cfg, s, Submit(0, Keyed(id), OWNER, None, t.start), s');
  }

  lemma AuthorizeOne(cfg: Config, s: System, jobs: map<string, Job>, id: string) returns (s': System)
    requires AcceptingAll(cfg) && Reachable(cfg, s) && Stage(s, jobs, Authorizing(Keyed(id), OWNER, None))
    ensures Reachable(cfg, s') && Stage(s', jobs, Creating(Keyed(id), OWNER, None))
  {
    s' := Become(s, 0, Creating(Keyed(id), OWNER, None));
    assert cfg.validate(Keyed(id)) == Some(ActionDefinition(false, NoConfirmation, 30));
    assert StepAuthorize(cfg, s, 0, s');
    ReachStep(cfg, s, Authorize(0), s');
  }

  lemma CreateOne(cfg: Config, t: Times, s: System, jobs: map<string, Job>, id: string) returns (s': System)
    requires Reachable(cfg, s) && Stage(s, jobs, Creating(Keyed(id), OWNER, None)) && Quiet(jobs) && id !in jobs
    ensures Reachable(cfg, s') && Stage(s', jobs[id := NewRow(cfg, t, id)], Idle)
  {
    s' := Become(s, 0, Idle).(db := CreateJob(cfg, s.db, None, id, Keyed(id), OWNER, t.start).0);
    assert StepCreate(cfg, s, 0, id, None, t.start, s');
    ReachStep(cfg, s, Create(0, id, None, t.start), s');
  }

  lemma OnlyNewIsNext(db: Db, jobs: map<string, Job>, id: string, row: Job, now: DateTime)
    requires Quiet(jobs) && db.jobs == jobs[id := row] && row.state.Queued? && row.leaseExpiresAt.None?
    ensures NextClaimable(db, now, Some(id))
  {
    NotLessThanItself(Iso(row.createdAt));
  }

  lemma ClaimOne(cfg: Config, t: Times, s: System, jobs: map<string, Job>, id: string) returns (s': System)
    requires AcceptingAll(cfg) && InOrder(t) && Reachable(cfg, s) && Quiet(jobs)
    requires Stage(s, jobs[id := NewRow(cfg, t, id)], Idle)
    ensures Reachable(cfg, s') && Stage(s', jobs[id := HeldRow(cfg, t, id)], Claimed(id, "t"))
  {
    s' := Become(s, 0, Claimed(id, "t")).(db := ClaimJob(s.db, id, "w", "t", t.until, t.start),
                                          history := s.history + [ClaimNote(id, "t")]);
    assert LeaseFor(cfg, Keyed(id)) == 45;
    OnlyNewIsNext(s.db, jobs, id, NewRow(cfg, t, id), t.start);
    ReachClaim(cfg, s, 0, Some(id), "w", "t", t.until, t.start, s');
  }

  lemma OnlyHeldLapsed(db: Db, jobs: map<string, Job>, id: string, row: Job, now: DateTime)
    requires Quiet(jobs) && db.jobs == jobs[id := row] && row.state.Running?
    requires row.leaseExpiresAt.Some? && Before(row.leaseExpiresAt.value, now)
    ensures SelectsLapsedLeases(db, now, [id])
  {
    TextOrderIsTimeOrder(row.leaseExpiresAt.value, now);
  }

  lemma Overwritten(jobs: map<string, Job>, id: string, row: Job, row': Job)
    ensures jobs[id := row][id := row'] == jobs[id := row']
  {
  }

  lemma HeldIsHeld(cfg: Config, t: Times, id: string)
    requires InOrder(t)
    ensures var row := HeldRow(cfg, t, id);
            row.state.Running? && row.leaseExpiresAt.Some? && Before(row.leaseExpiresAt.value, t.later)
  {
  }

  lemma SweepHeld(cfg: Config, t: Times, s: System, jobs: map<string, Job>, id: string) returns (s': System)
    requires InOrder(t) && Reachable(cfg, s) && Quiet(jobs) && Stage(s, jobs[id := HeldRow(cfg, t, id)], Idle)
    ensures Reachable(cfg, s') && Stage(s', jobs[id := AbandonedRow(cfg, t, id)], Swept)
  {
    HeldIsHeld(cfg, t, id);
    s' := SweepRow(cfg, s, jobs, id, HeldRow(cfg, t, id), t.later);
  }

  lemma SweepRow(cfg: Config, s: System, jobs: map<string, Job>, id: string, row: Job, now: DateTime)
      returns (s': System)
    requires Reachable(cfg, s) && Quiet(jobs) && Stage(s, jobs[id := row], Idle)
    requires row.state.Running? && row.leaseExpiresAt.Some? && Before(row.leaseExpiresAt.value, now)
    ensures Reachable(cfg, s') && Stage(s', jobs[id := Expiry(row, now)], Swept)
  {
    OnlyHeldLapsed(s.db, jobs, id, row, now);
    ExpireOnly(s.db, id, now);
    Overwritten(jobs, id, row, Expiry(row, now));
    s' := SweepThem(cfg, s, 0, [id], now);
  }

  lemma CrashOne(cfg: Config, s: System, jobs: map<string, Job>, a: Actor) returns (s': System)
    requires Reachable(cfg, s) && Stage(s, jobs, a)
    ensures Reachable(cfg, s') && Stage(s', jobs, Idle)
  {
    s' := Become(s, 0, Idle);
    ReachCrash(cfg, s, 0, s');
  }

  /** Submitted, claimed by a worker that dies, and swept. */
  lemma AbandonOne(cfg: Config, t: Times, s: System, jobs: map<string, Job>, id: string) returns (s': System)
    requires AcceptingAll(cfg) && InOrder(t) && Reachable(cfg, s) && Stage(s, jobs, Idle) && Quiet(jobs) && id !in jobs
    ensures Reachable(cfg, s') && Stage(s', jobs[id := AbandonedRow(cfg, t, id)], Idle)
  {
    var s1 := SubmitOne(cfg, t, s, jobs, id);
    var s2 := AuthorizeOne(cfg, s1, jobs, id);
    var s3 := CreateOne(cfg, t, s2, jobs, id);
    var s4 := ClaimOne(cfg, t, s3, jobs, id);
    var s5 := CrashOne(cfg, s4, jobs[id := HeldRow(cfg, t, id)], Claimed(id, "t"));
    var s6 := SweepHeld(cfg, t, s5, jobs, id);
    s' := CrashOne(cfg, s6, jobs[id := AbandonedRow(cfg, t, id)], Swept);
  }

  // ---------- a hundred of them ----------

  function Name(n: nat): (id: string)
    ensures |id| == n
  {
    if n == 0 then "" else Name(n - 1) + "x"
  }

  predicate Named(k: string, n: nat) {
    |k| < n && k == Name(|k|)
  }

  predicate FilledAt(cfg: Config, t: Times, jobs: map<string, Job>, n: nat, a: nat, k: string) {
    if Named(k, n) then k in jobs && jobs[k] == AbandonedRow(cfg, t, k).(attempts := a) else k !in jobs
  }

  /** The jobs are the first `n` names, each abandoned at `t` and reconciled `a` times in vain. */
  ghost predicate Filled(cfg: Config, t: Times, jobs: map<string, Job>, n: nat, a: nat) {
    forall k: string :: FilledAt(cfg, t, jobs, n, a, k)
  }

  lemma FilledIsQuiet(cfg: Config, t: Times, jobs: map<string, Job>, n: nat, a: nat)
    requires Filled(cfg, t, jobs, n, a)
    ensures Quiet(jobs)
  {
    forall k | k in jobs
      ensures jobs[k].state.UnknownOutcome? && jobs[k].leaseToken.None? && jobs[k].leaseExpiresAt.None? && jobs[k].key == k
    {
      assert FilledAt(cfg, t, jobs, n, a, k);
    }
  }

  predicate InNames(ids: set<string>, n: nat, k: string) {
    k in ids <==> Named(k, n)
  }

  lemma {:induction false} NamesAreCounted(ids: set<string>, n: nat)
    requires forall k: string :: InNames(ids, n, k)
    ensures |ids| == n
  {
    if n == 0 {
      forall k ensures k !in ids { assert InNames(ids, n, k); }
    } else {
      assert InNames(ids, n, Name(n - 1));
      var others, m := ids - {Name(n - 1)}, n - 1;
      forall k: string ensures InNames(others, m, k) { assert InNames(ids, n, k); }
      NamesAreCounted(others, m);
    }
  }

  lemma FilledIsCounted(cfg: Config, t: Times, jobs: map<string, Job>, n: nat, a: nat)
    requires Filled(cfg, t, jobs, n, a)
    ensures |jobs.Keys| == n
  {
    forall k: string ensures InNames(jobs.Keys, n, k) { assert FilledAt(cfg, t, jobs, n, a, k); }
    NamesAreCounted(jobs.Keys, n);
  }

  lemma NothingYet(cfg: Config, t: Times) returns (s: System)
    ensures Reachable(cfg, s) && Stage(s, map[], Idle) && Filled(cfg, t, map[], 0, 0)
  {
    s := System(Db(map[], map[], []), [Idle], [], map[]);
    ReachInit(cfg, s);
  }

  lemma {:induction false} Fill(cfg: Config, t: Times, n: nat) returns (s: System, jobs: map<string, Job>)
    requires AcceptingAll(cfg) && InOrder(t)
    ensures Reachable(cfg, s) && Stage(s, jobs, Idle) && Filled(cfg, t, jobs, n, 0)
  {
    if n == 0 {
      s := NothingYet(cfg, t);
      jobs := map[];
    } else {
      s, jobs := Fill(cfg, t, n - 1);
      s, jobs := FillOne(cfg, t, s, jobs, n - 1);
    }
  }

  lemma FillOne(cfg: Config, t: Times, s: System, jobs: map<string, Job>, n: nat)
      returns (s': System, jobs': map<string, Job>)
    requires AcceptingAll(cfg) && InOrder(t) && Reachable(cfg, s) && Stage(s, jobs, Idle) && Filled(cfg, t, jobs, n, 0)
    ensures Reachable(cfg, s') && Stage(s', jobs', Idle) && Filled(cfg, t, jobs', n + 1, 0)
  {
    FilledIsQuiet(cfg, t, jobs, n, 0);
    FilledMore(cfg, t, jobs, n);
    s' := AbandonOne(cfg, t, s, jobs, Name(n));
    jobs' := jobs[Name(n) := AbandonedRow(cfg, t, Name(n))];
  }

  lemma FilledMore(cfg: Config, t: Times, jobs: map<string, Job>, n: nat)
    requires Filled(cfg, t, jobs, n, 0)
    ensures Name(n) !in jobs
    ensures Filled(cfg, t, jobs[Name(n) := AbandonedRow(cfg, t, Name(n))], n + 1, 0)
  {
    var row, m := AbandonedRow(cfg, t, Name(n)), n + 1;
    var jobs' := jobs[Name(n) := row];
    assert row.attempts == 0;
    assert FilledAt(cfg, t, jobs, n, 0, Name(n));
    forall k: string ensures FilledAt(cfg, t, jobs', m, 0, k) { assert FilledAt(cfg, t, jobs, n, 0, k); }
  }

  // ---------- passes that die after taking them ----------

  lemma NoneLapsed(db: Db, now: DateTime)
    requires Quiet(db.jobs)
    ensures SelectsLapsedLeases(db, now, [])
  {
  }

  lemma SweepNone(cfg: Config, t: Times, s: System, jobs: map<string, Job>) returns (s': System)
    requires Reachable(cfg, s) && Stage(s, jobs, Idle) && Quiet(jobs)
    ensures Reachable(cfg, s') && Stage(s', jobs, Swept)
  {
    NoneLapsed(s.db, t.start);
    s' := SweepThem(cfg, s, 0, [], t.start);
    assert ExpireLeases(s.db, [], t.start) == s.db;
  }

  /** All the rows, when there are no more than the limit. */
  lemma SelectAll(db: Db, limit: nat) returns (rows: seq<string>)
    requires Quiet(db.jobs) && |db.jobs.Keys| <= limit
    ensures SelectsUnknown(db, limit, rows) && forall k :: k in rows <==> k in db.jobs
  {
    rows := RankAll(db, "");
    assert Members(rows) == db.jobs.Keys;
    MembersAreFew(rows);
    FrontIsSelected(db, "", rows, limit);
    assert Front(rows, limit) == rows;
    SelectionByInstant(db, limit, rows);
  }

  lemma {:induction false} TakingKeepsConfirmations(db: Db, rows: seq<string>, max: nat)
    requires forall k | k in rows :: k in db.jobs
    ensures ClaimCandidates(db, rows, max).0.confirmations == db.confirmations
  {
    if rows != [] { TakingKeepsConfirmations(db, rows[..|rows| - 1], max); }
  }

  lemma TakeThem(cfg: Config, s: System, jobs: map<string, Job>, rows: seq<string>) returns (s': System)
    requires Reachable(cfg, s) && Stage(s, jobs, Swept) && SelectsUnknown(s.db, RECONCILE_LIMIT, rows)
    ensures Reachable(cfg, s') && |s'.actors| == 1 && s'.db.confirmations == map[]
    ensures s'.db.jobs == ClaimCandidates(s.db, rows, cfg.maxAttempts).0.jobs
  {
    s' := Taken(cfg, s, 0, rows);
    TakenIsTake(cfg, s, 0, rows);
    ReachTakeCandidates(cfg, s, 0, rows, s');
    TakingKeepsConfirmations(s.db, rows, cfg.maxAttempts);
  }

  /** A pass takes them all and dies: every attempt is counted. */
  lemma TakeAll(cfg: Config, t: Times, s: System, jobs: map<string, Job>, n: nat, a: nat)
      returns (s': System, jobs': map<string, Job>)
    requires Reachable(cfg, s) && Stage(s, jobs, Idle) && Filled(cfg, t, jobs, n, a)
    requires n <= RECONCILE_LIMIT && a < cfg.maxAttempts
    ensures Reachable(cfg, s') && Stage(s', jobs', Idle) && Filled(cfg, t, jobs', n, a + 1)
  {
    FilledIsQuiet(cfg, t, jobs, n, a);
    FilledIsCounted(cfg, t, jobs, n, a);
    var s1 := SweepNone(cfg, t, s, jobs);
    var rows := SelectAll(s1.db, RECONCILE_LIMIT);
    var s2 := TakeThem(cfg, s1, jobs, rows);
    jobs' := s2.db.jobs;
    AllCounted(cfg, t, s1.db, rows, n, a);
    s' := CrashOne(cfg, s2, jobs', s2.actors[0]);
  }

  lemma AllCounted(cfg: Config, t: Times, db: Db, rows: seq<string>, n: nat, a: nat)
    requires Filled(cfg, t, db.jobs, n, a) && Distinct(rows) && (forall k :: k in rows <==> k in db.jobs)
    requires a < cfg.maxAttempts
    ensures Filled(cfg, t, ClaimCandidates(db, rows, cfg.maxAttempts).0.jobs, n, a + 1)
  {
    var jobs', b := ClaimCandidates(db, rows, cfg.maxAttempts).0.jobs, a + 1;
    forall k: string ensures FilledAt(cfg, t, jobs', n, b, k) {
      assert FilledAt(cfg, t, db.jobs, n, a, k);
      if k in db.jobs { BudgetDecidesOffers(db, rows, cfg.maxAttempts, k); }
    }
  }

  lemma {:induction false} Exhaust(cfg: Config, t: Times, n: nat, a: nat) returns (s: System, jobs: map<string, Job>)
    requires AcceptingAll(cfg) && InOrder(t) && n <= RECONCILE_LIMIT && a <= cfg.maxAttempts
    ensures Reachable(cfg, s) && Stage(s, jobs, Idle) && Filled(cfg, t, jobs, n, a)
  {
    if a == 0 {
      s, jobs := Fill(cfg, t, n);
    } else {
      var s1, jobs1 := Exhaust(cfg, t, n, a - 1);
      s, jobs := TakeAll(cfg, t, s1, jobs1, n, a - 1);
    }
  }

  // ---------- and one behind them ----------

  lemma YearsApart(a: DateTime, b: DateTime)
    requires a.year < b.year
    ensures Instant(a) < Instant(b)
  {
    EarlierFieldsAreEarlier(a, b);
  }

  lemma SpentInCrowd(cfg: Config, t: Times, s: System, jobs: map<string, Job>, n: nat, k: string)
    requires s.actors == [Idle] && Filled(cfg, t, jobs, n, cfg.maxAttempts) && k in jobs
    requires k in s.db.jobs && s.db.jobs[k] == jobs[k]
    ensures Spent(cfg, s, k) && Age(s.db, k) == Instant(t.later)
  {
    assert FilledAt(cfg, t, jobs, n, cfg.maxAttempts, k);
  }

  lemma WaitsBehind(cfg: Config, t: Times, t2: Times, s: System, jobs: map<string, Job>, j: string)
    requires s.actors == [Idle] && Filled(cfg, t, jobs, RECONCILE_LIMIT, cfg.maxAttempts) && j !in jobs
    requires s.db.jobs == jobs[j := AbandonedRow(cfg, t2, j)] && Instant(t.later) < Instant(t2.later)
    ensures |jobs.Keys| == RECONCILE_LIMIT && Waiting(cfg, s, jobs.Keys, j)
  {
    FilledIsCounted(cfg, t, jobs, RECONCILE_LIMIT, cfg.maxAttempts);
    forall k | k in jobs ensures Spent(cfg, s, k) && Age(s.db, k) < Age(s.db, j) {
      SpentInCrowd(cfg, t, s, jobs, RECONCILE_LIMIT, k);
    }
  }

  lemma WaitsForGood(cfg: Config, s: System, front: set<string>, j: string)
    requires Reachable(cfg, s) && Waiting(cfg, s, front, j)
    ensures !Offering.CanBeOffered(cfg, s, j)
  {
    var states, labels :| IsRun(cfg, states, labels) && states[|labels|] == s;
    RunOk(cfg, states, labels, |labels|);
    Offering.WaitingCannotBeOffered(cfg, s, front, j);
  }

  /**
   A hundred jobs are abandoned and their budgets spent; one more is abandoned later. It has
   never been offered, nobody has any of them in hand, and without a request to cancel no later
   pass offers it.
   */
  lemma CrowdedOutIsReachable(cfg: Config) returns (s: System, front: set<string>, j: string)
    requires AcceptingAll(cfg) && cfg.maxAttempts >= 1
    ensures Reachable(cfg, s) && s.actors == [Idle] && |front| == RECONCILE_LIMIT
    ensures Waiting(cfg, s, front, j) && s.db.jobs[j].attempts < cfg.maxAttempts
    ensures !Offering.CanBeOffered(cfg, s, j)
  {
    var t := SomeTimes(2026);
    var t2 := SomeTimes(2027);
    YearsApart(t.later, t2.later);
    var s1, jobs := Exhaust(cfg, t, RECONCILE_LIMIT, cfg.maxAttempts);
    FilledIsQuiet(cfg, t, jobs, RECONCILE_LIMIT, cfg.maxAttempts);
    front, j := jobs.Keys, Name(RECONCILE_LIMIT);
    assert FilledAt(cfg, t, jobs, RECONCILE_LIMIT, cfg.maxAttempts, j);
    s := AbandonOne(cfg, t2, s1, jobs, j);
    WaitsBehind(cfg, t, t2, s, jobs, j);
    WaitsForGood(cfg, s, front, j);
  }
}
