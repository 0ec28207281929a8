/** Exactly which UNKNOWN_OUTCOME jobs some later pass may still offer while nobody asks to cancel anything. */
module Offering {
  import opened Models
  import opened Clock
  import opened JobStore
  import opened Engine
  import opened EngineInvariant
  import opened EngineTheorems
  import opened Attendance
  import opened Parked
  import opened Stranded

  // ---------- continuations without a request to cancel ----------

  ghost predicate QuietPath(cfg: Config, s: System, states: seq<System>, labels: seq<Label>, t: System) {
    && IsPath(cfg, states, labels) && states[0] == s && states[|labels|] == t
    && forall q | 0 <= q < |labels| :: !labels[q].ReadForCancel?
  }

  ghost predicate Quietly(cfg: Config, s: System, t: System) {
    exists states, labels :: QuietPath(cfg, s, states, labels, t)
  }

  lemma QuietNow(cfg: Config, s: System)
    ensures Quietly(cfg, s, s)
  {
    NoSteps(cfg, s);
    assert QuietPath(cfg, s, [s], [], s);
  }

  lemma QuietThen(cfg: Config, s: System, t: System, l: Label, t': System)
    requires Quietly(cfg, s, t) && Step(cfg, t, l, t') && !l.ReadForCancel?
    ensures Quietly(cfg, s, t')
  {
    var states, labels :| QuietPath(cfg, s, states, labels, t);
    PathThenStep(cfg, states, labels, l, t');
    QuietLonger(cfg, s, states, labels, t, l, t');
  }

  lemma QuietLonger(cfg: Config, s: System, states: seq<System>, labels: seq<Label>, t: System, l: Label, t': System)
    requires QuietPath(cfg, s, states, labels, t) && IsPath(cfg, states + [t'], labels + [l]) && !l.ReadForCancel?
    ensures QuietPath(cfg, s, states + [t'], labels + [l], t')
  {
  }

  /** Some continuation in which nobody asks to cancel anything ends with a pass that offers `j`. */
  ghost predicate CanBeOffered(cfg: Config, s: System, j: string) {
    exists t, i, rows, t' :: Quietly(cfg, s, t) && PassOffers(cfg, t, i, rows, t', j)
  }

  /** The older jobs that stand in the way for good. */
  function SpentOlder(cfg: Config, db: Db, j: string): set<string>
    requires j in db.jobs
  {
    set k | k in db.jobs && db.jobs[k].state.UnknownOutcome? && Age(db, k) < Age(db, j)
            && db.jobs[k].attempts >= cfg.maxAttempts
  }

  // ---------- not beyond these bounds ----------

  lemma SpentIsNotOffered(cfg: Config, s: System, states: seq<System>, labels: seq<Label>, t: System, i: nat,
                          rows: seq<string>, t': System, j: string)
    requires EngineOk(cfg, s) && Spent(cfg, s, j) && QuietPath(cfg, s, states, labels, t)
    ensures !PassOffers(cfg, t, i, rows, t', j)
  {
    PathSpent(cfg, states, labels, 0, |labels|, j);
    if PassOffers(cfg, t, i, rows, t', j) { TakingOffers(cfg, t, i, rows, t', j); }
  }

  lemma WaitingIsNotOffered(cfg: Config, s: System, states: seq<System>, labels: seq<Label>, t: System, i: nat,
                            rows: seq<string>, t': System, front: set<string>, j: string)
    requires EngineOk(cfg, s) && Waiting(cfg, s, front, j) && QuietPath(cfg, s, states, labels, t)
    ensures !PassOffers(cfg, t, i, rows, t', j)
  {
    PathWaiting(cfg, states, labels, 0, |labels|, front, j);
    if PassOffers(cfg, t, i, rows, t', j) {
      CrowdBlocks(cfg, t, TakeCandidates(i, rows), t', front, j);
      TakingOffers(cfg, t, i, rows, t', j);
    }
  }

  lemma WaitingCannotBeOffered(cfg: Config, s: System, front: set<string>, j: string)
    requires EngineOk(cfg, s) && Waiting(cfg, s, front, j)
    ensures !CanBeOffered(cfg, s, j)
  {
    if CanBeOffered(cfg, s, j) {
      var t, i, rows, t' :| Quietly(cfg, s, t) && PassOffers(cfg, t, i, rows, t', j);
      var states, labels :| QuietPath(cfg, s, states, labels, t);
      WaitingIsNotOffered(cfg, s, states, labels, t, i, rows, t', front, j);
    }
  }

  lemma OfferedHasBounds(cfg: Config, s: System, j: string)
    requires EngineOk(cfg, s) && UnknownAt(s.db, j) && Unattended(s, j)
    requires forall k | k in SpentOlder(cfg, s.db, j) :: Unattended(s, k)
    requires CanBeOffered(cfg, s, j)
    ensures s.db.jobs[j].attempts < cfg.maxAttempts && |SpentOlder(cfg, s.db, j)| < RECONCILE_LIMIT
  {
    var t, i, rows, t' :| Quietly(cfg, s, t) && PassOffers(cfg, t, i, rows, t', j);
    var states, labels :| QuietPath(cfg, s, states, labels, t);
    if s.db.jobs[j].attempts >= cfg.maxAttempts {
      SpentIsNotOffered(cfg, s, states, labels, t, i, rows, t', j);
    } else if |SpentOlder(cfg, s.db, j)| >= RECONCILE_LIMIT {
      WaitingIsNotOffered(cfg, s, states, labels, t, i, rows, t', SpentOlder(cfg, s.db, j), j);
    }
  }

  // ---------- within them ----------

  /** At the first instant of the calendar no lease has lapsed. */
  lemma NothingHasLapsed(db: Db)
    ensures SelectsLapsedLeases(db, SOME_TIME, [])
  {
    forall k | k in db.jobs ensures !LeaseLapsed(db.jobs[k], SOME_TIME) {
      if db.jobs[k].leaseExpiresAt.Some? { NothingIsBefore(db.jobs[k].leaseExpiresAt.value); }
    }
  }

  lemma NothingIsBefore(t: DateTime)
    ensures !TextBefore(t, SOME_TIME)
  {
    TextOrderIsTimeOrder(t, SOME_TIME);
    FieldOrderIsTimeOrder(t, SOME_TIME);
  }

  /** Actor 0 sweeps and finds nothing to expire. */
  lemma SweepFirst(cfg: Config, s: System, u: System) returns (w: System)
    requires Quietly(cfg, s, u) && |u.actors| > 0 && u.actors[0].Idle?
    ensures Quietly(cfg, s, w) && w.db == u.db && |w.actors| > 0 && w.actors[0].Swept?
  {
    w := Become(u, 0, Swept);
    NothingHasLapsed(u.db);
    assert ExpireLeases(u.db, [], SOME_TIME) == u.db;
    SweepIsStep(cfg, u, 0, [], SOME_TIME, w);
    QuietThen(cfg, s, u, Sweep(0, [], SOME_TIME), w);
  }

  lemma SweepIsStep(cfg: Config, s: System, i: nat, rows: seq<string>, now: DateTime, s': System)
    requires i < |s.actors| && StepSweep(s, i, rows, now, s')
    ensures Step(cfg, s, Sweep(i, rows, now), s')
  {
  }

  const REFUSAL := JobError("not_found", "m", Never, false, "")

  /** A job whose adapter refuses for good is FAILED. */
  function Refused(row: Job, view: JobView): Job {
    Moved(Begun(row, view), Failed, Some(ResultOrEmpty(view.result)), Some(REFUSAL), SOME_TIME)
  }

  lemma BeginIsStep(cfg: Config, t: System, view: JobView, todo: seq<JobView>, t': System)
    requires |t.actors| > 0 && t.actors[0] == Reconciling([view] + todo) && UnknownAt(t.db, view.id)
    requires t' == Become(t, 0, ReObserving(view, todo)).(
                     db := TransitionJob(t.db, view.id, Verifying, Some(ResultOrEmpty(view.result)), view.error,
                                         None, None, SOME_TIME).0)
    ensures Step(cfg, t, BeginReconcile(0, SOME_TIME), t')
  {
    assert ([view] + todo)[1..] == todo;
  }

  lemma RefusalIsStep(cfg: Config, t: System, view: JobView, todo: seq<JobView>, t': System)
    requires |t.actors| > 0 && t.actors[0] == ReObserving(view, todo)
    requires t' == Become(t, 0, Settling(view, Failed, ResultOrEmpty(view.result), Some(REFUSAL), todo))
    ensures Step(cfg, t, ObserveReplies(0, Raised(REFUSAL)), t')
  {
  }

  lemma SettleIsStep(cfg: Config, t: System, view: JobView, result: ResultDoc, todo: seq<JobView>, t': System)
    requires |t.actors| > 0 && t.actors[0] == Settling(view, Failed, result, Some(REFUSAL), todo)
    requires view.id in t.db.jobs && t.db.jobs[view.id].state.Verifying?
    requires t' == Become(t, 0, Reconciling(todo)).(
                     db := TransitionJob(t.db, view.id, Failed, Some(result), Some(REFUSAL), None, None, SOME_TIME).0)
    ensures Step(cfg, t, Settle(0, SOME_TIME), t')
  {
  }

  function Begun(row: Job, view: JobView): Job {
    Moved(row, Verifying, Some(ResultOrEmpty(view.result)), view.error, SOME_TIME)
  }

  lemma BeginFirst(cfg: Config, s: System, t: System, view: JobView, todo: seq<JobView>) returns (t': System)
    requires Quietly(cfg, s, t) && |t.actors| > 0 && t.actors[0] == Reconciling([view] + todo)
    requires UnknownAt(t.db, view.id)
    ensures Quietly(cfg, s, t') && |t'.actors| > 0 && t'.actors[0] == ReObserving(view, todo)
    ensures t'.db.jobs == t.db.jobs[view.id := Begun(t.db.jobs[view.id], view)]
  {
    t' := Become(t, 0, ReObserving(view, todo)).(
            db := TransitionJob(t.db, view.id, Verifying, Some(ResultOrEmpty(view.result)), view.error,
                                None, None, SOME_TIME).0);
    BeginIsStep(cfg, t, view, todo, t');
    QuietThen(cfg, s, t, BeginReconcile(0, SOME_TIME), t');
  }

  lemma RefuseFirst(cfg: Config, s: System, t: System, view: JobView, todo: seq<JobView>) returns (t': System)
    requires Quietly(cfg, s, t) && |t.actors| > 0 && t.actors[0] == ReObserving(view, todo)
    ensures Quietly(cfg, s, t') && |t'.actors| > 0 && t'.db == t.db
    ensures t'.actors[0] == Settling(view, Failed, ResultOrEmpty(view.result), Some(REFUSAL), todo)
  {
    t' := Become(t, 0, Settling(view, Failed, ResultOrEmpty(view.result), Some(REFUSAL), todo));
    RefusalIsStep(cfg, t, view, todo, t');
    QuietThen(cfg, s, t, ObserveReplies(0, Raised(REFUSAL)), t');
  }

  /** Actor 0 reconciles the first job on its list, and the adapter refuses. */
  lemma RetireOne(cfg: Config, s: System, t: System, view: JobView, todo: seq<JobView>) returns (t': System)
    requires Quietly(cfg, s, t) && |t.actors| > 0 && t.actors[0] == Reconciling([view] + todo)
    requires UnknownAt(t.db, view.id)
    ensures Quietly(cfg, s, t') && |t'.actors| > 0 && t'.actors[0] == Reconciling(todo)
    ensures t'.db.jobs == t.db.jobs[view.id := Refused(t.db.jobs[view.id], view)]
  {
    var t1 := BeginFirst(cfg, s, t, view, todo);
    var t2 := RefuseFirst(cfg, s, t1, view, todo);
    t' := SettleOne(cfg, s, t2, view, todo);
  }

  lemma SettleOne(cfg: Config, s: System, t: System, view: JobView, todo: seq<JobView>) returns (t': System)
    requires Quietly(cfg, s, t) && |t.actors| > 0
    requires t.actors[0] == Settling(view, Failed, ResultOrEmpty(view.result), Some(REFUSAL), todo)
    requires view.id in t.db.jobs && t.db.jobs[view.id].state.Verifying?
    ensures Quietly(cfg, s, t') && |t'.actors| > 0 && t'.actors[0] == Reconciling(todo)
    ensures t'.db.jobs == t.db.jobs[view.id := Moved(t.db.jobs[view.id], Failed, Some(ResultOrEmpty(view.result)),
                                                     Some(REFUSAL), SOME_TIME)]
  {
    t' := Become(t, 0, Reconciling(todo)).(
            db := TransitionJob(t.db, view.id, Failed, Some(ResultOrEmpty(view.result)), Some(REFUSAL), None, None, SOME_TIME).0);
    SettleIsStep(cfg, t, view, ResultOrEmpty(view.result), todo, t');
    QuietThen(cfg, s, t, Settle(0, SOME_TIME), t');
  }

  /** Exactly the listed jobs have become FAILED. */
  predicate RetiredAt(jobs: map<string, Job>, jobs': map<string, Job>, todo: seq<JobView>, k: string) {
    if k in jobs then k in jobs' && if Offered(todo, k) then jobs'[k].state.Failed? else jobs'[k] == jobs[k]
    else k !in jobs'
  }

  ghost predicate Retired(jobs: map<string, Job>, jobs': map<string, Job>, todo: seq<JobView>) {
    forall k: string :: RetiredAt(jobs, jobs', todo, k)
  }

  predicate DistinctIds(todo: seq<JobView>) {
    forall a, b | 0 <= a < b < |todo| :: todo[a].id != todo[b].id
  }

  lemma RetiredMore(jobs: map<string, Job>, row: Job, jobs': map<string, Job>, todo: seq<JobView>)
    requires todo != [] && DistinctIds(todo) && todo[0].id in jobs && row.state.Failed?
    requires Retired(jobs[todo[0].id := row], jobs', todo[1..])
    ensures Retired(jobs, jobs', todo)
  {
    var jobs1 := jobs[todo[0].id := row];
    forall k: string ensures RetiredAt(jobs, jobs', todo, k) {
      OfferedTail(todo, k);
      assert RetiredAt(jobs1, jobs', todo[1..], k);
      if k == todo[0].id { HeadIsOnce(todo); }
    }
  }

  lemma HeadIsOnce(todo: seq<JobView>)
    requires todo != [] && DistinctIds(todo)
    ensures !Offered(todo[1..], todo[0].id)
  {
  }

  lemma NobodyRetired(jobs: map<string, Job>)
    ensures Retired(jobs, jobs, [])
  {
    forall k: string ensures RetiredAt(jobs, jobs, [], k) {}
  }

  lemma EndPass(cfg: Config, s: System, t: System) returns (r: System)
    requires Quietly(cfg, s, t) && |t.actors| > 0 && t.actors[0] == Reconciling([])
    ensures Quietly(cfg, s, r) && |r.actors| > 0 && r.actors[0].Idle? && r.db == t.db
  {
    r := Become(t, 0, Idle);
    QuietThen(cfg, s, t, Crash(0), r);
  }

  /** The whole list, one job after the other. */
  lemma {:induction false} Drain(cfg: Config, s: System, t: System, todo: seq<JobView>) returns (r: System)
    requires Quietly(cfg, s, t) && |t.actors| > 0 && t.actors[0] == Reconciling(todo)
    requires DistinctIds(todo) && forall v | v in todo :: UnknownAt(t.db, v.id)
    ensures Quietly(cfg, s, r) && |r.actors| > 0 && r.actors[0].Idle?
    ensures Retired(t.db.jobs, r.db.jobs, todo)
    decreases |todo|
  {
    if todo == [] {
      r := EndPass(cfg, s, t);
      NobodyRetired(t.db.jobs);
    } else {
      assert todo == [todo[0]] + todo[1..];
      var t1 := RetireOne(cfg, s, t, todo[0], todo[1..]);
      RestIsUnknown(t.db, t1.db, todo);
      r := Drain(cfg, s, t1, todo[1..]);
      RetiredMore(t.db.jobs, Refused(t.db.jobs[todo[0].id], todo[0]), r.db.jobs, todo);
    }
  }

  lemma RestIsUnknown(db: Db, db': Db, todo: seq<JobView>)
    requires todo != [] && DistinctIds(todo) && forall v | v in todo :: UnknownAt(db, v.id)
    requires forall k | k in db.jobs && k != todo[0].id :: k in db'.jobs && db'.jobs[k] == db.jobs[k]
    ensures DistinctIds(todo[1..]) && forall v | v in todo[1..] :: UnknownAt(db', v.id)
  {
    forall v | v in todo[1..] ensures UnknownAt(db', v.id) {
      var a :| 0 <= a < |todo| - 1 && todo[1..][a] == v;
      assert todo[a + 1] == v;
    }
  }

  // ---------- one round: the oldest hundred are taken and retired ----------

  /** A hundred older jobs can be selected when there are that many. */
  lemma SelectOlder(db: Db, limit: nat, j: string) returns (rows: seq<string>)
    requires UnknownAt(db, j) && |Older(db, j)| >= limit
    ensures SelectsUnknown(db, limit, rows) && |rows| == limit && forall k | k in rows :: k in Older(db, j)
  {
    var all := RankAll(db, j);
    FrontIsSelected(db, j, all, limit);
    rows := Front(all, limit);
    SelectionByInstant(db, limit, rows);
    assert Older(db, j) <= Members(all);
    SubsetIsSmaller(Older(db, j), Members(all));
    MembersAreFew(all);
    forall a | 0 <= a < |rows| ensures rows[a] in Older(db, j) { FrontIsOlder(db, j, all, limit, a); }
  }

  lemma FrontIsOlder(db: Db, j: string, all: seq<string>, limit: nat, a: nat)
    requires UnknownAt(db, j) && Ranked(db, j, all) && (forall k :: k in all <==> UnknownAt(db, k))
    requires a < limit <= |Older(db, j)| && a < |all|
    ensures all[a] in Older(db, j)
  {
    assert all[a] in all;
    if all[a] !in Older(db, j) {
      forall k | k in Older(db, j) ensures k in Members(all[..a]) {
        assert UnknownAt(db, k);
        var b :| 0 <= b < |all| && all[b] == k;
        if b > a { RankedByAge(db, j, all, a, b); }
        assert all[..a][b] == k;
      }
      MembersAreFew(all[..a]);
      SubsetIsSmaller(Older(db, j), Members(all[..a]));
    }
  }

  /** The list holds exactly the selected jobs within budget, each once. */
  lemma {:induction false} ViewsAreDistinct(db: Db, rows: seq<string>, max: nat)
    requires Distinct(rows) && forall k | k in rows :: k in db.jobs
    ensures DistinctIds(ClaimCandidates(db, rows, max).1)
    ensures forall v | v in ClaimCandidates(db, rows, max).1 :: v.id in rows
  {
    if rows != [] {
      var front, last := rows[..|rows| - 1], rows[|rows| - 1];
      assert rows == front + [last];
      ViewsAreDistinct(db, front, max);
      assert last !in front by { assert forall i | 0 <= i < |front| :: front[i] == rows[i]; }
    }
  }

  /** After the round: the selected jobs within budget are FAILED, every other row is as before. */
  predicate RoundAt(cfg: Config, db: Db, db': Db, rows: seq<string>, k: string) {
    if k in db.jobs then
      k in db'.jobs && if k in rows && db.jobs[k].attempts < cfg.maxAttempts then db'.jobs[k].state.Failed?
                       else db'.jobs[k] == db.jobs[k]
    else k !in db'.jobs
  }

  lemma RoundLeaves(cfg: Config, db: Db, rows: seq<string>, jobs': map<string, Job>, db': Db, k: string)
    requires Distinct(rows) && (forall m | m in rows :: m in db.jobs) && db'.jobs == jobs'
    requires RetiredAt(ClaimCandidates(db, rows, cfg.maxAttempts).0.jobs, jobs',
                       ClaimCandidates(db, rows, cfg.maxAttempts).1, k)
    ensures RoundAt(cfg, db, db', rows, k)
  {
    if k in db.jobs { BudgetDecidesOffers(db, rows, cfg.maxAttempts, k); }
  }

  lemma Round(cfg: Config, s: System, w: System, rows: seq<string>) returns (r: System)
    requires Quietly(cfg, s, w) && |w.actors| > 0 && w.actors[0].Swept? && SelectsUnknown(w.db, RECONCILE_LIMIT, rows)
    ensures Quietly(cfg, s, r) && |r.actors| > 0 && r.actors[0].Idle?
    ensures forall k: string :: RoundAt(cfg, w.db, r.db, rows, k)
  {
    var t := Taken(cfg, w, 0, rows);
    TakenIsTake(cfg, w, 0, rows);
    TakeIsStep(cfg, w, 0, rows, t);
    QuietThen(cfg, s, w, TakeCandidates(0, rows), t);
    var (db, views) := ClaimCandidates(w.db, rows, cfg.maxAttempts);
    ViewsAreDistinct(w.db, rows, cfg.maxAttempts);
    ViewsAreUnknown(w.db, rows, cfg.maxAttempts);
    r := Drain(cfg, s, t, views);
    forall k: string ensures RoundAt(cfg, w.db, r.db, rows, k) {
      assert RetiredAt(db.jobs, r.db.jobs, views, k);
      RoundLeaves(cfg, w.db, rows, r.db.jobs, r.db, k);
    }
  }

  lemma ViewsAreUnknown(db: Db, rows: seq<string>, max: nat)
    requires Distinct(rows) && forall k | k in rows :: k in db.jobs && db.jobs[k].state.UnknownOutcome?
    ensures var (db', views) := ClaimCandidates(db, rows, max); forall v | v in views :: UnknownAt(db', v.id)
  {
    var (db', views) := ClaimCandidates(db, rows, max);
    ViewsAreDistinct(db, rows, max);
    forall v | v in views ensures UnknownAt(db', v.id) { BudgetDecidesOffers(db, rows, max, v.id); }
  }

  /** A round over a hundred older jobs leaves `j` alone and fewer jobs before it. */
  lemma RoundShortens(cfg: Config, db: Db, db': Db, rows: seq<string>, j: string)
    requires UnknownAt(db, j) && Distinct(rows) && |rows| == RECONCILE_LIMIT && forall k | k in rows :: k in Older(db, j)
    requires |SpentOlder(cfg, db, j)| < RECONCILE_LIMIT
    requires forall k: string :: RoundAt(cfg, db, db', rows, k)
    ensures j in db'.jobs && db'.jobs[j] == db.jobs[j]
    ensures |Older(db', j)| < |Older(db, j)| && |SpentOlder(cfg, db', j)| < RECONCILE_LIMIT
  {
    assert RoundAt(cfg, db, db', rows, j);
    var k := NotAllSpent(cfg, db, rows, j);
    assert RoundAt(cfg, db, db', rows, k);
    OlderShrinks(cfg, db, db', rows, j, k);
    SubsetIsSmaller(Older(db', j), Older(db, j) - {k});
    SubsetIsSmaller(SpentOlder(cfg, db', j), SpentOlder(cfg, db, j));
  }

  lemma NotAllSpent(cfg: Config, db: Db, rows: seq<string>, j: string) returns (k: string)
    requires j in db.jobs && Distinct(rows) && forall m | m in rows :: m in Older(db, j)
    requires |SpentOlder(cfg, db, j)| < |rows|
    ensures k in rows && k in db.jobs && db.jobs[k].attempts < cfg.maxAttempts
  {
    MembersAreFew(rows);
    if forall m | m in Members(rows) :: m in SpentOlder(cfg, db, j) {
      SubsetIsSmaller(Members(rows), SpentOlder(cfg, db, j));
    }
    k :| k in Members(rows) && k !in SpentOlder(cfg, db, j);
    assert k in rows;
  }

  lemma OlderShrinks(cfg: Config, db: Db, db': Db, rows: seq<string>, j: string, k: string)
    requires j in db.jobs && j in db'.jobs && db'.jobs[j] == db.jobs[j]
    requires forall m: string :: RoundAt(cfg, db, db', rows, m)
    requires k in db'.jobs && db'.jobs[k].state.Failed?
    ensures Older(db', j) <= Older(db, j) - {k} && SpentOlder(cfg, db', j) <= SpentOlder(cfg, db, j)
  {
    forall m | m in Older(db', j) ensures m in Older(db, j) && (m in SpentOlder(cfg, db', j) ==> m in SpentOlder(cfg, db, j)) {
      assert RoundAt(cfg, db, db', rows, m);
    }
    assert SpentOlder(cfg, db', j) <= Older(db', j);
  }

  /** Round after round, until the job is among the first hundred. */
  lemma {:induction false} RoundsReach(cfg: Config, s: System, u: System, j: string)
    requires Quietly(cfg, s, u) && |u.actors| > 0 && u.actors[0].Idle? && UnknownAt(u.db, j)
    requires u.db.jobs[j].attempts < cfg.maxAttempts && |SpentOlder(cfg, u.db, j)| < RECONCILE_LIMIT
    ensures CanBeOffered(cfg, s, j)
    decreases |Older(u.db, j)|
  {
    var w := SweepFirst(cfg, s, u);
    if |Older(w.db, j)| < RECONCILE_LIMIT {
      PassOffersExactly(cfg, w, 0, j);
    } else {
      var rows := SelectOlder(w.db, RECONCILE_LIMIT, j);
      var r := Round(cfg, s, w, rows);
      RoundShortens(cfg, w.db, r.db, rows, j);
      RoundsReach(cfg, s, r, j);
    }
  }

  /**
   In every reachable state: an UNKNOWN_OUTCOME job that nobody has in hand, nor any spent job
   before it, may still be offered without anybody asking to cancel anything if and only if
   its budget lasts and fewer than a hundred spent jobs are strictly older.
   */
  lemma OfferableExactly(cfg: Config, states: seq<System>, labels: seq<Label>, n: nat, j: string)
    requires IsRun(cfg, states, labels) && n < |states| && UnknownAt(states[n].db, j) && Unattended(states[n], j)
    requires forall k | k in SpentOlder(cfg, states[n].db, j) :: Unattended(states[n], k)
    ensures CanBeOffered(cfg, states[n], j)
            <==> states[n].db.jobs[j].attempts < cfg.maxAttempts && |SpentOlder(cfg, states[n].db, j)| < RECONCILE_LIMIT
  {
    var s := states[n];
    RunOk(cfg, states, labels, n);
    if CanBeOffered(cfg, s, j) { OfferedHasBounds(cfg, s, j); }
    if s.db.jobs[j].attempts < cfg.maxAttempts && |SpentOlder(cfg, s.db, j)| < RECONCILE_LIMIT {
      JobsNeedActors(cfg, states, labels, n);
      var u := Become(s, 0, Idle);
      QuietNow(cfg, s);
      QuietThen(cfg, s, s, Crash(0), u);
      RoundsReach(cfg, s, u, j);
    }
  }
}
