/** Exactly which UNKNOWN_OUTCOME jobs are offered for reconciliation, by the next pass and ever. */
module Parked {
  import opened Models
  import opened Clock
  import opened JobStore
  import opened Engine
  import opened EngineInvariant
  import opened EngineSteps
  import opened EngineTheorems
  import opened Attendance

  predicate UnknownAt(db: Db, j: string) {
    j in db.jobs && db.jobs[j].state.UnknownOutcome?
  }

  function Age(db: Db, j: string): int
    requires j in db.jobs
  {
    Instant(db.jobs[j].updatedAt)
  }

  /** The UNKNOWN_OUTCOME jobs last updated strictly before `j`. */
  function Older(db: Db, j: string): set<string>
    requires j in db.jobs
  {
    set k | k in db.jobs && db.jobs[k].state.UnknownOutcome? && Age(db, k) < Age(db, j)
  }

  // ---------- the query, by instants ----------

  predicate ByAge(db: Db, rows: seq<string>)
    requires forall k | k in rows :: k in db.jobs
  {
    forall a, b | 0 <= a < b < |rows| :: Age(db, rows[a]) <= Age(db, rows[b])
  }

  /** What `SelectsUnknown` asks for, with instants in place of texts. */
  ghost predicate SelectsOldest(db: Db, limit: nat, rows: seq<string>) {
    && Distinct(rows) && |rows| <= limit
    && (forall k | k in rows :: UnknownAt(db, k))
    && ByAge(db, rows)
    && (forall k | UnknownAt(db, k) && k !in rows ::
          |rows| == limit && forall a | 0 <= a < |rows| :: Age(db, rows[a]) <= Age(db, k))
  }

  lemma NotEarlier(db: Db, a: string, b: string)
    requires a in db.jobs && b in db.jobs
    ensures !TextBefore(db.jobs[b].updatedAt, db.jobs[a].updatedAt) <==> Age(db, a) <= Age(db, b)
  {
    TextOrderIsTimeOrder(db.jobs[b].updatedAt, db.jobs[a].updatedAt);
  }

  lemma SelectionByInstant(db: Db, limit: nat, rows: seq<string>)
    ensures SelectsUnknown(db, limit, rows) <==> SelectsOldest(db, limit, rows)
  {
    if SelectsUnknown(db, limit, rows) { TextToInstant(db, limit, rows); }
    if SelectsOldest(db, limit, rows) { InstantToText(db, limit, rows); }
  }

  lemma TextToInstant(db: Db, limit: nat, rows: seq<string>)
    requires SelectsUnknown(db, limit, rows)
    ensures SelectsOldest(db, limit, rows)
  {
    forall a, b | 0 <= a < b < |rows| ensures Age(db, rows[a]) <= Age(db, rows[b]) { NotEarlier(db, rows[a], rows[b]); }
    forall k, a | UnknownAt(db, k) && k !in rows && 0 <= a < |rows| ensures Age(db, rows[a]) <= Age(db, k) {
      NotEarlier(db, rows[a], k);
    }
  }

  lemma InstantToText(db: Db, limit: nat, rows: seq<string>)
    requires SelectsOldest(db, limit, rows)
    ensures SelectsUnknown(db, limit, rows)
  {
    forall a, b | 0 <= a < b < |rows|
      ensures UnknownAt(db, rows[a]) && UnknownAt(db, rows[b])
              && !TextBefore(db.jobs[rows[b]].updatedAt, db.jobs[rows[a]].updatedAt)
    {
      assert rows[a] in rows && rows[b] in rows;
      NotEarlier(db, rows[a], rows[b]);
    }
    forall k, a | UnknownAt(db, k) && k !in rows && 0 <= a < |rows|
      ensures UnknownAt(db, rows[a]) && !TextBefore(db.jobs[k].updatedAt, db.jobs[rows[a]].updatedAt)
    {
      assert rows[a] in rows;
      NotEarlier(db, rows[a], k);
    }
  }

  // ---------- counting ----------

  lemma SubsetIsSmaller<T>(a: set<T>, b: set<T>)
    requires a <= b
    ensures |a| <= |b|
  {
    assert b == a + (b - a);
  }

  function Members(rows: seq<string>): set<string> {
    set k | k in rows
  }

  lemma {:induction false} MembersAreFew(rows: seq<string>)
    ensures |Members(rows)| <= |rows|
    ensures Distinct(rows) ==> |Members(rows)| == |rows|
  {
    if rows != [] {
      var front, last := rows[..|rows| - 1], rows[|rows| - 1];
      MembersAreFew(front);
      assert rows == front + [last];
      assert Members(rows) == Members(front) + {last};
      if Distinct(rows) {
        assert last !in front by { assert forall i | 0 <= i < |front| :: front[i] == rows[i]; }
      }
    }
  }

  /** A selected job has fewer than `limit` older ones. */
  lemma SelectedIsEarly(db: Db, limit: nat, rows: seq<string>, j: string)
    requires SelectsOldest(db, limit, rows) && j in rows
    ensures |Older(db, j)| < limit
  {
    var a :| 0 <= a < |rows| && rows[a] == j;
    assert forall k | UnknownAt(db, k) && k !in rows :: Age(db, rows[a]) <= Age(db, k);
    assert Older(db, j) + {j} <= Members(rows);
    SubsetIsSmaller(Older(db, j) + {j}, Members(rows));
    MembersAreFew(rows);
  }

  // ---------- a selection exists ----------

  /** By age, and `j` before its equals. */
  function Rank(db: Db, j: string, k: string): int
    requires k in db.jobs
  {
    2 * Age(db, k) + if k == j then 0 else 1
  }

  predicate RankedAt(db: Db, j: string, rows: seq<string>, a: nat, b: nat)
    requires forall k | k in rows :: k in db.jobs
  {
    a < b < |rows| ==> Rank(db, j, rows[a]) <= Rank(db, j, rows[b])
  }

  ghost predicate Ranked(db: Db, j: string, rows: seq<string>) {
    Distinct(rows) && (forall k | k in rows :: k in db.jobs) && forall a: nat, b: nat :: RankedAt(db, j, rows, a, b)
  }

  lemma {:induction false} Latest(db: Db, j: string, ids: set<string>) returns (x: string)
    requires ids != {} && ids <= db.jobs.Keys
    ensures x in ids && forall k | k in ids :: Rank(db, j, k) <= Rank(db, j, x)
    decreases |ids|
  {
    x :| x in ids;
    if ids != {x} {
      var y := Latest(db, j, ids - {x});
      if Rank(db, j, x) <= Rank(db, j, y) { x := y; }
    }
  }

  lemma {:induction false} Sort(db: Db, j: string, ids: set<string>) returns (rows: seq<string>)
    requires ids <= db.jobs.Keys
    ensures Ranked(db, j, rows) && forall k :: k in rows <==> k in ids
    decreases |ids|
  {
    if ids == {} {
      rows := [];
    } else {
      var x := Latest(db, j, ids);
      var front := Sort(db, j, ids - {x});
      rows := front + [x];
      RankedMore(db, j, front, x);
    }
  }

  lemma RankedMore(db: Db, j: string, front: seq<string>, x: string)
    requires Ranked(db, j, front) && x !in front && x in db.jobs
    requires forall k | k in front :: Rank(db, j, k) <= Rank(db, j, x)
    ensures Ranked(db, j, front + [x])
  {
    var rows := front + [x];
    assert forall i | 0 <= i < |front| :: rows[i] == front[i] && front[i] in front;
    forall a: nat, b: nat ensures RankedAt(db, j, rows, a, b) {
      assert RankedAt(db, j, front, a, b);
    }
  }

  /** All UNKNOWN_OUTCOME jobs by rank. */
  lemma RankAll(db: Db, j: string) returns (all: seq<string>)
    ensures Ranked(db, j, all) && forall k :: k in all <==> UnknownAt(db, k)
  {
    all := Sort(db, j, set k | k in db.jobs && db.jobs[k].state.UnknownOutcome?);
  }

  lemma RankedByAge(db: Db, j: string, rows: seq<string>, a: nat, b: nat)
    requires Ranked(db, j, rows) && a < b < |rows|
    ensures Age(db, rows[a]) <= Age(db, rows[b])
    ensures rows[b] == j ==> Age(db, rows[a]) < Age(db, j)
  {
    assert RankedAt(db, j, rows, a, b);
  }

  lemma RankedIsByAge(db: Db, j: string, rows: seq<string>)
    requires Ranked(db, j, rows)
    ensures ByAge(db, rows)
  {
    forall a, b | 0 <= a < b < |rows| ensures Age(db, rows[a]) <= Age(db, rows[b]) {
      RankedByAge(db, j, rows, a, b);
    }
  }

  function Front(all: seq<string>, limit: nat): seq<string> {
    all[..if |all| < limit then |all| else limit]
  }

  lemma FrontIsRanked(db: Db, j: string, all: seq<string>, limit: nat)
    requires Ranked(db, j, all)
    ensures Ranked(db, j, Front(all, limit))
  {
    var rows := Front(all, limit);
    assert forall k | k in rows :: k in all;
    forall a: nat, b: nat ensures RankedAt(db, j, rows, a, b) { assert RankedAt(db, j, all, a, b); }
  }

  /** What is left out of the front is no older than what is in it. */
  lemma RestIsYounger(db: Db, j: string, all: seq<string>, limit: nat, k: string, a: nat)
    requires Ranked(db, j, all) && k in all && k !in Front(all, limit) && a < |Front(all, limit)|
    ensures |Front(all, limit)| == limit && Age(db, Front(all, limit)[a]) <= Age(db, k)
  {
    var rows := Front(all, limit);
    assert forall c | 0 <= c < |rows| :: rows[c] == all[c] && rows[c] in rows;
    var b :| 0 <= b < |all| && all[b] == k;
    RankedByAge(db, j, all, a, b);
  }

  lemma FrontIsSelected(db: Db, j: string, all: seq<string>, limit: nat)
    requires Ranked(db, j, all) && forall k :: k in all <==> UnknownAt(db, k)
    ensures SelectsOldest(db, limit, Front(all, limit))
  {
    var rows := Front(all, limit);
    FrontIsRanked(db, j, all, limit);
    RankedIsByAge(db, j, rows);
    assert |all| <= limit ==> rows == all;
    forall k | UnknownAt(db, k) && k !in rows
      ensures |rows| == limit && forall a | 0 <= a < |rows| :: Age(db, rows[a]) <= Age(db, k)
    {
      forall a | 0 <= a < |rows| ensures Age(db, rows[a]) <= Age(db, k) { RestIsYounger(db, j, all, limit, k, a); }
    }
  }

  /** The job stands behind its older ones only. */
  lemma PlaceInQueue(db: Db, j: string, all: seq<string>, p: nat)
    requires Ranked(db, j, all) && (forall k :: k in all <==> UnknownAt(db, k)) && p < |all| && all[p] == j
    ensures p <= |Older(db, j)|
  {
    forall k | k in Members(all[..p]) ensures k in Older(db, j) {
      var a :| 0 <= a < p && all[a] == k;
      RankedByAge(db, j, all, a, p);
      assert k in all;
    }
    MembersAreFew(all[..p]);
    SubsetIsSmaller(Members(all[..p]), Older(db, j));
  }

  /** A job with fewer than `limit` older ones can be selected. */
  lemma SelectWith(db: Db, limit: nat, j: string) returns (rows: seq<string>)
    requires UnknownAt(db, j) && |Older(db, j)| < limit
    ensures SelectsUnknown(db, limit, rows) && j in rows
  {
    var all := RankAll(db, j);
    FrontIsSelected(db, j, all, limit);
    rows := Front(all, limit);
    var p :| 0 <= p < |all| && all[p] == j;
    PlaceInQueue(db, j, all, p);
    assert rows[p] == j;
    SelectionByInstant(db, limit, rows);
  }

  // ---------- the next pass ----------

  /** The query may return the row if and only if fewer than `limit` unknown rows are strictly older. */
  lemma SelectedExactly(db: Db, limit: nat, j: string)
    requires UnknownAt(db, j)
    ensures (exists rows :: SelectsUnknown(db, limit, rows) && j in rows) <==> |Older(db, j)| < limit
  {
    forall rows | SelectsUnknown(db, limit, rows) && j in rows ensures |Older(db, j)| < limit {
      SelectionByInstant(db, limit, rows);
      SelectedIsEarly(db, limit, rows, j);
    }
    if |Older(db, j)| < limit {
      var rows := SelectWith(db, limit, j);
    }
  }

  /** Actor `i`, having swept, takes `rows`, and `j` is among the jobs it is to reconcile. */
  predicate PassOffers(cfg: Config, s: System, i: nat, rows: seq<string>, s': System, j: string) {
    && Step(cfg, s, TakeCandidates(i, rows), s')
    && i < |s'.actors| && s'.actors[i].Reconciling? && Offered(s'.actors[i].todo, j)
  }

  lemma TakingOffers(cfg: Config, s: System, i: nat, rows: seq<string>, s': System, j: string)
    requires i < |s.actors| && StepTakeCandidates(cfg, s, i, rows, s') && j in s.db.jobs
    ensures s'.actors[i].Reconciling?
    ensures Offered(s'.actors[i].todo, j) <==> j in rows && s.db.jobs[j].attempts < cfg.maxAttempts
  {
    BudgetDecidesOffers(s.db, rows, cfg.maxAttempts, j);
  }

  function Taken(cfg: Config, s: System, i: nat, rows: seq<string>): System
    requires i < |s.actors| && forall k | k in rows :: k in s.db.jobs
  {
    var (db, views) := ClaimCandidates(s.db, rows, cfg.maxAttempts);
    Become(s, i, Reconciling(views)).(db := db)
  }

  lemma TakeIsStep(cfg: Config, s: System, i: nat, rows: seq<string>, s': System)
    requires i < |s.actors| && StepTakeCandidates(cfg, s, i, rows, s')
    ensures Step(cfg, s, TakeCandidates(i, rows), s')
  {
  }

  lemma TakenIsTake(cfg: Config, s: System, i: nat, rows: seq<string>)
    requires i < |s.actors| && s.actors[i].Swept? && SelectsUnknown(s.db, RECONCILE_LIMIT, rows)
    ensures StepTakeCandidates(cfg, s, i, rows, Taken(cfg, s, i, rows))
  {
  }

  lemma TakenOffers(cfg: Config, s: System, i: nat, rows: seq<string>, j: string)
    requires i < |s.actors| && s.actors[i].Swept? && SelectsUnknown(s.db, RECONCILE_LIMIT, rows)
    requires j in rows && s.db.jobs[j].attempts < cfg.maxAttempts
    ensures PassOffers(cfg, s, i, rows, Taken(cfg, s, i, rows), j)
  {
    TakenIsTake(cfg, s, i, rows);
    TakeIsStep(cfg, s, i, rows, Taken(cfg, s, i, rows));
    TakingOffers(cfg, s, i, rows, Taken(cfg, s, i, rows), j);
  }

  lemma OfferedHasRoom(cfg: Config, s: System, i: nat, rows: seq<string>, s': System, j: string)
    requires i < |s.actors| && UnknownAt(s.db, j) && PassOffers(cfg, s, i, rows, s', j)
    ensures s.db.jobs[j].attempts < cfg.maxAttempts && |Older(s.db, j)| < RECONCILE_LIMIT
  {
    TakingOffers(cfg, s, i, rows, s', j);
    SelectionByInstant(s.db, RECONCILE_LIMIT, rows);
    SelectedIsEarly(s.db, RECONCILE_LIMIT, rows, j);
  }

  /**
   In every state: the next pass may offer an UNKNOWN_OUTCOME job if and only if its budget
   lasts and fewer than a hundred unknown jobs were updated strictly before it.
   */
  lemma PassOffersExactly(cfg: Config, s: System, i: nat, j: string)
    requires i < |s.actors| && s.actors[i].Swept? && UnknownAt(s.db, j)
    ensures (exists rows, s' :: PassOffers(cfg, s, i, rows, s', j))
            <==> s.db.jobs[j].attempts < cfg.maxAttempts && |Older(s.db, j)| < RECONCILE_LIMIT
  {
    forall rows, s' | PassOffers(cfg, s, i, rows, s', j)
      ensures s.db.jobs[j].attempts < cfg.maxAttempts && |Older(s.db, j)| < RECONCILE_LIMIT
    {
      OfferedHasRoom(cfg, s, i, rows, s', j);
    }
    if s.db.jobs[j].attempts < cfg.maxAttempts && |Older(s.db, j)| < RECONCILE_LIMIT {
      var rows := SelectWith(s.db, RECONCILE_LIMIT, j);
      TakenOffers(cfg, s, i, rows, j);
    }
  }

  // ---------- spent jobs, and the jobs behind them, over whole runs ----------

  /** Its budget is spent and nobody has it in hand. */
  predicate Spent(cfg: Config, s: System, k: string) {
    Unattended(s, k) && UnknownAt(s.db, k) && s.db.jobs[k].attempts >= cfg.maxAttempts
  }

  /** A hundred spent jobs or more. */
  ghost predicate Crowd(cfg: Config, s: System, front: set<string>) {
    |front| >= RECONCILE_LIMIT && forall k | k in front :: Spent(cfg, s, k)
  }

  /** `j` was updated after every one of them. */
  predicate Behind(db: Db, front: set<string>, j: string) {
    j in db.jobs && forall k | k in front :: k in db.jobs && Age(db, k) < Age(db, j)
  }

  ghost predicate SameRows(db: Db, db': Db, ids: set<string>) {
    forall k | k in ids :: k in db.jobs && k in db'.jobs && db'.jobs[k] == db.jobs[k]
  }

  predicate AsksForAny(l: Label, ids: set<string>) {
    l.ReadForCancel? && l.job in ids
  }

  lemma SpentStep(cfg: Config, s: System, l: Label, s': System, k: string)
    requires EngineOk(cfg, s) && Spent(cfg, s, k) && Step(cfg, s, l, s') && !AsksToCancel(l, k)
    ensures Spent(cfg, s', k) && s'.db.jobs[k] == s.db.jobs[k]
  {
    assert IdOk(cfg, s, k);
    UnattendedStep(cfg, s, l, s', k);
  }

  /** A crowd keeps whatever is behind it from being selected. */
  lemma CrowdBlocks(cfg: Config, s: System, l: Label, s': System, front: set<string>, j: string)
    requires Crowd(cfg, s, front) && Behind(s.db, front, j) && Step(cfg, s, l, s') && l.TakeCandidates?
    ensures j !in l.rows
  {
    assert front <= Older(s.db, j);
    SubsetIsSmaller(front, Older(s.db, j));
    SelectionByInstant(s.db, RECONCILE_LIMIT, l.rows);
    if j in l.rows { SelectedIsEarly(s.db, RECONCILE_LIMIT, l.rows, j); }
  }

  lemma CrowdStep(cfg: Config, s: System, l: Label, s': System, front: set<string>)
    requires EngineOk(cfg, s) && Crowd(cfg, s, front) && Step(cfg, s, l, s') && !AsksForAny(l, front)
    ensures Crowd(cfg, s', front) && SameRows(s.db, s'.db, front)
  {
    forall k | k in front
      ensures Spent(cfg, s', k) && k in s.db.jobs && k in s'.db.jobs && s'.db.jobs[k] == s.db.jobs[k]
    {
      SpentStep(cfg, s, l, s', k);
    }
  }

  lemma SameRowsTrans(a: Db, b: Db, c: Db, ids: set<string>)
    requires SameRows(a, b, ids) && SameRows(b, c, ids)
    ensures SameRows(a, c, ids)
  {
  }

  lemma PathStepCrowd(cfg: Config, states: seq<System>, labels: seq<Label>, n: nat, front: set<string>)
    requires IsPath(cfg, states, labels) && n < |labels| && !AsksForAny(labels[n], front)
    requires EngineOk(cfg, states[n]) && Crowd(cfg, states[n], front)
    ensures EngineOk(cfg, states[n + 1]) && Crowd(cfg, states[n + 1], front)
    ensures SameRows(states[n].db, states[n + 1].db, front)
  {
    assert StepAt(cfg, states, labels, n);
    CrowdStep(cfg, states[n], labels[n], states[n + 1], front);
    EngineStepOk(cfg, states[n], labels[n], states[n + 1]);
  }

  lemma {:induction false} PathCrowd(cfg: Config, states: seq<System>, labels: seq<Label>, m: nat, n: nat, front: set<string>)
    requires IsPath(cfg, states, labels) && m <= n < |states| && EngineOk(cfg, states[m])
    requires Crowd(cfg, states[m], front)
    requires forall q | m <= q < n :: !AsksForAny(labels[q], front)
    ensures EngineOk(cfg, states[n]) && Crowd(cfg, states[n], front) && SameRows(states[m].db, states[n].db, front)
    decreases n
  {
    if m < n {
      PathCrowd(cfg, states, labels, m, n - 1, front);
      PathStepCrowd(cfg, states, labels, n - 1, front);
      SameRowsTrans(states[m].db, states[n - 1].db, states[n].db, front);
    }
  }

  /**
   In every run: while nobody asks to cancel any of them, a hundred spent jobs keep their rows,
   and no pass selects a job updated after all of them.
   */
  lemma CrowdedOut(cfg: Config, states: seq<System>, labels: seq<Label>, m: nat, n: nat, front: set<string>)
    requires IsRun(cfg, states, labels) && m <= n < |states| && Crowd(cfg, states[m], front)
    requires forall q | m <= q < n :: !AsksForAny(labels[q], front)
    ensures Crowd(cfg, states[n], front) && SameRows(states[m].db, states[n].db, front)
    ensures n < |labels| && labels[n].TakeCandidates? ==>
              forall j | Behind(states[n].db, front, j) :: j !in labels[n].rows
  {
    RunOk(cfg, states, labels, m);
    PathCrowd(cfg, states, labels, m, n, front);
    if n < |labels| && labels[n].TakeCandidates? {
      assert StepAt(cfg, states, labels, n);
      forall j | Behind(states[n].db, front, j) ensures j !in labels[n].rows {
        CrowdBlocks(cfg, states[n], labels[n], states[n + 1], front, j);
      }
    }
  }

  lemma {:induction false} PathSpent(cfg: Config, states: seq<System>, labels: seq<Label>, m: nat, n: nat, j: string)
    requires IsPath(cfg, states, labels) && m <= n < |states| && EngineOk(cfg, states[m]) && Spent(cfg, states[m], j)
    requires forall q | m <= q < n :: !AsksToCancel(labels[q], j)
    ensures EngineOk(cfg, states[n]) && Spent(cfg, states[n], j) && states[n].db.jobs[j] == states[m].db.jobs[j]
    decreases n
  {
    if m < n {
      PathSpent(cfg, states, labels, m, n - 1, j);
      PathStepSpent(cfg, states, labels, n - 1, j);
    }
  }

  lemma PathStepSpent(cfg: Config, states: seq<System>, labels: seq<Label>, n: nat, j: string)
    requires IsPath(cfg, states, labels) && n < |labels| && !AsksToCancel(labels[n], j)
    requires EngineOk(cfg, states[n]) && Spent(cfg, states[n], j)
    ensures EngineOk(cfg, states[n + 1]) && Spent(cfg, states[n + 1], j)
    ensures states[n + 1].db.jobs[j] == states[n].db.jobs[j]
  {
    assert StepAt(cfg, states, labels, n);
    SpentStep(cfg, states[n], labels[n], states[n + 1], j);
    EngineStepOk(cfg, states[n], labels[n], states[n + 1]);
  }

  /** In every run: a spent job keeps its row, in every column, until somebody asks to cancel it. */
  lemma SpentStaysParked(cfg: Config, states: seq<System>, labels: seq<Label>, m: nat, n: nat, j: string)
    requires IsRun(cfg, states, labels) && m <= n < |states| && Spent(cfg, states[m], j)
    requires forall q | m <= q < n :: !AsksToCancel(labels[q], j)
    ensures Spent(cfg, states[n], j) && states[n].db.jobs[j] == states[m].db.jobs[j]
  {
    RunOk(cfg, states, labels, m);
    PathSpent(cfg, states, labels, m, n, j);
  }

  /** UNKNOWN_OUTCOME, in nobody's hands, and behind a crowd. */
  ghost predicate Waiting(cfg: Config, s: System, front: set<string>, j: string) {
    Crowd(cfg, s, front) && Unattended(s, j) && UnknownAt(s.db, j) && Behind(s.db, front, j)
  }

  lemma WaitingStep(cfg: Config, s: System, l: Label, s': System, front: set<string>, j: string)
    requires EngineOk(cfg, s) && Waiting(cfg, s, front, j) && Step(cfg, s, l, s')
    requires !AsksForAny(l, front) && !AsksToCancel(l, j)
    ensures Waiting(cfg, s', front, j) && s'.db.jobs[j] == s.db.jobs[j]
  {
    assert IdOk(cfg, s, j);
    if l.TakeCandidates? { CrowdBlocks(cfg, s, l, s', front, j); }
    UnattendedStep(cfg, s, l, s', j);
    CrowdStep(cfg, s, l, s', front);
  }

  lemma PathStepWaiting(cfg: Config, states: seq<System>, labels: seq<Label>, n: nat, front: set<string>, j: string)
    requires IsPath(cfg, states, labels) && n < |labels|
    requires !AsksForAny(labels[n], front) && !AsksToCancel(labels[n], j)
    requires EngineOk(cfg, states[n]) && Waiting(cfg, states[n], front, j)
    ensures EngineOk(cfg, states[n + 1]) && Waiting(cfg, states[n + 1], front, j)
    ensures states[n + 1].db.jobs[j] == states[n].db.jobs[j]
  {
    assert StepAt(cfg, states, labels, n);
    WaitingStep(cfg, states[n], labels[n], states[n + 1], front, j);
    EngineStepOk(cfg, states[n], labels[n], states[n + 1]);
  }

  lemma {:induction false} PathWaiting(cfg: Config, states: seq<System>, labels: seq<Label>, m: nat, n: nat,
                                       front: set<string>, j: string)
    requires IsPath(cfg, states, labels) && m <= n < |states|
    requires EngineOk(cfg, states[m]) && Waiting(cfg, states[m], front, j)
    requires forall q | m <= q < n :: !AsksForAny(labels[q], front) && !AsksToCancel(labels[q], j)
    ensures EngineOk(cfg, states[n]) && Waiting(cfg, states[n], front, j)
    ensures states[n].db.jobs[j] == states[m].db.jobs[j]
    decreases n
  {
    if m < n {
      PathWaiting(cfg, states, labels, m, n - 1, front, j);
      PathStepWaiting(cfg, states, labels, n - 1, front, j);
    }
  }

  /** In every run: a job behind a crowd keeps its row, whatever its budget, until somebody asks to cancel one of them. */
  lemma WaitingStaysParked(cfg: Config, states: seq<System>, labels: seq<Label>, m: nat, n: nat, front: set<string>, j: string)
    requires IsRun(cfg, states, labels) && m <= n < |states| && Waiting(cfg, states[m], front, j)
    requires forall q | m <= q < n :: !AsksForAny(labels[q], front) && !AsksToCancel(labels[q], j)
    ensures Waiting(cfg, states[n], front, j) && states[n].db.jobs[j] == states[m].db.jobs[j]
  {
    RunOk(cfg, states, labels, m);
    PathWaiting(cfg, states, labels, m, n, front, j);
  }
}
