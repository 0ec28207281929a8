/**
 The inductive invariant of the job engine. Each job has a dossier: its path in the
 audit log and the counts of what was done about it. `JobOk` relates the dossier to
 the row; a step changes the dossier of at most one job.
 */
module EngineInvariant {
  import opened Models
  import opened Clock
  import opened JobStore
  import opened AuditReplay
  import opened Engine

  // ---------- counting ----------

  function Claims(h: seq<Note>, j: string): nat {
    if h == [] then 0
    else Claims(h[..|h| - 1], j) + if h[|h| - 1].ClaimNote? && h[|h| - 1].job == j then 1 else 0
  }

  function Executions(h: seq<Note>, j: string): nat {
    if h == [] then 0
    else Executions(h[..|h| - 1], j) + if h[|h| - 1].ExecuteNote? && h[|h| - 1].job == j then 1 else 0
  }

  lemma NotesAppend(h: seq<Note>, n: Note, j: string)
    ensures Claims(h + [n], j) == Claims(h, j) + if n.ClaimNote? && n.job == j then 1 else 0
    ensures Executions(h + [n], j) == Executions(h, j) + if n.ExecuteNote? && n.job == j then 1 else 0
  {
    assert (h + [n])[..|h|] == h;
  }

  function Mentions(todo: seq<JobView>, j: string): nat {
    if todo == [] then 0
    else Mentions(todo[..|todo| - 1], j) + if todo[|todo| - 1].id == j then 1 else 0
  }

  lemma MentionsAppend(todo: seq<JobView>, v: JobView, j: string)
    ensures Mentions(todo + [v], j) == Mentions(todo, j) + if v.id == j then 1 else 0
  {
    assert (todo + [v])[..|todo|] == todo;
  }

  lemma {:induction false} MentionsTail(todo: seq<JobView>, j: string)
    requires todo != []
    ensures Mentions(todo, j) == Mentions(todo[1..], j) + if todo[0].id == j then 1 else 0
  {
    if |todo| > 1 {
      MentionsTail(todo[..|todo| - 1], j);
      assert todo[..|todo| - 1][1..] == todo[1..][..|todo| - 2];
    }
  }

  /** Claimed reconciliations of `j` this actor has not begun. */
  function OpenClaims(a: Actor, j: string): nat {
    if a.Reconciling? || a.ReObserving? || a.ReVerifying? || a.Settling? then Mentions(a.todo, j) else 0
  }

  /** One if this actor is about to call `execute` for `j`. */
  function AboutToExecute(a: Actor, j: string): nat {
    if a.Claimed? && a.job == j then 1 else 0
  }

  function TotalOpenClaims(actors: seq<Actor>, j: string): nat {
    if actors == [] then 0 else TotalOpenClaims(actors[..|actors| - 1], j) + OpenClaims(actors[|actors| - 1], j)
  }

  function TotalAboutToExecute(actors: seq<Actor>, j: string): nat {
    if actors == [] then 0
    else TotalAboutToExecute(actors[..|actors| - 1], j) + AboutToExecute(actors[|actors| - 1], j)
  }

  lemma {:induction false} TotalsUpdate(actors: seq<Actor>, i: nat, a: Actor, j: string)
    requires i < |actors|
    ensures TotalOpenClaims(actors[i := a], j) + OpenClaims(actors[i], j)
         == TotalOpenClaims(actors, j) + OpenClaims(a, j)
    ensures TotalAboutToExecute(actors[i := a], j) + AboutToExecute(actors[i], j)
         == TotalAboutToExecute(actors, j) + AboutToExecute(a, j)
  {
    var n := |actors| - 1;
    if i < n {
      TotalsUpdate(actors[..n], i, a, j);
      assert actors[i := a][..n] == actors[..n][i := a];
    } else {
      assert actors[i := a][..n] == actors[..n];
    }
  }

  // ---------- evidence in the history ----------

  predicate Contains(h: seq<Note>, n: Note) {
    exists p :: 0 <= p < |h| && h[p] == n
  }

  /** `observe` returned `o` and then `verify`, given `o`, returned `v`. */
  predicate ObservedThenVerified(h: seq<Note>, j: string, ex: ExecutionArg, o: Observation, v: Verification) {
    exists p, q :: 0 <= p < q < |h| && h[p] == ObserveNote(j, o) && h[q] == VerifyNote(j, ex, o, v)
  }

  /** The result holds an observation and a satisfied verification made from it. */
  ghost predicate Proven(h: seq<Note>, j: string, result: Option<ResultDoc>) {
    && result.Some?
    && result.value.observation.Some? && result.value.verification.Some?
    && result.value.verification.value.satisfied
    && exists ex: ExecutionArg ::
         && (result.value.execution == if ex.Recorded? then Some(ex.execution) else None)
         && ObservedThenVerified(h, j, ex, result.value.observation.value, result.value.verification.value)
  }

  lemma ContainsGrows(h: seq<Note>, n: Note, m: Note)
    ensures Contains(h, n) ==> Contains(h + [m], n)
    ensures Contains(h + [m], m)
  {
    if Contains(h, n) {
      var p :| 0 <= p < |h| && h[p] == n;
      assert (h + [m])[p] == n;
    }
    assert (h + [m])[|h|] == m;
  }

  lemma ObservedGrows(h: seq<Note>, m: Note, j: string, ex: ExecutionArg, o: Observation, v: Verification)
    requires ObservedThenVerified(h, j, ex, o, v)
    ensures ObservedThenVerified(h + [m], j, ex, o, v)
  {
    var p, q :| 0 <= p < q < |h| && h[p] == ObserveNote(j, o) && h[q] == VerifyNote(j, ex, o, v);
    assert (h + [m])[p] == h[p] && (h + [m])[q] == h[q];
  }

  lemma ObservedNow(h: seq<Note>, j: string, ex: ExecutionArg, o: Observation, v: Verification)
    requires Contains(h, ObserveNote(j, o))
    ensures ObservedThenVerified(h + [VerifyNote(j, ex, o, v)], j, ex, o, v)
  {
    var p :| 0 <= p < |h| && h[p] == ObserveNote(j, o);
    var h' := h + [VerifyNote(j, ex, o, v)];
    assert h'[p] == ObserveNote(j, o) && h'[|h|] == VerifyNote(j, ex, o, v);
  }

  lemma ProvenGrows(h: seq<Note>, m: Note, j: string, result: Option<ResultDoc>)
    requires Proven(h, j, result)
    ensures Proven(h + [m], j, result)
  {
    var ex: ExecutionArg :| (result.value.execution == if ex.Recorded? then Some(ex.execution) else None)
              && ObservedThenVerified(h, j, ex, result.value.observation.value, result.value.verification.value);
    ObservedGrows(h, m, j, ex, result.value.observation.value, result.value.verification.value);
  }

  // ---------- one job ----------

  datatype Dossier = Dossier(path: seq<JobState>, exhaustions: nat, openClaims: nat,
                             aboutToExecute: nat, claims: nat, executions: nat)

  function DossierOf(s: System, j: string): Dossier {
    Dossier(Path(s.db.log, j), Exhaustions(s.db.log, j), TotalOpenClaims(s.actors, j),
            TotalAboutToExecute(s.actors, j), Claims(s.history, j), Executions(s.history, j))
  }

  /** The lease columns: all or none, and only where a worker may hold the job. */
  predicate LeaseOk(job: Job) {
    && (job.leaseOwner.Some? <==> job.leaseToken.Some?)
    && (job.leaseExpiresAt.Some? <==> job.leaseToken.Some?)
    && (job.state.Running? ==> job.leaseToken.Some?)
    && (job.leaseToken.Some? ==> job.state.Running? || job.state.Verifying?)
    && (job.state.Verifying? && job.leaseToken.None? ==> job.attempts >= 1)
  }

  predicate CountsOk(max: nat, job: Job, d: Dossier) {
    && Walk(d.path) && Last(d.path) == job.state
    && Reverifications(d.path) + d.openClaims <= job.attempts <= max
    && d.exhaustions == (if max >= 1 && job.attempts == max then 1 else 0)
    && d.executions + d.aboutToExecute <= d.claims <= 1
    && (d.claims == 0 <==> Running !in d.path)
  }

  /** A cancelled job either was never claimed, or its adapter said it cancelled. */
  predicate HonestlyCancelled(h: seq<Note>, j: string, d: Dossier) {
    (d.path == [Queued, Cancelled] && d.claims == 0) || Contains(h, CancelNote(j, CancelDone))
  }

  ghost predicate EvidenceOk(h: seq<Note>, j: string, job: Job, d: Dossier) {
    && (job.leaseToken.Some? ==> Contains(h, ClaimNote(j, job.leaseToken.value)))
    && (job.state.Succeeded? ==> Proven(h, j, job.result))
    && (job.state.Cancelled? ==> HonestlyCancelled(h, j, d))
  }

  ghost predicate JobOk(max: nat, h: seq<Note>, j: string, job: Job, d: Dossier) {
    && job.key == job.request.idempotencyKey
    && LeaseOk(job) && CountsOk(max, job, d) && EvidenceOk(h, j, job, d)
  }

  const EMPTY_DOSSIER := Dossier([], 0, 0, 0, 0, 0)

  // ---------- actors ----------

  ghost predicate ActorOk(h: seq<Note>, a: Actor) {
    match a
    case Verify(j, _, _, o) => Contains(h, ObserveNote(j, o))
    case Succeeding(j, _, ex, o, v) => v.satisfied && ObservedThenVerified(h, j, Recorded(ex), o, v)
    case ReVerifying(view, o, _) => Contains(h, ObserveNote(view.id, o))
    case Settling(view, target, result, _, _) =>
      && target in {Succeeded, UnknownOutcome, Failed}
      && (target == Succeeded ==> Proven(h, view.id, Some(result)))
    case CancelApplying(view, Returned(c)) =>
      c.disposition == CancelDone ==> Contains(h, CancelNote(view.id, CancelDone))
    case _ => true
  }

  lemma ActorOkGrows(h: seq<Note>, n: Note, a: Actor)
    requires ActorOk(h, a)
    ensures ActorOk(h + [n], a)
  {
    match a
    case Verify(j, _, _, o) => ContainsGrows(h, ObserveNote(j, o), n);
    case Succeeding(j, _, ex, o, v) => ObservedGrows(h, n, j, Recorded(ex), o, v);
    case ReVerifying(view, o, _) => ContainsGrows(h, ObserveNote(view.id, o), n);
    case Settling(view, target, result, _, _) =>
      if target == Succeeded { ProvenGrows(h, n, view.id, Some(result)); }
    case CancelApplying(view, reply) => ContainsGrows(h, CancelNote(view.id, CancelDone), n);
    case _ =>
  }

  // ---------- the invariant ----------

  predicate KeysDiffer(jobs: map<string, Job>, j: string, k: string) {
    j in jobs && k in jobs && j != k ==> jobs[j].key != jobs[k].key
  }

  ghost predicate KeysUnique(jobs: map<string, Job>) {
    forall j: string, k: string :: KeysDiffer(jobs, j, k)
  }

  /** The id is a job in good order, or nothing has ever been done about it. */
  ghost predicate IdOk(cfg: Config, s: System, j: string) {
    if j in s.db.jobs then JobOk(cfg.maxAttempts, s.history, j, s.db.jobs[j], DossierOf(s, j))
    else DossierOf(s, j) == EMPTY_DOSSIER
  }

  ghost predicate JobsOk(cfg: Config, s: System) {
    forall j: string :: IdOk(cfg, s, j)
  }

  ghost predicate ActorsOk(s: System) {
    forall i | 0 <= i < |s.actors| :: ActorOk(s.history, s.actors[i])
  }

  predicate ReplayOk(db: Db) {
    Replay(db.log) == Table(db.jobs)
  }

  ghost predicate EngineOk(cfg: Config, s: System) {
    JobsOk(cfg, s) && ActorsOk(s) && KeysUnique(s.db.jobs) && ReplayOk(s.db)
  }

  lemma {:induction false} IdleTotals(actors: seq<Actor>, j: string)
    requires forall i | 0 <= i < |actors| :: actors[i].Idle?
    ensures TotalOpenClaims(actors, j) == 0 && TotalAboutToExecute(actors, j) == 0
  {
    if actors != [] { IdleTotals(actors[..|actors| - 1], j); }
  }

  lemma InitOk(cfg: Config, s: System)
    requires Init(s)
    ensures EngineOk(cfg, s)
  {
    forall j: string ensures IdOk(cfg, s, j) { IdleTotals(s.actors, j); }
  }

  // ---------- steps that leave the jobs and the log's job events alone ----------

  /** An actor changes place, perhaps after a note that is neither a claim nor an execution. */
  lemma LocalStep(cfg: Config, s: System, i: nat, a: Actor, notes: seq<Note>, s': System)
    requires EngineOk(cfg, s) && i < |s.actors|
    requires s'.db.jobs == s.db.jobs && s'.actors == s.actors[i := a] && s'.history == s.history + notes
    requires forall j: string :: Path(s'.db.log, j) == Path(s.db.log, j)
    requires forall j: string :: Exhaustions(s'.db.log, j) == Exhaustions(s.db.log, j)
    requires Replay(s'.db.log) == Replay(s.db.log)
    requires |notes| <= 1
    requires notes != [] ==> !notes[0].ClaimNote?
    requires forall j: string ::
               (if notes != [] && notes[0].ExecuteNote? && notes[0].job == j then 1 else 0) + AboutToExecute(a, j)
               <= AboutToExecute(s.actors[i], j)
    requires forall j: string :: OpenClaims(a, j) <= OpenClaims(s.actors[i], j)
    requires ActorOk(s'.history, a)
    ensures EngineOk(cfg, s')
  {
    forall j: string ensures IdOk(cfg, s', j) {
      assert IdOk(cfg, s, j);
      LocalIdOk(cfg, s, i, a, notes, s', j);
    }
    ActorsKept(s, i, a, notes, s');
  }

  lemma LocalIdOk(cfg: Config, s: System, i: nat, a: Actor, notes: seq<Note>, s': System, j: string)
    requires IdOk(cfg, s, j) && i < |s.actors|
    requires s'.db.jobs == s.db.jobs && s'.actors == s.actors[i := a] && s'.history == s.history + notes
    requires Path(s'.db.log, j) == Path(s.db.log, j)
    requires Exhaustions(s'.db.log, j) == Exhaustions(s.db.log, j)
    requires |notes| <= 1
    requires notes != [] ==> !notes[0].ClaimNote?
    requires (if notes != [] && notes[0].ExecuteNote? && notes[0].job == j then 1 else 0) + AboutToExecute(a, j)
             <= AboutToExecute(s.actors[i], j)
    requires OpenClaims(a, j) <= OpenClaims(s.actors[i], j)
    ensures IdOk(cfg, s', j)
  {
    var d, d' := DossierOf(s, j), DossierOf(s', j);
    TotalsUpdate(s.actors, i, a, j);
    LocalNotes(s.history, notes, j);
    if j in s.db.jobs {
      FewerClaimsOk(cfg.maxAttempts, s.history, j, s.db.jobs[j], d, d');
      EvidenceKept(s.history, notes, j, s.db.jobs[j], d, d');
    }
  }

  lemma LocalNotes(h: seq<Note>, notes: seq<Note>, j: string)
    requires |notes| <= 1
    requires notes != [] ==> !notes[0].ClaimNote?
    ensures Claims(h + notes, j) == Claims(h, j)
    ensures Executions(h + notes, j)
         == Executions(h, j) + if notes != [] && notes[0].ExecuteNote? && notes[0].job == j then 1 else 0
  {
    if notes == [] { assert h + notes == h; }
    else { assert notes == [notes[0]]; NotesAppend(h, notes[0], j); }
  }

  lemma FewerClaimsOk(max: nat, h: seq<Note>, j: string, job: Job, d: Dossier, d': Dossier)
    requires JobOk(max, h, j, job, d)
    requires d'.path == d.path && d'.exhaustions == d.exhaustions && d'.claims == d.claims
    requires d'.openClaims <= d.openClaims
    requires d'.executions + d'.aboutToExecute <= d.executions + d.aboutToExecute
    ensures LeaseOk(job) && CountsOk(max, job, d')
  {
  }

  lemma EvidenceKept(h: seq<Note>, notes: seq<Note>, j: string, job: Job, d: Dossier, d': Dossier)
    requires EvidenceOk(h, j, job, d) && |notes| <= 1
    requires d'.path == d.path && d'.claims == d.claims
    ensures EvidenceOk(h + notes, j, job, d')
  {
    if notes == [] {
      assert h + notes == h;
    } else {
      assert notes == [notes[0]];
      if job.leaseToken.Some? { ContainsGrows(h, ClaimNote(j, job.leaseToken.value), notes[0]); }
      if job.state.Succeeded? { ProvenGrows(h, notes[0], j, job.result); }
      ContainsGrows(h, CancelNote(j, CancelDone), notes[0]);
    }
  }

  lemma ActorsKept(s: System, i: nat, a: Actor, notes: seq<Note>, s': System)
    requires ActorsOk(s) && i < |s.actors| && |notes| <= 1
    requires s'.actors == s.actors[i := a] && s'.history == s.history + notes
    requires ActorOk(s'.history, a)
    ensures ActorsOk(s')
  {
    forall k | 0 <= k < |s'.actors| ensures ActorOk(s'.history, s'.actors[k]) {
      if k != i {
        if notes == [] { assert s'.history == s.history; }
        else { assert notes == [notes[0]]; ActorOkGrows(s.history, notes[0], s.actors[k]); }
      }
    }
  }

  // ---------- one job moves to another state ----------

  predicate SameIdentity(a: Job, b: Job) {
    a.key == b.key && a.request == b.request && a.digest == b.digest && a.subject == b.subject
  }

  /** `after` is `before` moved along an allowed edge, its lease kept only into VERIFYING. */
  predicate IsMove(before: Job, after: Job) {
    && CanMove(before.state, after.state) && !after.state.Running?
    && SameIdentity(before, after) && after.attempts == before.attempts
    && (if after.state.Verifying? then
          after.leaseOwner == before.leaseOwner && after.leaseToken == before.leaseToken
          && after.leaseExpiresAt == before.leaseExpiresAt
        else
          after.leaseOwner.None? && after.leaseToken.None? && after.leaseExpiresAt.None?)
  }

  /** The event says exactly that `j` is now `after`. */
  predicate Announces(e: Event, j: string, before: Job, after: Job) {
    match e
    case JobMoved(k, target, result, error) =>
      k == j && after.state == target && after.result == result && after.error == error
    case LeaseExpired(k) =>
      && k == j && after.state == UnknownOutcome
      && after.result == before.result && after.error == Some(LEASE_EXPIRED_ERROR)
    case QueueExpired(k) =>
      k == j && after.state == Expired && after.result == before.result && after.error == before.error
    case _ => false
  }

  predicate IsReverification(before: Job, after: Job) {
    before.state.UnknownOutcome? && after.state.Verifying?
  }

  lemma AnnouncedReplay(db: Db, j: string, after: Job, e: Event)
    requires ReplayOk(db) && j in db.jobs && SameIdentity(db.jobs[j], after) && Announces(e, j, db.jobs[j], after)
    ensures ReplayOk(Put(db, j, after, e))
  {
    ReplayAppend(db.log, e);
    assert Table(db.jobs)[j := Rebuilt(after)] == Table(db.jobs[j := after]);
  }

  // One event, one counter each.

  lemma EventPath(log: seq<Event>, e: Event, log': seq<Event>, k: string)
    requires log' == log + [e]
    ensures Path(log', k) == match StateIn(e, k) case None => Path(log, k) case Some(st) => Path(log, k) + [st]
  {
    PathAppend(log, e, k);
  }

  lemma EventExhaustions(log: seq<Event>, e: Event, log': seq<Event>, k: string)
    requires log' == log + [e]
    ensures Exhaustions(log', k) == Exhaustions(log, k) + if e.ReconcileExhausted? && e.job == k then 1 else 0
  {
    ExhaustionsAppend(log, e, k);
  }

  lemma MovedPath(log: seq<Event>, j: string, before: Job, after: Job, e: Event, log': seq<Event>, k: string)
    requires Announces(e, j, before, after) && log' == log + [e]
    ensures Path(log', k) == Path(log, k) + if k == j then [after.state] else []
  {
    EventPath(log, e, log', k);
  }

  lemma MovedExhaustions(log: seq<Event>, j: string, before: Job, after: Job, e: Event, log': seq<Event>, k: string)
    requires Announces(e, j, before, after) && log' == log + [e]
    ensures Exhaustions(log', k) == Exhaustions(log, k)
  {
    EventExhaustions(log, e, log', k);
  }

  lemma MovedDossier(s: System, j: string, before: Job, after: Job, e: Event, s': System, k: string)
    requires Announces(e, j, before, after) && s'.db.log == s.db.log + [e] && s'.history == s.history
    ensures DossierOf(s', k).path == Path(s.db.log, k) + if k == j then [after.state] else []
    ensures DossierOf(s', k).exhaustions == DossierOf(s, k).exhaustions
    ensures DossierOf(s', k).claims == DossierOf(s, k).claims
    ensures DossierOf(s', k).executions == DossierOf(s, k).executions
  {
    MovedPath(s.db.log, j, before, after, e, s'.db.log, k);
    MovedExhaustions(s.db.log, j, before, after, e, s'.db.log, k);
  }

  lemma MoveStep(cfg: Config, s: System, j: string, after: Job, e: Event, s': System)
    requires EngineOk(cfg, s) && j in s.db.jobs
    requires IsMove(s.db.jobs[j], after) && Announces(e, j, s.db.jobs[j], after)
    requires s'.db == Put(s.db, j, after, e) && s'.history == s.history
    requires forall k: string ::
               TotalOpenClaims(s'.actors, k) + (if k == j && IsReverification(s.db.jobs[j], after) then 1 else 0)
               <= TotalOpenClaims(s.actors, k)
    requires forall k: string :: TotalAboutToExecute(s'.actors, k) <= TotalAboutToExecute(s.actors, k)
    requires after.state.Succeeded? ==> Proven(s.history, j, after.result)
    requires after.state.Cancelled? ==> s.db.jobs[j].state.Queued? || Contains(s.history, CancelNote(j, CancelDone))
    requires ActorsOk(s')
    ensures EngineOk(cfg, s')
  {
    forall k: string ensures IdOk(cfg, s', k) {
      assert IdOk(cfg, s, k);
      MovedIdOk(cfg, s, j, after, e, s', k);
    }
    KeysKept(s.db.jobs, j, after);
    AnnouncedReplay(s.db, j, after, e);
  }

  lemma MovedIdOk(cfg: Config, s: System, j: string, after: Job, e: Event, s': System, k: string)
    requires IdOk(cfg, s, k) && j in s.db.jobs
    requires IsMove(s.db.jobs[j], after) && Announces(e, j, s.db.jobs[j], after)
    requires s'.db == Put(s.db, j, after, e) && s'.history == s.history
    requires TotalOpenClaims(s'.actors, k) + (if k == j && IsReverification(s.db.jobs[j], after) then 1 else 0)
             <= TotalOpenClaims(s.actors, k)
    requires TotalAboutToExecute(s'.actors, k) <= TotalAboutToExecute(s.actors, k)
    requires after.state.Succeeded? ==> Proven(s.history, j, after.result)
    requires after.state.Cancelled? ==> s.db.jobs[j].state.Queued? || Contains(s.history, CancelNote(j, CancelDone))
    ensures IdOk(cfg, s', k)
  {
    if k == j {
      MovedDossier(s, j, s.db.jobs[j], after, e, s', j);
      MovedJobOk(cfg.maxAttempts, s.history, j, s.db.jobs[j], after, DossierOf(s, j), DossierOf(s', j));
    } else {
      OthersIdOk(cfg, s, j, s.db.jobs[j], after, e, s', k);
    }
  }

  lemma OthersIdOk(cfg: Config, s: System, j: string, before: Job, after: Job, e: Event, s': System, k: string)
    requires IdOk(cfg, s, k) && k != j && Announces(e, j, before, after)
    requires s'.db == Put(s.db, j, after, e) && s'.history == s.history
    requires TotalOpenClaims(s'.actors, k) <= TotalOpenClaims(s.actors, k)
    requires TotalAboutToExecute(s'.actors, k) <= TotalAboutToExecute(s.actors, k)
    ensures IdOk(cfg, s', k)
  {
    MovedDossier(s, j, before, after, e, s', k);
    if k in s.db.jobs {
      FewerClaimsOk(cfg.maxAttempts, s.history, k, s.db.jobs[k], DossierOf(s, k), DossierOf(s', k));
    }
  }

  lemma KeysKept(jobs: map<string, Job>, j: string, after: Job)
    requires KeysUnique(jobs) && j in jobs && after.key == jobs[j].key
    ensures KeysUnique(jobs[j := after])
  {
    var jobs' := jobs[j := after];
    forall m: string, n: string ensures KeysDiffer(jobs', m, n) { assert KeysDiffer(jobs, m, n); }
  }

  lemma MovedJobOk(max: nat, h: seq<Note>, j: string, before: Job, after: Job, d: Dossier, d': Dossier)
    requires JobOk(max, h, j, before, d) && IsMove(before, after)
    requires d'.path == d.path + [after.state] && d'.exhaustions == d.exhaustions
    requires d'.openClaims + (if IsReverification(before, after) then 1 else 0) <= d.openClaims
    requires d'.aboutToExecute <= d.aboutToExecute
    requires d'.claims == d.claims && d'.executions == d.executions
    requires after.state.Succeeded? ==> Proven(h, j, after.result)
    requires after.state.Cancelled? ==> before.state.Queued? || Contains(h, CancelNote(j, CancelDone))
    ensures JobOk(max, h, j, after, d')
  {
    WalkAppend(d.path, after.state);
    ReverificationsAppend(d.path, after.state);
    assert Running in d'.path <==> Running in d.path;
    if before.state.Queued? {
      WalkIsBounded(d.path);
      assert d.path == [Queued];
    }
  }

  /** A job may be moved without any actor noticing. */
  lemma SilentMove(cfg: Config, s: System, j: string, after: Job, e: Event)
    requires EngineOk(cfg, s) && j in s.db.jobs
    requires IsMove(s.db.jobs[j], after) && Announces(e, j, s.db.jobs[j], after)
    requires after.state.UnknownOutcome? || after.state.Expired?
    ensures EngineOk(cfg, s.(db := Put(s.db, j, after, e)))
  {
    MoveStep(cfg, s, j, after, e, s.(db := Put(s.db, j, after, e)));
  }

  /** The actor that moves a job, going on as `a`. */
  lemma ActorMove(cfg: Config, s: System, i: nat, a: Actor, j: string, after: Job, e: Event, s': System)
    requires EngineOk(cfg, s) && j in s.db.jobs && i < |s.actors|
    requires IsMove(s.db.jobs[j], after) && Announces(e, j, s.db.jobs[j], after)
    requires s'.db == Put(s.db, j, after, e) && s'.history == s.history && s'.actors == s.actors[i := a]
    requires forall k: string ::
               OpenClaims(a, k) + (if k == j && IsReverification(s.db.jobs[j], after) then 1 else 0)
               <= OpenClaims(s.actors[i], k)
    requires !a.Claimed? && ActorOk(s.history, a)
    requires after.state.Succeeded? ==> Proven(s.history, j, after.result)
    requires after.state.Cancelled? ==> s.db.jobs[j].state.Queued? || Contains(s.history, CancelNote(j, CancelDone))
    ensures EngineOk(cfg, s')
  {
    forall k: string
      ensures TotalOpenClaims(s'.actors, k) + (if k == j && IsReverification(s.db.jobs[j], after) then 1 else 0)
              <= TotalOpenClaims(s.actors, k)
      ensures TotalAboutToExecute(s'.actors, k) <= TotalAboutToExecute(s.actors, k)
    {
      TotalsUpdate(s.actors, i, a, k);
    }
    assert s'.history == s.history + [];
    ActorsKept(s, i, a, [], s');
    MoveStep(cfg, s, j, after, e, s');
  }

  /** `transition_job` by an actor: a move when it succeeds, nothing when it raises. */
  lemma TransitionStep(cfg: Config, s: System, i: nat, a: Actor, j: string, target: JobState,
                       result: Option<ResultDoc>, error: Option<JobError>, fence: Option<string>,
                       expected: Option<JobState>, now: DateTime, s': System)
    requires EngineOk(cfg, s) && i < |s.actors|
    requires target != Running
    requires var (db, r) := TransitionJob(s.db, j, target, result, error, fence, expected, now);
             s' == Become(s, i, a).(db := db)
    requires !a.Claimed? && ActorOk(s.history, a)
    requires forall k: string :: OpenClaims(a, k) <= OpenClaims(s.actors[i], k)
    requires target == Verifying && fence.None? ==> OpenClaims(a, j) + 1 <= OpenClaims(s.actors[i], j)
    requires target == Succeeded ==> Proven(s.history, j, result)
    requires target == Cancelled ==> expected == Some(Queued) || Contains(s.history, CancelNote(j, CancelDone))
    ensures EngineOk(cfg, s')
  {
    var (db, r) := TransitionJob(s.db, j, target, result, error, fence, expected, now);
    if r.Success? {
      assert IdOk(cfg, s, j);
      var after := Moved(s.db.jobs[j], target, result, error, now);
      ActorMove(cfg, s, i, a, j, after, JobMoved(j, target, result, error), s');
    } else {
      assert s'.history == s.history + [];
      LocalStep(cfg, s, i, a, [], s');
    }
  }

  // ---------- a worker claims a job ----------

  lemma ClaimStep(cfg: Config, s: System, i: nat, j: string, worker: string, token: string,
                  until: DateTime, now: DateTime, s': System)
    requires EngineOk(cfg, s) && i < |s.actors| && s.actors[i].Idle?
    requires j in s.db.jobs && s.db.jobs[j].state.Queued?
    requires s' == Become(s, i, Claimed(j, token)).(db := ClaimJob(s.db, j, worker, token, until, now),
                                                    history := s.history + [ClaimNote(j, token)])
    ensures EngineOk(cfg, s')
  {
    var e, n := JobRunning(j, worker), ClaimNote(j, token);
    forall k: string ensures IdOk(cfg, s', k) {
      assert IdOk(cfg, s, k);
      ClaimDossier(s, i, j, worker, token, s', k);
      if k == j { ClaimedJobOk(cfg.maxAttempts, s.history, j, s.db.jobs[j], worker, token, until, now, DossierOf(s, j)); }
      else if k in s.db.jobs { EvidenceKept(s.history, [n], k, s.db.jobs[k], DossierOf(s, k), DossierOf(s', k)); }
    }
    KeysKept(s.db.jobs, j, s'.db.jobs[j]);
    ActorsKept(s, i, Claimed(j, token), [n], s');
    ReplayAppend(s.db.log, e);
    assert Table(s.db.jobs)[j := Rebuilt(s'.db.jobs[j])] == Table(s'.db.jobs);
  }

  lemma ClaimPath(log: seq<Event>, j: string, worker: string, log': seq<Event>, k: string)
    requires log' == log + [JobRunning(j, worker)]
    ensures Path(log', k) == Path(log, k) + if k == j then [Running] else []
  {
    EventPath(log, JobRunning(j, worker), log', k);
  }

  lemma ClaimNotes(h: seq<Note>, j: string, token: string, h': seq<Note>, k: string)
    requires h' == h + [ClaimNote(j, token)]
    ensures Claims(h', k) == Claims(h, k) + (if k == j then 1 else 0) && Executions(h', k) == Executions(h, k)
  {
    NotesAppend(h, ClaimNote(j, token), k);
  }

  lemma ClaimTotals(actors: seq<Actor>, i: nat, j: string, token: string, k: string)
    requires i < |actors| && actors[i].Idle?
    ensures var actors' := actors[i := Claimed(j, token)];
            && TotalOpenClaims(actors', k) == TotalOpenClaims(actors, k)
            && TotalAboutToExecute(actors', k) == TotalAboutToExecute(actors, k) + if k == j then 1 else 0
  {
    TotalsUpdate(actors, i, Claimed(j, token), k);
  }

  lemma ClaimDossier(s: System, i: nat, j: string, worker: string, token: string, s': System, k: string)
    requires i < |s.actors| && s.actors[i].Idle?
    requires s'.actors == s.actors[i := Claimed(j, token)]
    requires s'.db.log == s.db.log + [JobRunning(j, worker)] && s'.history == s.history + [ClaimNote(j, token)]
    ensures var d := DossierOf(s, k);
            DossierOf(s', k) == if k == j then d.(path := d.path + [Running], aboutToExecute := d.aboutToExecute + 1,
                                                  claims := d.claims + 1)
                                else d
  {
    ClaimPath(s.db.log, j, worker, s'.db.log, k);
    EventExhaustions(s.db.log, JobRunning(j, worker), s'.db.log, k);
    ClaimNotes(s.history, j, token, s'.history, k);
    ClaimTotals(s.actors, i, j, token, k);
  }

  lemma ClaimedJobOk(max: nat, h: seq<Note>, j: string, job: Job, worker: string, token: string,
                     until: DateTime, now: DateTime, d: Dossier)
    requires JobOk(max, h, j, job, d) && job.state.Queued?
    ensures JobOk(max, h + [ClaimNote(j, token)], j, Leased(job, worker, token, until, now),
                  d.(path := d.path + [Running], aboutToExecute := d.aboutToExecute + 1, claims := d.claims + 1))
  {
    WalkIsBounded(d.path);
    assert d.path == [Queued];
    WalkAppend(d.path, Running);
    ReverificationsAppend(d.path, Running);
    ContainsGrows(h, ClaimNote(j, token), ClaimNote(j, token));
    assert (d.path + [Running])[1] == Running;
  }

  lemma RenewStep(cfg: Config, s: System, i: nat, until: DateTime, now: DateTime, s': System)
    requires EngineOk(cfg, s) && i < |s.actors|
    requires StepRenew(cfg, s, i, until, now, s')
    ensures EngineOk(cfg, s')
  {
    var a := s.actors[i];
    var a' := Observing(a.job, a.fence, a.execution);
    var s1 := Become(s, i, a');
    assert s1.history == s.history + [];
    LocalStep(cfg, s, i, a', [], s1);
    assert s'.db.log == s1.db.log && s'.actors == s1.actors && s'.history == s1.history;
    forall k: string ensures IdOk(cfg, s', k) {
      assert IdOk(cfg, s1, k);
      assert DossierOf(s', k) == DossierOf(s1, k);
    }
    if a.job in s.db.jobs {
      KeysKept(s.db.jobs, a.job, s'.db.jobs[a.job]);
      SameTable(s.db.jobs, a.job, s'.db.jobs[a.job]);
    }
  }

  lemma SameTable(jobs: map<string, Job>, j: string, after: Job)
    requires j in jobs && Rebuilt(after) == Rebuilt(jobs[j])
    ensures Table(jobs[j := after]) == Table(jobs)
  {
  }

  // ---------- a handler creates a job ----------

  lemma InsertStep(cfg: Config, s: System, i: nat, id: string, r: ActionRequest, subject: Subject,
                   now: DateTime, s': System)
    requires EngineOk(cfg, s) && i < |s.actors| && s.actors[i].Creating?
    requires id !in s.db.jobs && FoundByKey(s.db, r.idempotencyKey, None)
    requires s'.db == CreateJob(cfg, s.db, None, id, r, subject, now).0
    requires s'.actors == s.actors[i := Idle] && s'.history == s.history
    ensures EngineOk(cfg, s')
  {
    var job := NewJob(cfg, r, subject, now);
    var e := JobQueued(id, job.digest, subject);
    forall k: string ensures IdOk(cfg, s', k) {
      assert IdOk(cfg, s, k);
      InsertedIdOk(cfg, s, i, id, r, subject, now, s', k);
    }
    KeysGrow(s.db.jobs, id, job);
    assert s'.history == s.history + [];
    ActorsKept(s, i, Idle, [], s');
    ReplayAppend(s.db.log, e);
    assert Table(s.db.jobs)[id := Rebuilt(job)] == Table(s'.db.jobs);
  }

  lemma InsertedIdOk(cfg: Config, s: System, i: nat, id: string, r: ActionRequest, subject: Subject,
                     now: DateTime, s': System, k: string)
    requires IdOk(cfg, s, k) && i < |s.actors| && s.actors[i].Creating?
    requires id !in s.db.jobs
    requires var job := NewJob(cfg, r, subject, now);
             s'.db == Put(s.db, id, job, JobQueued(id, job.digest, subject))
    requires s'.actors == s.actors[i := Idle] && s'.history == s.history
    ensures IdOk(cfg, s', k)
  {
    var job := NewJob(cfg, r, subject, now);
    if k == id {
      InsertedDossier(s, i, id, job, s', id);
      NewJobOk(cfg, s.history, id, r, subject, now);
    } else {
      EarlierIdOk(cfg, s, i, id, job, s', k);
    }
  }

  lemma EarlierIdOk(cfg: Config, s: System, i: nat, id: string, job: Job, s': System, k: string)
    requires IdOk(cfg, s, k) && i < |s.actors| && s.actors[i].Creating? && k != id
    requires s'.db == Put(s.db, id, job, JobQueued(id, job.digest, job.subject))
    requires s'.actors == s.actors[i := Idle] && s'.history == s.history
    ensures IdOk(cfg, s', k)
  {
    InsertedDossier(s, i, id, job, s', k);
  }

  lemma InsertedTotals(actors: seq<Actor>, i: nat, k: string)
    requires i < |actors| && actors[i].Creating?
    ensures TotalOpenClaims(actors[i := Idle], k) == TotalOpenClaims(actors, k)
    ensures TotalAboutToExecute(actors[i := Idle], k) == TotalAboutToExecute(actors, k)
  {
    TotalsUpdate(actors, i, Idle, k);
  }

  lemma InsertedDossier(s: System, i: nat, id: string, job: Job, s': System, k: string)
    requires i < |s.actors| && s.actors[i].Creating?
    requires s'.db.log == s.db.log + [JobQueued(id, job.digest, job.subject)]
    requires s'.actors == s.actors[i := Idle] && s'.history == s.history
    ensures DossierOf(s', k) == if k == id then DossierOf(s, k).(path := Path(s.db.log, k) + [Queued]) else DossierOf(s, k)
  {
    InsertedPath(s.db.log, id, job, s'.db.log, k);
    EventExhaustions(s.db.log, JobQueued(id, job.digest, job.subject), s'.db.log, k);
    InsertedTotals(s.actors, i, k);
  }

  lemma InsertedPath(log: seq<Event>, id: string, job: Job, log': seq<Event>, k: string)
    requires log' == log + [JobQueued(id, job.digest, job.subject)]
    ensures Path(log', k) == if k == id then Path(log, k) + [Queued] else Path(log, k)
  {
    EventPath(log, JobQueued(id, job.digest, job.subject), log', k);
  }

  lemma NewJobOk(cfg: Config, h: seq<Note>, id: string, r: ActionRequest, subject: Subject, now: DateTime)
    ensures JobOk(cfg.maxAttempts, h, id, NewJob(cfg, r, subject, now), EMPTY_DOSSIER.(path := [Queued]))
  {
  }

  lemma KeysGrow(jobs: map<string, Job>, id: string, job: Job)
    requires KeysUnique(jobs) && id !in jobs && forall j | j in jobs :: jobs[j].key != job.key
    ensures KeysUnique(jobs[id := job])
  {
    var jobs' := jobs[id := job];
    forall m: string, n: string ensures KeysDiffer(jobs', m, n) { assert KeysDiffer(jobs, m, n); }
  }

  // ---------- transactions over several rows ----------

  lemma {:induction false} ExpiryTouchesRows(db: Db, rows: seq<string>, now: DateTime, k: string)
    requires (forall j | j in rows :: j in db.jobs) && k in db.jobs && k !in rows
    ensures ExpireLeases(db, rows, now).jobs[k] == db.jobs[k]
    ensures ExpireStaleQueued(db, rows, now).jobs[k] == db.jobs[k]
  {
    if rows != [] { ExpiryTouchesRows(db, rows[..|rows| - 1], now, k); }
  }

  lemma ExpireLeaseOk(cfg: Config, s: System, j: string, now: DateTime)
    requires EngineOk(cfg, s) && j in s.db.jobs
    requires s.db.jobs[j].state.Running? || s.db.jobs[j].state.Verifying?
    ensures EngineOk(cfg, s.(db := ExpireLease(s.db, j, now)))
  {
    var after := Unleased(s.db.jobs[j]).(state := UnknownOutcome, error := Some(LEASE_EXPIRED_ERROR), updatedAt := now);
    SilentMove(cfg, s, j, after, LeaseExpired(j));
  }

  lemma {:induction false} ExpireLeasesOk(cfg: Config, s: System, rows: seq<string>, now: DateTime)
    requires EngineOk(cfg, s) && Distinct(rows)
    requires forall j | j in rows :: j in s.db.jobs && (s.db.jobs[j].state.Running? || s.db.jobs[j].state.Verifying?)
    ensures EngineOk(cfg, s.(db := ExpireLeases(s.db, rows, now)))
  {
    if rows != [] {
      var front, j := rows[..|rows| - 1], rows[|rows| - 1];
      ExpireLeasesOk(cfg, s, front, now);
      ExpiryTouchesRows(s.db, front, now, j);
      ExpireLeaseOk(cfg, s.(db := ExpireLeases(s.db, front, now)), j, now);
    } else {
      assert s.(db := ExpireLeases(s.db, rows, now)) == s;
    }
  }

  lemma ExpireQueuedOk(cfg: Config, s: System, j: string, now: DateTime)
    requires EngineOk(cfg, s) && j in s.db.jobs && s.db.jobs[j].state.Queued?
    ensures EngineOk(cfg, s.(db := ExpireQueued(s.db, j, now)))
  {
    SilentMove(cfg, s, j, Unleased(s.db.jobs[j]).(state := Expired, updatedAt := now), QueueExpired(j));
  }

  lemma {:induction false} ExpireQueueOk(cfg: Config, s: System, rows: seq<string>, now: DateTime)
    requires EngineOk(cfg, s) && Distinct(rows)
    requires forall j | j in rows :: j in s.db.jobs && s.db.jobs[j].state.Queued?
    ensures EngineOk(cfg, s.(db := ExpireStaleQueued(s.db, rows, now)))
  {
    if rows != [] {
      var front, j := rows[..|rows| - 1], rows[|rows| - 1];
      ExpireQueueOk(cfg, s, front, now);
      ExpiryTouchesRows(s.db, front, now, j);
      ExpireQueuedOk(cfg, s.(db := ExpireStaleQueued(s.db, front, now)), j, now);
    } else {
      assert s.(db := ExpireStaleQueued(s.db, rows, now)) == s;
    }
  }

  lemma {:induction false} CandidatesTouchRows(db: Db, rows: seq<string>, max: nat, k: string)
    requires (forall j | j in rows :: j in db.jobs) && k in db.jobs && k !in rows
    ensures ClaimCandidates(db, rows, max).0.jobs[k] == db.jobs[k]
  {
    if rows != [] { CandidatesTouchRows(db, rows[..|rows| - 1], max, k); }
  }

  /** Claiming one candidate: one more attempt on the row, one more entry on the reconciler's list. */
  lemma CandidateStep(cfg: Config, s: System, i: nat, views: seq<JobView>, j: string, s': System)
    requires EngineOk(cfg, s) && i < |s.actors| && s.actors[i] == Reconciling(views)
    requires j in s.db.jobs && s.db.jobs[j].state.UnknownOutcome? && s.db.jobs[j].attempts < cfg.maxAttempts
    requires s' == Become(s, i, Reconciling(views + [View(j, s.db.jobs[j])])).(
                     db := ClaimCandidate(s.db, j, cfg.maxAttempts))
    ensures EngineOk(cfg, s')
  {
    forall k: string ensures IdOk(cfg, s', k) {
      assert IdOk(cfg, s, k);
      CandidateJobOk(cfg, s, i, views, j, s', k);
    }
    KeysKept(s.db.jobs, j, s'.db.jobs[j]);
    assert s'.history == s.history + [];
    ActorsKept(s, i, s'.actors[i], [], s');
    CandidateReplay(s.db, j, cfg.maxAttempts);
  }

  lemma CandidateReplay(db: Db, j: string, max: nat)
    requires ReplayOk(db) && j in db.jobs
    ensures ReplayOk(ClaimCandidate(db, j, max))
  {
    var job, db' := db.jobs[j], ClaimCandidate(db, j, max);
    SameTable(db.jobs, j, job.(attempts := job.attempts + 1));
    if job.attempts + 1 == max { ReplayAppend(db.log, ReconcileExhausted(j, max)); }
    assert Replay(db'.log) == Replay(db.log);
  }

  lemma CandidateJobOk(cfg: Config, s: System, i: nat, views: seq<JobView>, j: string, s': System, k: string)
    requires IdOk(cfg, s, k) && i < |s.actors| && s.actors[i] == Reconciling(views)
    requires j in s.db.jobs && s.db.jobs[j].state.UnknownOutcome? && s.db.jobs[j].attempts < cfg.maxAttempts
    requires s' == Become(s, i, Reconciling(views + [View(j, s.db.jobs[j])])).(
                     db := ClaimCandidate(s.db, j, cfg.maxAttempts))
    ensures IdOk(cfg, s', k)
  {
    CandidatePath(s.db, j, cfg.maxAttempts, s'.db.log, k);
    CandidateExhaustions(s.db, j, cfg.maxAttempts, s'.db.log, k);
    CandidateDossier(s, i, views, View(j, s.db.jobs[j]), s', k);
  }

  lemma CandidateDossier(s: System, i: nat, views: seq<JobView>, v: JobView, s': System, k: string)
    requires i < |s.actors| && s.actors[i] == Reconciling(views)
    requires s'.actors == s.actors[i := Reconciling(views + [v])] && s'.history == s.history
    ensures var d, d' := DossierOf(s, k), DossierOf(s', k);
            && d'.openClaims == d.openClaims + (if v.id == k then 1 else 0)
            && d'.aboutToExecute == d.aboutToExecute && d'.claims == d.claims && d'.executions == d.executions
  {
    CandidateTotals(s.actors, i, views, v, k);
  }

  lemma CandidatePath(db: Db, j: string, max: nat, log': seq<Event>, k: string)
    requires j in db.jobs && log' == ClaimCandidate(db, j, max).log
    ensures Path(log', k) == Path(db.log, k)
  {
    var n := db.jobs[j].attempts + 1;
    if n == max { EventPath(db.log, ReconcileExhausted(j, n), log', k); }
  }

  lemma CandidateExhaustions(db: Db, j: string, max: nat, log': seq<Event>, k: string)
    requires j in db.jobs && log' == ClaimCandidate(db, j, max).log
    ensures Exhaustions(log', k) == Exhaustions(db.log, k) + if k == j && db.jobs[j].attempts + 1 == max then 1 else 0
  {
    var n := db.jobs[j].attempts + 1;
    if n == max { EventExhaustions(db.log, ReconcileExhausted(j, n), log', k); }
  }

  lemma CandidateTotals(actors: seq<Actor>, i: nat, views: seq<JobView>, v: JobView, k: string)
    requires i < |actors| && actors[i] == Reconciling(views)
    ensures var actors' := actors[i := Reconciling(views + [v])];
            && TotalOpenClaims(actors', k) == TotalOpenClaims(actors, k) + (if v.id == k then 1 else 0)
            && TotalAboutToExecute(actors', k) == TotalAboutToExecute(actors, k)
  {
    TotalsUpdate(actors, i, Reconciling(views + [v]), k);
    MentionsAppend(views, v, k);
  }

  lemma {:induction false} CandidatesOk(cfg: Config, s: System, i: nat, rows: seq<string>)
    requires EngineOk(cfg, s) && i < |s.actors| && s.actors[i].Swept? && Distinct(rows)
    requires forall j | j in rows :: j in s.db.jobs && s.db.jobs[j].state.UnknownOutcome?
    ensures var (db, views) := ClaimCandidates(s.db, rows, cfg.maxAttempts);
            EngineOk(cfg, Become(s, i, Reconciling(views)).(db := db))
  {
    if rows == [] {
      var s' := Become(s, i, Reconciling([]));
      assert s'.history == s.history + [];
      LocalStep(cfg, s, i, Reconciling([]), [], s');
      assert s' == Become(s, i, Reconciling([])).(db := s.db);
    } else {
      var front, j := rows[..|rows| - 1], rows[|rows| - 1];
      CandidatesOk(cfg, s, i, front);
      var (db1, views1) := ClaimCandidates(s.db, front, cfg.maxAttempts);
      var s1 := Become(s, i, Reconciling(views1)).(db := db1);
      CandidatesTouchRows(s.db, front, cfg.maxAttempts, j);
      var (db, views) := ClaimCandidates(s.db, rows, cfg.maxAttempts);
      var s' := Become(s, i, Reconciling(views)).(db := db);
      if db1.jobs[j].attempts < cfg.maxAttempts {
        assert s'.actors == s1.actors[i := Reconciling(views)];
        CandidateStep(cfg, s1, i, views1, j, s');
      } else {
        assert s' == s1;
      }
    }
  }
}
