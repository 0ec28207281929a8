/** A job between two claims that nobody has in hand keeps its row. */
module Attendance {
  import opened Models
  import opened Clock
  import opened JobStore
  import opened Engine
  import opened EngineInvariant
  import opened EngineTheorems
  import opened Evidence

  /** The actor is in the middle of a pass that will write to `j`, or of a cancellation that may. */
  predicate Tends(a: Actor, j: string) {
    || ((a.ReObserving? || a.ReVerifying? || a.Settling?) && a.view.id == j)
    || ((a.CancelQueued? || a.CancelCalling?) && a.view.id == j)
    || (a.CancelRefresh? && a.job == j)
    || (a.CancelApplying? && a.view.id == j && CancelTarget(a.view, a.reply).Some?)
  }

  /** The reconciler has claimed `j` and not begun with it. */
  predicate Lists(a: Actor, j: string) {
    (a.Reconciling? || a.ReObserving? || a.ReVerifying? || a.Settling?) && Offered(a.todo, j)
  }

  /** A listed job is in hand only while a reconciliation can begin on it. */
  predicate InHand(a: Actor, state: JobState, j: string) {
    Tends(a, j) || (state.UnknownOutcome? && Lists(a, j))
  }

  predicate NotInHand(actors: seq<Actor>, state: JobState, j: string) {
    forall a | a in actors :: !InHand(a, state, j)
  }

  /** VERIFYING or UNKNOWN_OUTCOME, no lease, and in nobody's hands. */
  predicate Unattended(s: System, j: string) {
    && j in s.db.jobs && s.db.jobs[j].leaseToken.None?
    && (s.db.jobs[j].state.Verifying? || s.db.jobs[j].state.UnknownOutcome?)
    && NotInHand(s.actors, s.db.jobs[j].state, j)
  }

  predicate AsksToCancel(l: Label, j: string) {
    l.ReadForCancel? && l.job == j
  }

  /** The step hands `j` to a reconciler. */
  predicate Offers(cfg: Config, s: System, l: Label, j: string) {
    l.TakeCandidates? && j in l.rows && j in s.db.jobs && s.db.jobs[j].attempts < cfg.maxAttempts
  }

  // ---------- the row ----------

  /** A fence does not match a row without a lease. */
  lemma FencedIsRefused(db: Db, k: string, target: JobState, result: Option<ResultDoc>, error: Option<JobError>,
                        fence: string, now: DateTime, j: string)
    requires j in db.jobs && db.jobs[j].leaseToken.None?
    ensures var db' := TransitionJob(db, k, target, result, error, Some(fence), None, now).0;
            j in db'.jobs && db'.jobs[j] == db.jobs[j]
  {
  }

  lemma SettleRows(s: System, i: nat, now: DateTime, s': System, j: string)
    requires Unattended(s, j) && i < |s.actors| && StepSettle(s, i, now, s')
    ensures j in s'.db.jobs && s'.db.jobs[j] == s.db.jobs[j]
  {
    var a := s.actors[i];
    assert a in s.actors && !Tends(a, j);
    match a
    case Succeeding(k, fence, ex, o, v) =>
      FencedIsRefused(s.db, k, Succeeded, Some(WithEvidence(EMPTY_RESULT.(execution := Some(ex)), o, v)), None, fence, now, j);
    case Failing(k, fence, e) =>
      FencedIsRefused(s.db, k, if e.reconciliationRequired then UnknownOutcome else Failed, None, Some(e), fence, now, j);
    case _ =>
  }

  lemma WorkerRows(cfg: Config, s: System, l: Label, s': System, j: string)
    requires Unattended(s, j) && IsWorkerLabel(l) && WorkerStep(cfg, s, l, s')
    ensures j in s'.db.jobs && s'.db.jobs[j] == s.db.jobs[j]
  {
    match l
    case Settle(i, now) => SettleRows(s, i, now, s', j);
    case MarkVerifying(i, now) =>
      var a := s.actors[i];
      FencedIsRefused(s.db, a.job, Verifying, Some(EMPTY_RESULT.(execution := Some(a.execution))), None, a.fence, now, j);
    case _ =>
  }

  lemma SweepRows(s: System, i: nat, rows: seq<string>, now: DateTime, s': System, j: string)
    requires Unattended(s, j) && LeaseOk(s.db.jobs[j]) && i < |s.actors| && StepSweep(s, i, rows, now, s')
    ensures j in s'.db.jobs && s'.db.jobs[j] == s.db.jobs[j]
  {
    ExpiryTouchesRows(s.db, rows, now, j);
  }

  /** A row that is not offered is not counted either. */
  lemma TakeRows(cfg: Config, s: System, i: nat, rows: seq<string>, s': System, j: string)
    requires j in s.db.jobs && i < |s.actors| && StepTakeCandidates(cfg, s, i, rows, s')
    requires !Offers(cfg, s, TakeCandidates(i, rows), j)
    ensures j in s'.db.jobs && s'.db.jobs[j] == s.db.jobs[j]
    ensures s'.actors[i].Reconciling? && !Offered(s'.actors[i].todo, j)
  {
    BudgetDecidesOffers(s.db, rows, cfg.maxAttempts, j);
  }

  lemma BeginRows(s: System, i: nat, now: DateTime, s': System, j: string)
    requires Unattended(s, j) && i < |s.actors| && StepBeginReconcile(s, i, now, s')
    ensures j in s'.db.jobs && s'.db.jobs[j] == s.db.jobs[j]
  {
    var a := s.actors[i];
    assert a in s.actors;
    if a.todo != [] && a.todo[0].id == j { assert Offered(a.todo, j); }
  }

  lemma ApplyRows(s: System, i: nat, now: DateTime, s': System, j: string)
    requires Unattended(s, j) && i < |s.actors| && StepApplyCancel(s, i, now, s')
    ensures j in s'.db.jobs && s'.db.jobs[j] == s.db.jobs[j]
  {
    assert s.actors[i] in s.actors;
    CancelWriteIsTransition(s.db, s.actors[i].view, s.actors[i].reply, now);
  }

  lemma CompareRows(s: System, i: nat, now: DateTime, s': System, j: string)
    requires Unattended(s, j) && i < |s.actors| && StepCompareAndCancel(s, i, now, s')
    ensures j in s'.db.jobs && s'.db.jobs[j] == s.db.jobs[j]
  {
  }

  lemma QueueRows(s: System, rows: seq<string>, cutoff: DateTime, now: DateTime, s': System, j: string)
    requires Unattended(s, j) && StepExpireQueue(s, rows, cutoff, now, s')
    ensures j in s'.db.jobs && s'.db.jobs[j] == s.db.jobs[j]
  {
    ExpiryTouchesRows(s.db, rows, now, j);
  }

  lemma RecoveryRows(cfg: Config, s: System, l: Label, s': System, j: string)
    requires Unattended(s, j) && LeaseOk(s.db.jobs[j]) && !Offers(cfg, s, l, j)
    requires !IsWorkerLabel(l) && !IsApiLabel(l) && RecoveryStep(cfg, s, l, s')
    ensures j in s'.db.jobs && s'.db.jobs[j] == s.db.jobs[j]
  {
    match l
    case Sweep(i, rows, now) => SweepRows(s, i, rows, now, s', j);
    case TakeCandidates(i, rows) => TakeRows(cfg, s, i, rows, s', j);
    case BeginReconcile(i, now) => BeginRows(s, i, now, s', j);
    case CompareAndCancel(i, now) => CompareRows(s, i, now, s', j);
    case ApplyCancel(i, now) => ApplyRows(s, i, now, s', j);
    case ExpireQueue(rows, cutoff, now) => QueueRows(s, rows, cutoff, now, s', j);
    case _ =>
  }

  // ---------- the actors ----------

  /** The step leaves the other actors alone, and actor `i` does not take up `j`. */
  predicate NotTakenUp(s: System, s': System, i: nat, state: JobState, j: string)
    requires i < |s.actors|
  {
    |s'.actors| == |s.actors| && s'.actors == s.actors[i := s'.actors[i]] && !InHand(s'.actors[i], state, j)
  }

  lemma StaysOutOfHand(s: System, s': System, i: nat, state: JobState, j: string)
    requires NotInHand(s.actors, state, j) && i < |s.actors| && NotTakenUp(s, s', i, state, j)
    ensures NotInHand(s'.actors, state, j)
  {
    forall b | b in s'.actors ensures !InHand(b, state, j) { if b != s'.actors[i] { assert b in s.actors; } }
  }

  /** An actor whose place names no job of a reconciler or a canceller has none in hand. */
  lemma EmptyHanded(s: System, s': System, i: nat, a: Actor, state: JobState, j: string)
    requires i < |s.actors| && s'.actors == s.actors[i := a]
    requires HasFence(a) || a.Idle? || a.Swept? || a.Authorizing? || a.Creating?
    ensures NotTakenUp(s, s', i, state, j)
  {
  }

  lemma ObserveTaken(s: System, i: nat, reply: Reply<Observation>, s': System, state: JobState, j: string)
    requires NotInHand(s.actors, state, j) && i < |s.actors| && StepObserveReplies(s, i, reply, s')
    ensures NotTakenUp(s, s', i, state, j)
  {
    assert s.actors[i] in s.actors;
  }

  lemma VerifyTaken(s: System, i: nat, reply: Reply<Verification>, s': System, state: JobState, j: string)
    requires NotInHand(s.actors, state, j) && i < |s.actors| && StepVerifyReplies(s, i, reply, s')
    ensures NotTakenUp(s, s', i, state, j)
  {
    assert s.actors[i] in s.actors;
  }

  lemma ClaimTaken(cfg: Config, s: System, l: Label, s': System, state: JobState, j: string)
    requires NotInHand(s.actors, state, j) && l.Claim? && l.i < |s.actors|
    requires StepClaim(cfg, s, l.i, l.row, l.worker, l.token, l.until, l.now, s')
    ensures NotTakenUp(s, s', l.i, state, j)
  {
    assert s.actors[l.i] in s.actors;
  }

  lemma SettleTaken(s: System, i: nat, now: DateTime, s': System, state: JobState, j: string)
    requires NotInHand(s.actors, state, j) && i < |s.actors| && StepSettle(s, i, now, s')
    ensures NotTakenUp(s, s', i, state, j)
  {
    assert s.actors[i] in s.actors;
  }

  lemma WorkerTaken(cfg: Config, s: System, l: Label, s': System, state: JobState, j: string)
    requires NotInHand(s.actors, state, j) && IsWorkerLabel(l) && WorkerStep(cfg, s, l, s')
    ensures NotTakenUp(s, s', l.i, state, j)
  {
    if l.ObserveReplies? { ObserveTaken(s, l.i, l.observation, s', state, j); }
    else if l.VerifyReplies? { VerifyTaken(s, l.i, l.verification, s', state, j); }
    else if l.Settle? { SettleTaken(s, l.i, l.now, s', state, j); }
    else if l.Claim? { ClaimTaken(cfg, s, l, s', state, j); }
    else { EmptyHanded(s, s', l.i, s'.actors[l.i], state, j); }
  }

  lemma OfferedTail(todo: seq<JobView>, j: string)
    requires todo != []
    ensures Offered(todo, j) <==> todo[0].id == j || Offered(todo[1..], j)
  {
    if Offered(todo, j) {
      var i :| 0 <= i < |todo| && todo[i].id == j;
      assert i == 0 || todo[1..][i - 1].id == j;
    }
    if Offered(todo[1..], j) {
      var i :| 0 <= i < |todo| - 1 && todo[1..][i].id == j;
      assert todo[i + 1].id == j;
    }
  }

  lemma BeginTaken(s: System, i: nat, now: DateTime, s': System, j: string)
    requires Unattended(s, j) && i < |s.actors| && StepBeginReconcile(s, i, now, s')
    ensures NotTakenUp(s, s', i, s.db.jobs[j].state, j)
  {
    var a := s.actors[i];
    assert a in s.actors;
    if a.todo != [] { OfferedTail(a.todo, j); }
  }

  lemma TakeTaken(cfg: Config, s: System, i: nat, rows: seq<string>, s': System, j: string)
    requires j in s.db.jobs && i < |s.actors| && StepTakeCandidates(cfg, s, i, rows, s')
    requires !Offers(cfg, s, TakeCandidates(i, rows), j)
    ensures NotTakenUp(s, s', i, s.db.jobs[j].state, j)
  {
    TakeRows(cfg, s, i, rows, s', j);
  }

  lemma CompareTaken(s: System, i: nat, now: DateTime, s': System, state: JobState, j: string)
    requires NotInHand(s.actors, state, j) && i < |s.actors| && StepCompareAndCancel(s, i, now, s')
    ensures NotTakenUp(s, s', i, state, j)
  {
    assert s.actors[i] in s.actors;
  }

  lemma CancelTaken(s: System, i: nat, reply: Reply<Cancellation>, s': System, state: JobState, j: string)
    requires NotInHand(s.actors, state, j) && i < |s.actors|
    requires StepRefresh(s, i, s') || StepCancelReplies(s, i, reply, s')
    ensures NotTakenUp(s, s', i, state, j)
  {
    assert s.actors[i] in s.actors;
  }

  lemma ReadTaken(s: System, i: nat, k: string, subject: Subject, s': System, state: JobState, j: string)
    requires NotInHand(s.actors, state, j) && i < |s.actors| && StepReadForCancel(s, i, k, subject, s') && k != j
    ensures NotTakenUp(s, s', i, state, j)
  {
    assert s.actors[i] in s.actors;
  }

  lemma RecoveryTaken(cfg: Config, s: System, l: Label, s': System, j: string)
    requires Unattended(s, j) && !AsksToCancel(l, j) && !Offers(cfg, s, l, j)
    requires !IsWorkerLabel(l) && !IsApiLabel(l) && RecoveryStep(cfg, s, l, s')
    ensures s'.actors == s.actors || (!l.ExpireQueue? && NotTakenUp(s, s', l.i, s.db.jobs[j].state, j))
  {
    var state := s.db.jobs[j].state;
    match l
    case Sweep(i, rows, now) => EmptyHanded(s, s', i, Swept, state, j);
    case TakeCandidates(i, rows) => TakeTaken(cfg, s, i, rows, s', j);
    case BeginReconcile(i, now) => BeginTaken(s, i, now, s', j);
    case ReadForCancel(i, k, subject) => ReadTaken(s, i, k, subject, s', state, j);
    case CompareAndCancel(i, now) => CompareTaken(s, i, now, s', state, j);
    case Refresh(i) => CancelTaken(s, i, Returned(Cancellation(CancelDone, "")), s', state, j);
    case CancelReplies(i, reply) => CancelTaken(s, i, reply, s', state, j);
    case ApplyCancel(i, now) => EmptyHanded(s, s', i, Idle, state, j);
    case ExpireQueue(rows, cutoff, now) =>
  }

  lemma ApiUnattended(cfg: Config, s: System, l: Label, s': System, j: string)
    requires Unattended(s, j) && IsApiLabel(l) && ApiStep(cfg, s, l, s')
    ensures Unattended(s', j) && s'.db.jobs[j] == s.db.jobs[j]
  {
    ApiKeepsRows(cfg, s, l, s', j);
    ApiActors(cfg, s, l, s');
    if s'.actors != s.actors { StaysOutOfHand(s, s', l.i, s.db.jobs[j].state, j); }
  }

  /** A handler only ever becomes a handler or idle. */
  lemma ApiActors(cfg: Config, s: System, l: Label, s': System)
    requires IsApiLabel(l) && ApiStep(cfg, s, l, s')
    ensures s'.actors == s.actors
            || (!l.Plan? && !l.DropConfirmation? && l.i < |s.actors| && s'.actors == s.actors[l.i := s'.actors[l.i]]
                && (s'.actors[l.i].Idle? || s'.actors[l.i].Authorizing? || s'.actors[l.i].Creating?))
  {
  }

  /** Any step but a request to cancel it or an offer of it keeps the row, and nobody takes the job up. */
  lemma UnattendedStep(cfg: Config, s: System, l: Label, s': System, j: string)
    requires Unattended(s, j) && LeaseOk(s.db.jobs[j]) && Step(cfg, s, l, s')
    requires !AsksToCancel(l, j) && !Offers(cfg, s, l, j)
    ensures Unattended(s', j) && s'.db.jobs[j] == s.db.jobs[j]
  {
    var state := s.db.jobs[j].state;
    if IsWorkerLabel(l) {
      WorkerRows(cfg, s, l, s', j);
      WorkerTaken(cfg, s, l, s', state, j);
      StaysOutOfHand(s, s', l.i, state, j);
    } else if IsApiLabel(l) {
      ApiUnattended(cfg, s, l, s', j);
    } else {
      RecoveryRows(cfg, s, l, s', j);
      RecoveryTaken(cfg, s, l, s', j);
      if s'.actors != s.actors { StaysOutOfHand(s, s', l.i, state, j); }
    }
  }
}
