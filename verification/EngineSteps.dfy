/** Every step of every actor keeps the engine's invariant. */
module EngineSteps {
  import opened Models
  import opened Clock
  import opened JobStore
  import opened AuditReplay
  import opened Engine
  import opened EngineInvariant

  /** An actor changes place and nothing is noted. */
  lemma QuietStep(cfg: Config, s: System, i: nat, a: Actor, s': System)
    requires EngineOk(cfg, s) && i < |s.actors| && s' == Become(s, i, a)
    requires !a.Claimed? && ActorOk(s.history, a)
    requires forall j: string :: OpenClaims(a, j) <= OpenClaims(s.actors[i], j)
    ensures EngineOk(cfg, s')
  {
    assert s'.history == s.history + [];
    LocalStep(cfg, s, i, a, [], s');
  }

  /** An adapter replies: one note, which is neither a claim nor an execution. */
  lemma ReplyStep(cfg: Config, s: System, i: nat, a: Actor, n: Note, s': System)
    requires EngineOk(cfg, s) && i < |s.actors|
    requires s' == Become(s, i, a).(history := s.history + [n])
    requires !n.ClaimNote? && !n.ExecuteNote?
    requires !a.Claimed? && ActorOk(s.history + [n], a)
    requires forall j: string :: OpenClaims(a, j) <= OpenClaims(s.actors[i], j)
    ensures EngineOk(cfg, s')
  {
    LocalStep(cfg, s, i, a, [n], s');
  }

  /** The log gains an event about no job. */
  lemma AsideStep(cfg: Config, s: System, i: nat, a: Actor, e: Event, s': System)
    requires EngineOk(cfg, s) && i < |s.actors|
    requires s'.db.jobs == s.db.jobs && s'.db.log == s.db.log + [e]
    requires s'.actors == s.actors[i := a] && s'.history == s.history
    requires IsAside(e) && !a.Claimed? && ActorOk(s.history, a)
    requires forall j: string :: OpenClaims(a, j) <= OpenClaims(s.actors[i], j)
    ensures EngineOk(cfg, s')
  {
    AsideEvent(s.db.log, e);
    assert s'.history == s.history + [];
    LocalStep(cfg, s, i, a, [], s');
  }

  predicate IsAside(e: Event) {
    e.ConfirmationCreated? || e.ConfirmationRejected? || e.ConfirmationConsumed? || e.ConfirmationCancelled? || e.PolicyDenied?
  }

  lemma AsideEvent(log: seq<Event>, e: Event)
    requires IsAside(e)
    ensures forall j: string :: Path(log + [e], j) == Path(log, j)
    ensures forall j: string :: Exhaustions(log + [e], j) == Exhaustions(log, j)
    ensures Replay(log + [e]) == Replay(log)
  {
    forall j: string
      ensures Path(log + [e], j) == Path(log, j) && Exhaustions(log + [e], j) == Exhaustions(log, j)
    {
      PathAppend(log, e, j);
      ExhaustionsAppend(log, e, j);
    }
    ReplayAppend(log, e);
  }

  /** The same with no actor involved. */
  lemma AsideDb(cfg: Config, s: System, e: Event, s': System)
    requires EngineOk(cfg, s)
    requires s'.db.jobs == s.db.jobs && s'.db.log == s.db.log + [e]
    requires s'.actors == s.actors && s'.history == s.history
    requires IsAside(e)
    ensures EngineOk(cfg, s')
  {
    AsideEvent(s.db.log, e);
    forall j: string ensures IdOk(cfg, s', j) {
      assert IdOk(cfg, s, j);
      assert DossierOf(s', j) == DossierOf(s, j);
    }
  }

  // ---------- worker ----------

  lemma CallExecuteOk(cfg: Config, s: System, i: nat, s': System)
    requires EngineOk(cfg, s) && i < |s.actors| && StepCallExecute(s, i, s')
    ensures EngineOk(cfg, s')
  {
    var a := s.actors[i];
    LocalStep(cfg, s, i, Executing(a.job, a.fence), [ExecuteNote(a.job)], s');
  }

  lemma MarkVerifyingOk(cfg: Config, s: System, i: nat, now: DateTime, s': System)
    requires EngineOk(cfg, s) && i < |s.actors| && StepMarkVerifying(s, i, now, s')
    ensures EngineOk(cfg, s')
  {
    var a := s.actors[i];
    var partial := EMPTY_RESULT.(execution := Some(a.execution));
    TransitionStep(cfg, s, i, s'.actors[i], a.job, Verifying, Some(partial), None, Some(a.fence), None, now, s');
  }

  lemma ObserveOk(cfg: Config, s: System, i: nat, reply: Reply<Observation>, s': System)
    requires EngineOk(cfg, s) && i < |s.actors| && StepObserveReplies(s, i, reply, s')
    ensures EngineOk(cfg, s')
  {
    var a, a' := s.actors[i], s'.actors[i];
    match reply
    case Returned(o) =>
      var n := ObserveNote(if a.Observing? then a.job else a.view.id, o);
      ContainsGrows(s.history, n, n);
      ReplyStep(cfg, s, i, a', n, s');
    case Raised(e) =>
      QuietStep(cfg, s, i, a', s');
  }

  lemma WorkerVerifiedOk(cfg: Config, s: System, i: nat, v: Verification, s': System)
    requires EngineOk(cfg, s) && i < |s.actors| && s.actors[i].Verify? && StepVerifyReplies(s, i, Returned(v), s')
    ensures EngineOk(cfg, s')
  {
    var a := s.actors[i];
    assert ActorOk(s.history, a);
    ObservedNow(s.history, a.job, Recorded(a.execution), a.observation, v);
    ReplyStep(cfg, s, i, s'.actors[i], VerifyNote(a.job, Recorded(a.execution), a.observation, v), s');
  }

  lemma EvidenceIsProof(h: seq<Note>, j: string, partial: ResultDoc, o: Observation, v: Verification)
    requires v.satisfied && ObservedThenVerified(h, j, ExecutionArgFor(partial), o, v)
    ensures Proven(h, j, Some(WithEvidence(partial, o, v)))
  {
    var doc, ex := WithEvidence(partial, o, v), ExecutionArgFor(partial);
    assert doc.execution == if ex.Recorded? then Some(ex.execution) else None;
  }

  lemma ReconcilerVerifiedOk(cfg: Config, s: System, i: nat, v: Verification, s': System)
    requires EngineOk(cfg, s) && i < |s.actors| && s.actors[i].ReVerifying? && StepVerifyReplies(s, i, Returned(v), s')
    ensures EngineOk(cfg, s')
  {
    var a := s.actors[i];
    assert ActorOk(s.history, a);
    var partial := ResultOrEmpty(a.view.result);
    var n := VerifyNote(a.view.id, ExecutionArgFor(partial), a.observation, v);
    ObservedNow(s.history, a.view.id, ExecutionArgFor(partial), a.observation, v);
    if v.satisfied { EvidenceIsProof(s.history + [n], a.view.id, partial, a.observation, v); }
    ReplyStep(cfg, s, i, s'.actors[i], n, s');
  }

  lemma SettleOk(cfg: Config, s: System, i: nat, now: DateTime, s': System)
    requires EngineOk(cfg, s) && i < |s.actors| && StepSettle(s, i, now, s')
    ensures EngineOk(cfg, s')
  {
    var a := s.actors[i];
    assert ActorOk(s.history, a);
    match a
    case Succeeding(j, fence, ex, o, v) =>
      var partial := EMPTY_RESULT.(execution := Some(ex));
      EvidenceIsProof(s.history, j, partial, o, v);
      TransitionStep(cfg, s, i, Idle, j, Succeeded, Some(WithEvidence(partial, o, v)), None, Some(fence), None, now, s');
    case Failing(j, fence, e) =>
      TransitionStep(cfg, s, i, Idle, j, if e.reconciliationRequired then UnknownOutcome else Failed, None, Some(e),
                     Some(fence), None, now, s');
    case Settling(view, target, result, error, todo) =>
      TransitionStep(cfg, s, i, s'.actors[i], view.id, target, Some(result), error, None, None, now, s');
  }

  // ---------- reconciler ----------

  lemma SweepOk(cfg: Config, s: System, i: nat, rows: seq<string>, now: DateTime, s': System)
    requires EngineOk(cfg, s) && i < |s.actors| && StepSweep(s, i, rows, now, s')
    ensures EngineOk(cfg, s')
  {
    ExpireLeasesOk(cfg, s, rows, now);
    QuietStep(cfg, s.(db := ExpireLeases(s.db, rows, now)), i, Swept, s');
  }

  lemma BeginReconcileOk(cfg: Config, s: System, i: nat, now: DateTime, s': System)
    requires EngineOk(cfg, s) && i < |s.actors| && StepBeginReconcile(s, i, now, s')
    ensures EngineOk(cfg, s')
  {
    var a := s.actors[i];
    if a.todo == [] {
      QuietStep(cfg, s, i, Idle, s');
    } else {
      forall k: string
        ensures OpenClaims(s'.actors[i], k) + (if k == a.todo[0].id then 1 else 0) <= OpenClaims(a, k)
      {
        MentionsTail(a.todo, k);
      }
      TransitionStep(cfg, s, i, s'.actors[i], a.todo[0].id, Verifying, Some(ResultOrEmpty(a.todo[0].result)),
                     a.todo[0].error, None, None, now, s');
    }
  }

  // ---------- canceller ----------

  lemma CompareAndCancelOk(cfg: Config, s: System, i: nat, now: DateTime, s': System)
    requires EngineOk(cfg, s) && i < |s.actors| && StepCompareAndCancel(s, i, now, s')
    ensures EngineOk(cfg, s')
  {
    var v := s.actors[i].view;
    TransitionStep(cfg, s, i, s'.actors[i], v.id, Cancelled, v.result, v.error, None, Some(Queued), now, s');
  }

  lemma CancelRepliesOk(cfg: Config, s: System, i: nat, reply: Reply<Cancellation>, s': System)
    requires EngineOk(cfg, s) && i < |s.actors| && StepCancelReplies(s, i, reply, s')
    ensures EngineOk(cfg, s')
  {
    var view := s.actors[i].view;
    match reply
    case Returned(c) =>
      var n := CancelNote(view.id, c.disposition);
      ContainsGrows(s.history, n, n);
      ReplyStep(cfg, s, i, CancelApplying(view, reply), n, s');
    case Raised(_) =>
      QuietStep(cfg, s, i, CancelApplying(view, reply), s');
  }

  lemma ApplyCancelOk(cfg: Config, s: System, i: nat, now: DateTime, s': System)
    requires EngineOk(cfg, s) && i < |s.actors| && StepApplyCancel(s, i, now, s')
    ensures EngineOk(cfg, s')
  {
    var a := s.actors[i];
    assert ActorOk(s.history, a);
    var view := a.view;
    if s'.db == s.db {
      QuietStep(cfg, s, i, Idle, s');
    } else {
      match a.reply
      case Raised(e) =>
        TransitionStep(cfg, s, i, Idle, view.id, UnknownOutcome, view.result, Some(e), None, None, now, s');
      case Returned(c) =>
        if c.disposition == CancelDone {
          TransitionStep(cfg, s, i, Idle, view.id, Cancelled,
                         Some(ResultOrEmpty(view.result).(cancellation := Some(c))), None, None, None, now, s');
        } else {
          TransitionStep(cfg, s, i, Idle, view.id, UnknownOutcome, view.result,
                         Some(CancelUnknownError(c.details)), None, None, now, s');
        }
    }
  }

  // ---------- API ----------

  lemma PlanOk(cfg: Config, s: System, r: ActionRequest, subject: Subject, id: string, token: string,
               expires: DateTime, now: DateTime, s': System)
    requires EngineOk(cfg, s) && StepPlan(cfg, s, r, subject, id, token, expires, now, s')
    ensures EngineOk(cfg, s')
  {
    if s' != s { AsideDb(cfg, s, s'.db.log[|s.db.log|], s'); }
  }

  lemma DropOk(cfg: Config, s: System, c: string, subject: Subject, now: DateTime, s': System)
    requires EngineOk(cfg, s) && StepDropConfirmation(s, c, subject, now, s')
    ensures EngineOk(cfg, s')
  {
    if s' != s { AsideDb(cfg, s, s'.db.log[|s.db.log|], s'); }
  }

  lemma SubmitOk(cfg: Config, s: System, i: nat, r: ActionRequest, subject: Subject, row: Option<string>,
                 now: DateTime, s': System)
    requires EngineOk(cfg, s) && i < |s.actors| && StepSubmit(cfg, s, i, r, subject, row, now, s')
    ensures EngineOk(cfg, s')
  {
    if s' == s {
    } else if s'.db == s.db {
      QuietStep(cfg, s, i, s'.actors[i], s');
    } else {
      ConsumeIsAside(cfg, s.db, row, r, subject, r.confirmationToken.value, r.confirmationResponse, now);
      AsideStep(cfg, s, i, s'.actors[i], s'.db.log[|s.db.log|], s');
    }
  }

  lemma ConsumeIsAside(cfg: Config, db: Db, row: Option<string>, r: ActionRequest, subject: Subject, token: string,
                       response: Option<string>, now: DateTime)
    requires row.Some? ==> row.value in db.confirmations
    requires Consume(cfg, db, row, r, subject, token, response, now).0 != db
    ensures var db' := Consume(cfg, db, row, r, subject, token, response, now).0;
            && db'.jobs == db.jobs && |db'.log| == |db.log| + 1
            && db'.log == db.log + [db'.log[|db.log|]] && IsAside(db'.log[|db.log|])
  {
  }

  lemma AuthorizeOk(cfg: Config, s: System, i: nat, s': System)
    requires EngineOk(cfg, s) && i < |s.actors| && StepAuthorize(cfg, s, i, s')
    ensures EngineOk(cfg, s')
  {
    if s'.db == s.db {
      QuietStep(cfg, s, i, s'.actors[i], s');
    } else {
      AsideStep(cfg, s, i, Idle, s'.db.log[|s.db.log|], s');
    }
  }

  lemma CreateOk(cfg: Config, s: System, i: nat, id: string, found: Option<string>, now: DateTime, s': System)
    requires EngineOk(cfg, s) && i < |s.actors| && StepCreate(cfg, s, i, id, found, now, s')
    ensures EngineOk(cfg, s')
  {
    var a := s.actors[i];
    if found.None? {
      InsertStep(cfg, s, i, id, a.request, a.subject, now, s');
    } else {
      assert s' == Become(s, i, Idle);
      QuietStep(cfg, s, i, Idle, s');
    }
  }

  // ---------- all steps ----------

  lemma WorkerStepOk(cfg: Config, s: System, l: Label, s': System)
    requires EngineOk(cfg, s) && IsWorkerLabel(l) && WorkerStep(cfg, s, l, s')
    ensures EngineOk(cfg, s')
  {
    match l
    case Crash(i) => QuietStep(cfg, s, i, Idle, s');
    case Claim(i, row, worker, token, until, now) =>
      if row.Some? { ClaimStep(cfg, s, i, row.value, worker, token, until, now, s'); }
    case CallExecute(i) => CallExecuteOk(cfg, s, i, s');
    case ExecuteReplies(i, reply) => QuietStep(cfg, s, i, s'.actors[i], s');
    case MarkVerifying(i, now) => MarkVerifyingOk(cfg, s, i, now, s');
    case Renew(i, until, now) => RenewStep(cfg, s, i, until, now, s');
    case ObserveReplies(i, reply) => ObserveOk(cfg, s, i, reply, s');
    case VerifyReplies(i, reply) =>
      if reply.Raised? { QuietStep(cfg, s, i, s'.actors[i], s'); }
      else if s.actors[i].Verify? { WorkerVerifiedOk(cfg, s, i, reply.value, s'); }
      else { ReconcilerVerifiedOk(cfg, s, i, reply.value, s'); }
    case Settle(i, now) => SettleOk(cfg, s, i, now, s');
  }

  lemma RecoveryStepOk(cfg: Config, s: System, l: Label, s': System)
    requires EngineOk(cfg, s) && !IsWorkerLabel(l) && !IsApiLabel(l) && RecoveryStep(cfg, s, l, s')
    ensures EngineOk(cfg, s')
  {
    match l
    case Sweep(i, rows, now) => SweepOk(cfg, s, i, rows, now, s');
    case TakeCandidates(i, rows) => CandidatesOk(cfg, s, i, rows);
    case BeginReconcile(i, now) => BeginReconcileOk(cfg, s, i, now, s');
    case ReadForCancel(i, j, subject) => if s' != s { QuietStep(cfg, s, i, s'.actors[i], s'); }
    case CompareAndCancel(i, now) => CompareAndCancelOk(cfg, s, i, now, s');
    case Refresh(i) => QuietStep(cfg, s, i, s'.actors[i], s');
    case CancelReplies(i, reply) => CancelRepliesOk(cfg, s, i, reply, s');
    case ApplyCancel(i, now) => ApplyCancelOk(cfg, s, i, now, s');
    case ExpireQueue(rows, cutoff, now) => ExpireQueueOk(cfg, s, rows, now);
  }

  lemma ApiStepOk(cfg: Config, s: System, l: Label, s': System)
    requires EngineOk(cfg, s) && IsApiLabel(l) && ApiStep(cfg, s, l, s')
    ensures EngineOk(cfg, s')
  {
    match l
    case Plan(r, subject, id, token, expires, now) => PlanOk(cfg, s, r, subject, id, token, expires, now, s');
    case DropConfirmation(c, subject, now) => DropOk(cfg, s, c, subject, now, s');
    case Submit(i, r, subject, row, now) => SubmitOk(cfg, s, i, r, subject, row, now, s');
    case Authorize(i) => AuthorizeOk(cfg, s, i, s');
    case Create(i, id, found, now) => CreateOk(cfg, s, i, id, found, now, s');
  }

  /** The engine's invariant is inductive. */
  lemma EngineStepOk(cfg: Config, s: System, l: Label, s': System)
    requires EngineOk(cfg, s) && Step(cfg, s, l, s')
    ensures EngineOk(cfg, s')
  {
    if IsWorkerLabel(l) { WorkerStepOk(cfg, s, l, s'); }
    else if IsApiLabel(l) { ApiStepOk(cfg, s, l, s'); }
    else { RecoveryStepOk(cfg, s, l, s'); }
  }
}
