/**
 Who asked: every job goes back to a submission that was let through, every cancelled job
 to a request by its owner, every spent confirmation to its own subject.
 */
module Requests {
  import opened Models
  import opened Clock
  import opened JobStore
  import opened Engine
  import opened EngineInvariant
  import opened EngineEvolution
  import opened EngineTheorems
  import opened Evidence
  import opened Endings
  import opened Passes
  import opened ApprovalTransfer

  // ---------- requests to cancel ----------

  /** The job's own subject name, on its own device, asks to cancel it while it can still be cancelled. */
  predicate OwnerAsks(s: System, l: Label, j: string) {
    && l.ReadForCancel? && l.job == j && j in s.db.jobs
    && l.subject.name == s.db.jobs[j].subject.name && l.subject.device == s.db.jobs[j].subject.device
    && !Terminal(s.db.jobs[j].state)
  }

  /**
   A request to cancel goes forward if and only if the owner makes it for a job that has not
   ended; anybody else's, or one for an unknown or ended job, leaves the system as it was.
   */
  lemma RequestGoesForward(cfg: Config, s: System, l: Label, s': System)
    requires l.ReadForCancel? && Step(cfg, s, l, s')
    ensures s' != s <==> OwnerAsks(s, l, l.job)
    ensures OwnerAsks(s, l, l.job) ==>
              && l.i < |s.actors| && s'.db == s.db
              && s'.actors == s.actors[l.i := (if s.db.jobs[l.job].state.Queued? then CancelQueued(View(l.job, s.db.jobs[l.job]))
                                               else CancelCalling(View(l.job, s.db.jobs[l.job])))]
  {
    if OwnerAsks(s, l, l.job) { assert s'.actors[l.i] != s.actors[l.i]; }
  }

  /** The actor is a canceller of `j`. */
  predicate Cancelling(a: Actor, j: string) {
    || ((a.CancelQueued? || a.CancelCalling? || a.CancelApplying?) && a.view.id == j)
    || (a.CancelRefresh? && a.job == j)
  }

  /** The actor is an execute handler. */
  predicate Handles(a: Actor) {
    a.Authorizing? || a.Creating?
  }

  lemma RecoveryCancelling(cfg: Config, s: System, l: Label, s': System, j: string)
    requires !IsWorkerLabel(l) && !IsApiLabel(l) && !l.ExpireQueue? && RecoveryStep(cfg, s, l, s')
    ensures l.i < |s.actors| && l.i < |s'.actors|
    ensures Cancelling(s'.actors[l.i], j) ==> Cancelling(s.actors[l.i], j) || OwnerAsks(s, l, j)
    ensures Handles(s'.actors[l.i]) ==> s'.actors[l.i] == s.actors[l.i]
  {
  }

  lemma ObserveCancelling(s: System, i: nat, reply: Reply<Observation>, s': System, j: string)
    requires i < |s.actors| && StepObserveReplies(s, i, reply, s')
    ensures i < |s'.actors| && !Cancelling(s'.actors[i], j) && !Handles(s'.actors[i])
  {
  }

  lemma VerifyCancelling(s: System, i: nat, reply: Reply<Verification>, s': System, j: string)
    requires i < |s.actors| && StepVerifyReplies(s, i, reply, s')
    ensures i < |s'.actors| && !Cancelling(s'.actors[i], j) && !Handles(s'.actors[i])
  {
  }

  lemma WorkerCancelling(cfg: Config, s: System, l: Label, s': System, j: string)
    requires IsWorkerLabel(l) && WorkerStep(cfg, s, l, s')
    ensures l.i < |s.actors| && l.i < |s'.actors| && (Cancelling(s'.actors[l.i], j) ==> Cancelling(s.actors[l.i], j))
    ensures Handles(s'.actors[l.i]) ==> s'.actors[l.i] == s.actors[l.i]
  {
    if l.ObserveReplies? { ObserveCancelling(s, l.i, l.observation, s', j); }
    else if l.VerifyReplies? { VerifyCancelling(s, l.i, l.verification, s', j); }
  }

  lemma ApiCancelling(cfg: Config, s: System, l: Label, s': System, j: string)
    requires (l.Submit? || l.Authorize? || l.Create?) && ApiStep(cfg, s, l, s')
    ensures l.i < |s.actors| && l.i < |s'.actors| && (Cancelling(s'.actors[l.i], j) ==> Cancelling(s.actors[l.i], j))
  {
  }

  /** Only the owner's request makes anybody a canceller of the job. */
  lemma RunStepCancelling(cfg: Config, states: seq<System>, labels: seq<Label>, n: nat, k: nat, j: string)
    requires IsRun(cfg, states, labels) && n < |labels| && k < |states[n + 1].actors|
    requires Cancelling(states[n + 1].actors[k], j)
    ensures k < |states[n].actors| && (Cancelling(states[n].actors[k], j) || OwnerAsks(states[n], labels[n], j))
  {
    var s, l, s' := states[n], labels[n], states[n + 1];
    assert StepAt(cfg, states, labels, n);
    ActorsStay(cfg, s, l, s', k);
    if !TakenBy(l, k) { OthersKeepPlace(cfg, s, l, s', k); }
    else if IsWorkerLabel(l) { WorkerCancelling(cfg, s, l, s', j); }
    else if IsApiLabel(l) { ApiCancelling(cfg, s, l, s', j); }
    else { RecoveryCancelling(cfg, s, l, s', j); }
  }

  lemma {:induction false} CancellerWasAsked(cfg: Config, states: seq<System>, labels: seq<Label>, n: nat, k: nat, j: string)
      returns (q: nat)
    requires IsRun(cfg, states, labels) && n < |states| && k < |states[n].actors| && Cancelling(states[n].actors[k], j)
    ensures q < n && OwnerAsks(states[q], labels[q], j)
  {
    RunStepCancelling(cfg, states, labels, n - 1, k, j);
    if OwnerAsks(states[n - 1], labels[n - 1], j) { q := n - 1; }
    else { q := CancellerWasAsked(cfg, states, labels, n - 1, k, j); }
  }

  lemma SameSubject(cfg: Config, states: seq<System>, labels: seq<Label>, m: nat, n: nat, j: string)
    requires IsRun(cfg, states, labels) && m <= n < |states| && j in states[m].db.jobs
    ensures j in states[n].db.jobs && states[n].db.jobs[j].subject == states[m].db.jobs[j].subject
  {
    RunAdvances(cfg, states, labels, m, n);
    assert JobAdvances(states[m].db.jobs, states[n].db.jobs, j);
  }

  /**
   A CANCELLED job was cancelled on its owner's request, and either went straight from QUEUED
   without ever being claimed or executed, or its adapter had reported that it cancelled.
   */
  lemma HonestCancellation(cfg: Config, states: seq<System>, labels: seq<Label>, n: nat, j: string) returns (q: nat)
    requires IsRun(cfg, states, labels) && n < |states|
    requires j in states[n].db.jobs && states[n].db.jobs[j].state.Cancelled?
    ensures q < n && labels[q].ReadForCancel? && labels[q].job == j
    ensures labels[q].subject.name == states[n].db.jobs[j].subject.name
    ensures labels[q].subject.device == states[n].db.jobs[j].subject.device
    ensures || (AuditReplay.Path(states[n].db.log, j) == [Queued, Cancelled]
                && Claims(states[n].history, j) == 0 && Executions(states[n].history, j) == 0)
            || Contains(states[n].history, CancelNote(j, CancelDone))
  {
    EndedExactly(cfg, states, labels, n, j, Cancelled);
    var e :| 0 <= e < n && Ends(states[e], labels[e], j, Cancelled);
    q := CancellerWasAsked(cfg, states, labels, e, labels[e].i, j);
    SameSubject(cfg, states, labels, q, n, j);
    RunOk(cfg, states, labels, n);
    assert IdOk(cfg, states[n], j);
  }

  // ---------- submissions ----------

  /** The handler's place says who submitted what, and what the submission's token was worth. */
  predicate HandlesWhatCame(cfg: Config, a: Actor, s: System, l: Label) {
    && (a.Authorizing? || a.Creating?) && l.Submit? && a.request == l.request && a.subject == l.subject
    && cfg.validate(l.request).Some? && (a.approval.Some? <==> IsApproved(cfg, s, l))
    && (a.Creating? ==> LetThrough(cfg, l.request, IsApproved(cfg, s, l)))
  }

  lemma SubmitHandles(cfg: Config, s: System, l: Label, s': System)
    requires l.Submit? && ApiStep(cfg, s, l, s')
    ensures l.i < |s.actors| && s.actors[l.i].Idle?
    ensures s' == s || HandlesWhatCame(cfg, s'.actors[l.i], s, l)
  {
    SubmissionHandles(cfg, s, l, s');
  }

  lemma SubmissionHandles(cfg: Config, s: System, l: Label, s': System)
    requires l.Submit? && l.i < |s.actors| && StepSubmit(cfg, s, l.i, l.request, l.subject, l.row, l.now, s')
    ensures s'.actors == s.actors[l.i := s'.actors[l.i]] && s.actors[l.i].Idle?
    ensures s' == s || HandlesWhatCame(cfg, s'.actors[l.i], s, l)
  {
  }

  lemma AuthorizeHandles(cfg: Config, s: System, l: Label, s': System, s0: System, l0: Label)
    requires l.Authorize? && ApiStep(cfg, s, l, s') && HandlesWhatCame(cfg, s.actors[l.i], s0, l0)
    ensures s'.actors[l.i].Idle? || HandlesWhatCame(cfg, s'.actors[l.i], s0, l0)
  {
  }

  /** Where a handler came from: it submitted in this step, or it was a handler before. */
  lemma RunStepHandles(cfg: Config, states: seq<System>, labels: seq<Label>, n: nat, k: nat)
    requires IsRun(cfg, states, labels) && n < |labels| && k < |states[n + 1].actors|
    requires Handles(states[n + 1].actors[k])
    ensures k < |states[n].actors|
    ensures || (labels[n].Submit? && HandlesWhatCame(cfg, states[n + 1].actors[k], states[n], labels[n]))
            || states[n + 1].actors[k] == states[n].actors[k]
            || (labels[n].Authorize? && labels[n].i == k && Handles(states[n].actors[k]))
  {
    var s, l, s' := states[n], labels[n], states[n + 1];
    assert StepAt(cfg, states, labels, n);
    ActorsStay(cfg, s, l, s', k);
    if !TakenBy(l, k) { OthersKeepPlace(cfg, s, l, s', k); }
    else if IsWorkerLabel(l) { WorkerCancelling(cfg, s, l, s', ""); }
    else if !IsApiLabel(l) { RecoveryCancelling(cfg, s, l, s', ""); }
    else { ApiHandles(cfg, s, l, s'); }
  }

  lemma ApiHandles(cfg: Config, s: System, l: Label, s': System)
    requires (l.Submit? || l.Authorize? || l.Create?) && ApiStep(cfg, s, l, s')
    ensures l.i < |s.actors| && l.i < |s'.actors|
    ensures Handles(s'.actors[l.i]) ==>
              || (l.Submit? && HandlesWhatCame(cfg, s'.actors[l.i], s, l)) || s'.actors[l.i] == s.actors[l.i]
              || (l.Authorize? && Handles(s.actors[l.i]))
  {
    if l.Submit? { SubmitHandles(cfg, s, l, s'); }
  }

  /** Every handler goes back to the submission it handles. */
  lemma {:induction false} HandlerCameFrom(cfg: Config, states: seq<System>, labels: seq<Label>, n: nat, k: nat)
      returns (q: nat)
    requires IsRun(cfg, states, labels) && n < |states| && k < |states[n].actors| && Handles(states[n].actors[k])
    ensures q < n && labels[q].Submit? && HandlesWhatCame(cfg, states[n].actors[k], states[q], labels[q])
  {
    RunStepHandles(cfg, states, labels, n - 1, k);
    if labels[n - 1].Submit? && HandlesWhatCame(cfg, states[n].actors[k], states[n - 1], labels[n - 1]) {
      q := n - 1;
    } else {
      q := HandlerCameFrom(cfg, states, labels, n - 1, k);
      if states[n].actors[k] != states[n - 1].actors[k] {
        RunAuthorizes(cfg, states, labels, n - 1, states[q], labels[q]);
      }
    }
  }

  lemma RunAuthorizes(cfg: Config, states: seq<System>, labels: seq<Label>, n: nat, s0: System, l0: Label)
    requires IsRun(cfg, states, labels) && n < |labels| && labels[n].Authorize? && labels[n].i < |states[n].actors|
    requires HandlesWhatCame(cfg, states[n].actors[labels[n].i], s0, l0)
    ensures labels[n].i < |states[n + 1].actors|
    ensures states[n + 1].actors[labels[n].i].Idle? || HandlesWhatCame(cfg, states[n + 1].actors[labels[n].i], s0, l0)
  {
    assert StepAt(cfg, states, labels, n);
    AuthorizeHandles(cfg, states[n], labels[n], states[n + 1], s0, l0);
  }

  /** The step creates the job, for the handler that takes it. */
  lemma RunStepCreates(cfg: Config, states: seq<System>, labels: seq<Label>, n: nat, j: string)
    requires IsRun(cfg, states, labels) && n < |labels| && j !in states[n].db.jobs && j in states[n + 1].db.jobs
    ensures labels[n].Create? && labels[n].id == j && labels[n].found.None?
    ensures labels[n].i < |states[n].actors| && states[n].actors[labels[n].i].Creating?
    ensures var a, now := states[n].actors[labels[n].i], labels[n].now;
            states[n + 1].db.jobs[j]
            == Job(a.request.idempotencyKey, a.request, cfg.requestDigest(IdentityOf(a.request)), a.subject, Queued,
                   None, None, None, 0, None, None, now, now)
  {
    var s, l, s' := states[n], labels[n], states[n + 1];
    RunOk(cfg, states, labels, n);
    assert StepAt(cfg, states, labels, n);
    if IsWorkerLabel(l) { WorkerStepAdvances(cfg, s, l, s'); }
    else if IsApiLabel(l) { ApiCreates(cfg, s, l, s', j); }
    else { RecoveryStepAdvances(cfg, s, l, s'); }
  }

  lemma ApiCreates(cfg: Config, s: System, l: Label, s': System, j: string)
    requires IsApiLabel(l) && ApiStep(cfg, s, l, s') && j !in s.db.jobs && j in s'.db.jobs
    ensures l.Create? && l.id == j && l.found.None? && l.i < |s.actors| && s.actors[l.i].Creating?
    ensures var a := s.actors[l.i];
            s'.db.jobs[j] == Job(a.request.idempotencyKey, a.request, cfg.requestDigest(IdentityOf(a.request)), a.subject,
                                 Queued, None, None, None, 0, None, None, l.now, l.now)
  {
    if l.Submit? { SubmitKeepsRows(cfg, s, l, s'); }
  }

  lemma RunStepKeepsRequest(cfg: Config, states: seq<System>, labels: seq<Label>, n: nat, j: string)
    requires IsRun(cfg, states, labels) && n < |labels| && j in states[n].db.jobs
    ensures j in states[n + 1].db.jobs && states[n + 1].db.jobs[j].request == states[n].db.jobs[j].request
    ensures states[n + 1].db.jobs[j].subject == states[n].db.jobs[j].subject
    ensures states[n + 1].db.jobs[j].createdAt == states[n].db.jobs[j].createdAt
  {
    RunStepAdvances(cfg, states, labels, n);
    assert JobAdvances(states[n].db.jobs, states[n + 1].db.jobs, j);
  }

  /**
   Every job goes back to a submission of exactly its request by exactly its subject that was
   let through: the catalog takes it, it is no dry run, and if its action is a mutation then
   mutations are on and a confirmation that the action asks for was presented and accepted.
   */
  lemma {:induction false} JobWasSubmitted(cfg: Config, states: seq<System>, labels: seq<Label>, n: nat, j: string)
      returns (q: nat)
    requires IsRun(cfg, states, labels) && n < |states| && j in states[n].db.jobs
    ensures q < n && labels[q].Submit?
    ensures labels[q].request == states[n].db.jobs[j].request && labels[q].subject == states[n].db.jobs[j].subject
    ensures LetThrough(cfg, states[n].db.jobs[j].request, IsApproved(cfg, states[q], labels[q]))
  {
    if j in states[n - 1].db.jobs {
      q := JobWasSubmitted(cfg, states, labels, n - 1, j);
      RunStepKeepsRequest(cfg, states, labels, n - 1, j);
    } else {
      RunStepCreates(cfg, states, labels, n - 1, j);
      q := HandlerCameFrom(cfg, states, labels, n - 1, labels[n - 1].i);
    }
  }

  // ---------- replays ----------

  ghost predicate TellsApart(digest: RequestIdentity -> string) {
    forall a, b :: digest(a) == digest(b) ==> a == b
  }

  /** The two requests agree in everything but the proof of approval. */
  predicate SameRequest(a: ActionRequest, b: ActionRequest) {
    && a.actionId == b.actionId && a.actionVersion == b.actionVersion && a.target == b.target && a.parameters == b.parameters
    && a.context == b.context && a.idempotencyKey == b.idempotencyKey && a.dryRun == b.dryRun
  }

  /** Every row keeps the key and the digest of its own request. */
  lemma {:induction false} DigestIsOfRequest(cfg: Config, states: seq<System>, labels: seq<Label>, n: nat, j: string)
    requires IsRun(cfg, states, labels) && n < |states| && j in states[n].db.jobs
    ensures var job := states[n].db.jobs[j];
            job.key == job.request.idempotencyKey && job.digest == cfg.requestDigest(IdentityOf(job.request))
  {
    if j in states[n - 1].db.jobs {
      DigestIsOfRequest(cfg, states, labels, n - 1, j);
      RunStepAdvances(cfg, states, labels, n - 1);
      assert JobAdvances(states[n - 1].db.jobs, states[n].db.jobs, j);
    } else {
      RunStepCreates(cfg, states, labels, n - 1, j);
    }
  }

  /**
   In every run, under a hash that tells requests apart: a later request under a job's key is
   answered with that job as it stands if and only if it agrees with the job's own request in
   everything but the token and the typed answer; any other is refused. No row is added.
   */
  lemma ReplayDecides(cfg: Config, states: seq<System>, labels: seq<Label>, m: nat, n: nat, j: string, r: ActionRequest,
                      subject: Subject, found: Option<string>, id: string, now: DateTime)
    requires IsRun(cfg, states, labels) && m <= n < |states| && j in states[m].db.jobs && TellsApart(cfg.requestDigest)
    requires r.idempotencyKey == states[m].db.jobs[j].request.idempotencyKey
    requires FoundByKey(states[n].db, r.idempotencyKey, found)
    ensures j in states[n].db.jobs
    ensures CreateJob(cfg, states[n].db, found, id, r, subject, now)
         == (states[n].db,
             if SameRequest(r, states[m].db.jobs[j].request)
             then Success(JobView(j, states[n].db.jobs[j].state, states[n].db.jobs[j].result, states[n].db.jobs[j].error))
             else Failure(KeyReused))
  {
    DigestIsOfRequest(cfg, states, labels, m, j);
    ReplayedSubmission(cfg, states, labels, m, n, j, r, subject, found, id, now);
    if cfg.requestDigest(IdentityOf(r)) == states[m].db.jobs[j].digest {
      assert IdentityOf(r) == IdentityOf(states[m].db.jobs[j].request);
    }
  }

  lemma SubmitPlace(cfg: Config, states: seq<System>, labels: seq<Label>, n: nat, i: nat)
    requires IsRun(cfg, states, labels) && n < |labels| && labels[n].Submit? && labels[n].i == i < |states[n].actors|
    ensures i < |states[n + 1].actors|
    ensures states[n + 1].actors[i].Idle? || HandlesWhatCame(cfg, states[n + 1].actors[i], states[n], labels[n])
  {
    assert StepAt(cfg, states, labels, n);
    SubmitHandles(cfg, states[n], labels[n], states[n + 1]);
  }

  lemma CreatePlace(cfg: Config, states: seq<System>, labels: seq<Label>, n: nat, i: nat)
    requires IsRun(cfg, states, labels) && n < |labels| && labels[n].Create? && labels[n].i == i < |states[n].actors|
    ensures states[n].actors[i].Creating?
    ensures var a, l, db, db' := states[n].actors[i], labels[n], states[n].db, states[n + 1].db;
            match l.found
            case Some(j) => j in db.jobs && db.jobs[j].key == a.request.idempotencyKey && db' == db
            case None =>
              && l.id !in db.jobs && db'.confirmations == db.confirmations
              && (forall j | j in db.jobs :: db.jobs[j].key != a.request.idempotencyKey)
              && db'.jobs == db.jobs[l.id := Job(a.request.idempotencyKey, a.request, cfg.requestDigest(IdentityOf(a.request)),
                                                 a.subject, Queued, None, None, None, 0, None, None, l.now, l.now)]
  {
    assert StepAt(cfg, states, labels, n);
  }

  /**
   Submit, authorize, create: a request that gets there was let through, and what it makes is
   one new QUEUED job that is exactly the request under its subject, or nothing when its key
   has a job already.
   */
  lemma SubmissionMakesTheJob(cfg: Config, states: seq<System>, labels: seq<Label>, i: nat, at: seq<nat>, own: seq<Label>)
    requires IsRun(cfg, states, labels) && OwnSteps(labels, i, at, own)
    requires |own| == 3 && own[0].Submit? && own[1].Authorize? && own[2].Create?
    ensures at[0] < at[1] < at[2] < |labels|
    ensures LetThrough(cfg, own[0].request, IsApproved(cfg, states[at[0]], own[0]))
    ensures var r, l, db, db' := own[0].request, own[2], states[at[2]].db, states[at[2] + 1].db;
            match l.found
            case Some(j) => j in db.jobs && db.jobs[j].key == r.idempotencyKey && db' == db
            case None =>
              && l.id !in db.jobs && db'.confirmations == db.confirmations
              && (forall j | j in db.jobs :: db.jobs[j].key != r.idempotencyKey)
              && db'.jobs == db.jobs[l.id := Job(r.idempotencyKey, r, cfg.requestDigest(IdentityOf(r)), own[0].subject, Queued,
                                                 None, None, None, 0, None, None, l.now, l.now)]
  {
    assert OwnAt(labels, i, at, own, 0) && OwnAt(labels, i, at, own, 1) && OwnAt(labels, i, at, own, 2);
    NextPlace(cfg, states, labels, i, at, own, 0);
    NextPlace(cfg, states, labels, i, at, own, 1);
    RunActorsStay(cfg, states, labels, at[0], i);
    RunActorsStay(cfg, states, labels, at[2], i);
    CreatePlace(cfg, states, labels, at[2], i);
    SubmitPlace(cfg, states, labels, at[0], i);
    AuthorizeComes(cfg, states, labels, at[1], i);
    RunAuthorizes(cfg, states, labels, at[1], states[at[0]], own[0]);
  }

  lemma AuthorizeComes(cfg: Config, states: seq<System>, labels: seq<Label>, n: nat, i: nat)
    requires IsRun(cfg, states, labels) && n < |labels| && labels[n].Authorize? && labels[n].i == i < |states[n].actors|
    ensures states[n].actors[i].Authorizing?
  {
    assert StepAt(cfg, states, labels, n);
  }

  // ---------- confirmations ----------

  /**
   The step marks `c` used: a submission by its own subject for its digest that answers it, or
   its own subject dropping it.
   */
  predicate Uses(cfg: Config, s: System, l: Label, c: string) {
    && (l.Submit? || l.DropConfirmation?) && c in s.db.confirmations && s.db.confirmations[c].usedAt.None?
    && s.db.confirmations[c].subjectName == l.subject.name && s.db.confirmations[c].subjectDevice == l.subject.device
    && (l.DropConfirmation? ==> l.confirmation == c)
    && (l.Submit? ==>
          && l.row == Some(c) && Answers(cfg, s.db.confirmations[c], l.request, l.now)
          && s.db.confirmations[c].digest == cfg.confirmationDigest(AuthorityOf(l.request)))
  }

  predicate UsedAt(s: System, c: string) {
    c in s.db.confirmations && s.db.confirmations[c].usedAt.Some?
  }

  /** Dropping a confirmation works for its own subject while it is unused; otherwise nothing changes. */
  lemma DropNeedsOwner(cfg: Config, s: System, l: Label, s': System)
    requires l.DropConfirmation? && Step(cfg, s, l, s')
    ensures s' != s <==> Uses(cfg, s, l, l.confirmation)
    ensures Uses(cfg, s, l, l.confirmation) ==>
              s'.db.confirmations
              == s.db.confirmations[l.confirmation := s.db.confirmations[l.confirmation].(usedAt := Some(l.now))]
    ensures s'.db.jobs == s.db.jobs && s'.actors == s.actors
  {
    if Uses(cfg, s, l, l.confirmation) { assert |s'.db.log| == |s.db.log| + 1; }
  }

  lemma SubmitUses(cfg: Config, s: System, l: Label, s': System, c: string)
    requires l.Submit? && ApiStep(cfg, s, l, s')
    ensures UsedAt(s', c) <==> UsedAt(s, c) || Uses(cfg, s, l, c)
  {
    SubmissionUses(cfg, s, l, s', c);
  }

  lemma SubmissionUses(cfg: Config, s: System, l: Label, s': System, c: string)
    requires l.Submit? && l.i < |s.actors| && StepSubmit(cfg, s, l.i, l.request, l.subject, l.row, l.now, s')
    ensures UsedAt(s', c) <==> UsedAt(s, c) || Uses(cfg, s, l, c)
  {
  }

  lemma OtherUses(cfg: Config, s: System, l: Label, s': System, c: string)
    requires (l.Plan? || l.Authorize? || l.Create?) && ApiStep(cfg, s, l, s')
    ensures UsedAt(s', c) <==> UsedAt(s, c)
  {
  }

  lemma RunStepUses(cfg: Config, states: seq<System>, labels: seq<Label>, n: nat, c: string)
    requires IsRun(cfg, states, labels) && n < |labels|
    ensures UsedAt(states[n + 1], c) <==> UsedAt(states[n], c) || Uses(cfg, states[n], labels[n], c)
  {
    var s, l, s' := states[n], labels[n], states[n + 1];
    RunOk(cfg, states, labels, n);
    assert StepAt(cfg, states, labels, n);
    if IsWorkerLabel(l) { WorkerStepAdvances(cfg, s, l, s'); }
    else if !IsApiLabel(l) { RecoveryStepAdvances(cfg, s, l, s'); }
    else if l.Submit? { SubmitUses(cfg, s, l, s', c); }
    else if l.DropConfirmation? { DropNeedsOwner(cfg, s, l, s'); }
    else { OtherUses(cfg, s, l, s', c); }
  }

  /** In every run: a confirmation is used if and only if one of the steps so far was such a use of it. */
  lemma {:induction false} UsedExactly(cfg: Config, states: seq<System>, labels: seq<Label>, n: nat, c: string)
    requires IsRun(cfg, states, labels) && n < |states|
    ensures UsedAt(states[n], c) <==> exists q :: 0 <= q < n && Uses(cfg, states[q], labels[q], c)
  {
    if n > 0 {
      UsedExactly(cfg, states, labels, n - 1, c);
      RunStepUses(cfg, states, labels, n - 1, c);
    }
  }

  // ---------- plans ----------

  /** The plan asks for an allowed mutation that needs a confirmation. */
  predicate PlanNeedsChallenge(cfg: Config, r: ActionRequest) {
    && cfg.validate(r).Some? && cfg.validate(r).value.mutation && cfg.mutationsEnabled
    && cfg.validate(r).value.confirmation != NoConfirmation
  }

  /**
   A plan issues a challenge if and only if its action is an allowed mutation that asks for one:
   unused, for the plan's authority, subject and control, in the action's mode and, when typed,
   with the target's name as its answer. Nothing else about jobs, actors or challenges changes.
   */
  lemma PlanIssuesExactly(cfg: Config, s: System, l: Label, s': System)
    requires l.Plan? && Step(cfg, s, l, s')
    ensures cfg.validate(l.request).Some? && s'.db.jobs == s.db.jobs && s'.actors == s.actors
    ensures s'.db.confirmations
         == if PlanNeedsChallenge(cfg, l.request) then
              s.db.confirmations[l.id := Confirmation(
                cfg.tokenHash(l.token), cfg.confirmationDigest(AuthorityOf(l.request)), l.subject.name, l.subject.device,
                l.request.context.control, cfg.validate(l.request).value.confirmation,
                if cfg.validate(l.request).value.confirmation.Typed? then Some(l.request.target.id) else None,
                l.expires, None, l.now)]
            else s.db.confirmations
    ensures PlanNeedsChallenge(cfg, l.request) ==> l.id !in s.db.confirmations
    ensures PolicyDenied(PlanPhase, l.request.actionId, l.request.actionVersion, l.request.target, l.subject,
                         cfg.requestDigest(IdentityOf(l.request)), MutationsDisabled) in s'.db.log[|s.db.log|..]
            <==> cfg.validate(l.request).value.mutation && !cfg.mutationsEnabled
  {
  }
}
