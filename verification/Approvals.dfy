/**
 Conservation of approvals under the development policy: every job that needs a
 confirmation has its own consumed one, and a confirmation is spent at most once.
 */
module Approvals {
  import opened Models
  import opened Clock
  import opened JobStore
  import opened AuditReplay
  import opened Engine
  import opened EngineInvariant
  import opened EngineEvolution

  /** Confirmation `c` was consumed for this request by this subject from this control. */
  predicate Binds(cfg: Config, db: Db, c: string, r: ActionRequest, subject: Subject) {
    && c in db.confirmations
    && var row := db.confirmations[c];
       && row.usedAt.Some?
       && row.digest == cfg.confirmationDigest(AuthorityOf(r))
       && row.subjectName == subject.name && row.subjectDevice == subject.device
       && row.control == r.context.control
       && ConfirmationConsumed(c, row.digest) in db.log
  }

  predicate SpentOk(db: Db, c: string) {
    Spendings(db.log, c) == if c in db.confirmations && db.confirmations[c].usedAt.Some? then 1 else 0
  }

  predicate ApprovedOk(cfg: Config, db: Db, approvedBy: map<string, string>, j: string) {
    && (j in approvedBy ==>
          j in db.jobs && Binds(cfg, db, approvedBy[j], db.jobs[j].request, db.jobs[j].subject))
    && (j in db.jobs && NeedsConfirmation(cfg, db.jobs[j].request) ==> j in approvedBy)
  }

  predicate ApprovalsDiffer(approvedBy: map<string, string>, j: string, k: string) {
    j in approvedBy && k in approvedBy && j != k ==> approvedBy[j] != approvedBy[k]
  }

  /** The confirmation an execute handler holds while it is on its way to `create_job`. */
  function HeldBy(a: Actor): Option<string> {
    if a.Authorizing? || a.Creating? then a.approval else None
  }

  predicate Unassigned(approvedBy: map<string, string>, c: string) {
    forall j | j in approvedBy :: approvedBy[j] != c
  }

  predicate HandlerOk(cfg: Config, db: Db, approvedBy: map<string, string>, a: Actor) {
    && (HeldBy(a).Some? ==>
          Binds(cfg, db, HeldBy(a).value, a.request, a.subject) && Unassigned(approvedBy, HeldBy(a).value))
    && (a.Creating? && NeedsConfirmation(cfg, a.request) ==> a.approval.Some?)
  }

  predicate HandlersDiffer(actors: seq<Actor>, m: nat, n: nat) {
    m < n < |actors| && HeldBy(actors[m]).Some? ==> HeldBy(actors[n]) != HeldBy(actors[m])
  }

  ghost predicate TableOk(cfg: Config, db: Db, approvedBy: map<string, string>) {
    && (forall c: string :: SpentOk(db, c))
    && (forall j: string :: ApprovedOk(cfg, db, approvedBy, j))
    && (forall j: string, k: string :: ApprovalsDiffer(approvedBy, j, k))
  }

  ghost predicate HandlersOk(cfg: Config, s: System) {
    && (forall a | a in s.actors :: HandlerOk(cfg, s.db, s.approvedBy, a))
    && (forall m: nat, n: nat :: HandlersDiffer(s.actors, m, n))
  }

  ghost predicate ApprovalsOk(cfg: Config, s: System) {
    TableOk(cfg, s.db, s.approvedBy) && HandlersOk(cfg, s)
  }

  lemma InitApprovals(cfg: Config, s: System)
    requires Init(s)
    ensures ApprovalsOk(cfg, s)
  {
    forall c: string ensures SpentOk(s.db, c) {}
    forall j: string ensures ApprovedOk(cfg, s.db, s.approvedBy, j) {}
    forall j: string, k: string ensures ApprovalsDiffer(s.approvedBy, j, k) {}
    forall m: nat, n: nat ensures HandlersDiffer(s.actors, m, n) {}
  }

  /** Once bound, a confirmation stays bound. */
  ghost predicate KeepsConsumed(db: Db, db': Db) {
    && db.log <= db'.log
    && forall c | c in db.confirmations && db.confirmations[c].usedAt.Some? ::
         c in db'.confirmations && db'.confirmations[c] == db.confirmations[c]
  }

  lemma BindsKept(cfg: Config, db: Db, db': Db, c: string, r: ActionRequest, subject: Subject)
    requires Binds(cfg, db, c, r, subject) && KeepsConsumed(db, db')
    ensures Binds(cfg, db', c, r, subject)
  {
  }

  // ---------- handlers ----------

  /** Nothing new is held: the actor keeps its approval for the same request, or lets it go. */
  predicate HoldsNoMore(a: Actor, a': Actor) {
    HeldBy(a').None? || (HeldBy(a') == HeldBy(a) && a'.request == a.request && a'.subject == a.subject)
  }

  lemma HandlersKept(cfg: Config, s: System, i: nat, a: Actor, s': System)
    requires HandlersOk(cfg, s) && i < |s.actors| && s'.actors == s.actors[i := a]
    requires KeepsConsumed(s.db, s'.db) && s'.approvedBy == s.approvedBy
    requires HoldsNoMore(s.actors[i], a)
    requires a.Creating? && NeedsConfirmation(cfg, a.request) ==> a.approval.Some?
    ensures HandlersOk(cfg, s')
  {
    forall b | b in s'.actors ensures HandlerOk(cfg, s'.db, s'.approvedBy, b) {
      var was := if b == a then s.actors[i] else b;
      assert was in s.actors;
      assert HandlerOk(cfg, s.db, s.approvedBy, was);
      if HeldBy(b).Some? { BindsKept(cfg, s.db, s'.db, HeldBy(b).value, b.request, b.subject); }
    }
    forall m: nat, n: nat ensures HandlersDiffer(s'.actors, m, n) { assert HandlersDiffer(s.actors, m, n); }
  }

  lemma HandlersSame(cfg: Config, s: System, s': System)
    requires HandlersOk(cfg, s) && s'.actors == s.actors
    requires KeepsConsumed(s.db, s'.db) && s'.approvedBy == s.approvedBy
    ensures HandlersOk(cfg, s')
  {
    forall b | b in s'.actors ensures HandlerOk(cfg, s'.db, s'.approvedBy, b) {
      assert HandlerOk(cfg, s.db, s.approvedBy, b);
      if HeldBy(b).Some? { BindsKept(cfg, s.db, s'.db, HeldBy(b).value, b.request, b.subject); }
    }
  }

  // ---------- the table ----------

  lemma TableKept(cfg: Config, db: Db, db': Db, approvedBy: map<string, string>)
    requires TableOk(cfg, db, approvedBy)
    requires KeepsConsumed(db, db') && JobsAdvance(db.jobs, db'.jobs) && db'.jobs.Keys == db.jobs.Keys
    requires forall c: string :: SpentOk(db', c)
    ensures TableOk(cfg, db', approvedBy)
  {
    forall j: string ensures ApprovedOk(cfg, db', approvedBy, j) {
      assert ApprovedOk(cfg, db, approvedBy, j) && JobAdvances(db.jobs, db'.jobs, j);
      if j in approvedBy { BindsKept(cfg, db, db', approvedBy[j], db.jobs[j].request, db.jobs[j].subject); }
    }
  }

  lemma JobsOnlyTable(cfg: Config, db: Db, db': Db, approvedBy: map<string, string>)
    requires TableOk(cfg, db, approvedBy) && JobsOnly(db, db')
    ensures TableOk(cfg, db', approvedBy)
  {
    forall c: string ensures SpentOk(db', c) { assert SpentOk(db, c) && SameSpendings(db.log, db'.log, c); }
    TableKept(cfg, db, db', approvedBy);
  }

  /** The jobs stay, the log gains one event, and exactly the spent confirmations are marked. */
  lemma AsideTable(cfg: Config, db: Db, db': Db, e: Event, approvedBy: map<string, string>)
    requires TableOk(cfg, db, approvedBy) && db'.jobs == db.jobs && db'.log == db.log + [e]
    requires KeepsConsumed(db, db')
    requires forall c: string ::
               (if c in db'.confirmations && db'.confirmations[c].usedAt.Some? then 1 else 0)
               == (if c in db.confirmations && db.confirmations[c].usedAt.Some? then 1 else 0)
                  + (if Spends(e, c) then 1 else 0)
    ensures TableOk(cfg, db', approvedBy)
  {
    forall c: string ensures SpentOk(db', c) {
      assert SpentOk(db, c);
      SpendingsAppend(db.log, e, c);
    }
    AdvanceRefl(db.jobs);
    TableKept(cfg, db, db', approvedBy);
  }

  // ---------- steps about jobs only ----------

  lemma ActorsOutsideApi(cfg: Config, s: System, l: Label, s': System)
    requires !IsApiLabel(l) && Step(cfg, s, l, s')
    ensures s'.approvedBy == s.approvedBy
    ensures l.ExpireQueue? ==> s'.actors == s.actors
    ensures !l.ExpireQueue? ==>
              && l.i < |s.actors| == |s'.actors|
              && s'.actors == s.actors[l.i := s'.actors[l.i]]
              && (s'.actors[l.i] == s.actors[l.i] || (HeldBy(s'.actors[l.i]).None? && !s'.actors[l.i].Creating?))
  {
    if IsWorkerLabel(l) {
      WorkerActors(cfg, s, l, s');
    }
  }

  lemma WorkerActors(cfg: Config, s: System, l: Label, s': System)
    requires IsWorkerLabel(l) && WorkerStep(cfg, s, l, s')
    ensures s'.approvedBy == s.approvedBy
    ensures l.i < |s.actors| == |s'.actors|
    ensures s'.actors == s.actors[l.i := s'.actors[l.i]]
    ensures s'.actors[l.i] == s.actors[l.i] || (HeldBy(s'.actors[l.i]).None? && !s'.actors[l.i].Creating?)
  {
  }

  lemma JobStepApprovals(cfg: Config, s: System, l: Label, s': System)
    requires ApprovalsOk(cfg, s) && EngineOk(cfg, s) && Step(cfg, s, l, s') && !IsApiLabel(l)
    ensures ApprovalsOk(cfg, s')
  {
    if IsWorkerLabel(l) { WorkerStepAdvances(cfg, s, l, s'); } else { RecoveryStepAdvances(cfg, s, l, s'); }
    ActorsOutsideApi(cfg, s, l, s');
    JobsOnlyTable(cfg, s.db, s'.db, s.approvedBy);
    if l.ExpireQueue? || s'.actors[l.i] == s.actors[l.i] {
      assert s'.actors == s.actors;
      HandlersSame(cfg, s, s');
    } else {
      HandlersKept(cfg, s, l.i, s'.actors[l.i], s');
    }
  }

  // ---------- API steps ----------

  lemma PlanApprovals(cfg: Config, s: System, r: ActionRequest, subject: Subject, id: string, token: string,
                      expires: DateTime, now: DateTime, s': System)
    requires ApprovalsOk(cfg, s) && StepPlan(cfg, s, r, subject, id, token, expires, now, s')
    ensures ApprovalsOk(cfg, s')
  {
    if s' != s {
      AsideTable(cfg, s.db, s'.db, s'.db.log[|s.db.log|], s.approvedBy);
      HandlersSame(cfg, s, s');
    }
  }

  lemma DropApprovals(cfg: Config, s: System, c: string, subject: Subject, now: DateTime, s': System)
    requires ApprovalsOk(cfg, s) && StepDropConfirmation(s, c, subject, now, s')
    ensures ApprovalsOk(cfg, s')
  {
    if s' != s {
      AsideTable(cfg, s.db, s'.db, s'.db.log[|s.db.log|], s.approvedBy);
      HandlersSame(cfg, s, s');
    }
  }

  lemma AuthorizeApprovals(cfg: Config, s: System, i: nat, s': System)
    requires ApprovalsOk(cfg, s) && i < |s.actors| && StepAuthorize(cfg, s, i, s')
    ensures ApprovalsOk(cfg, s')
  {
    if s'.db != s.db { AsideTable(cfg, s.db, s'.db, s'.db.log[|s.db.log|], s.approvedBy); }
    HandlersKept(cfg, s, i, s'.actors[i], s');
  }

  /** Consuming a confirmation: it was unused, so no job and no other handler has it. */
  lemma AcceptApprovals(cfg: Config, s: System, i: nat, r: ActionRequest, subject: Subject, c: string,
                        now: DateTime, s': System)
    requires ApprovalsOk(cfg, s) && i < |s.actors| && s.actors[i].Idle?
    requires c in s.db.confirmations && Pending(s.db.confirmations[c], cfg.confirmationDigest(AuthorityOf(r)), subject)
    requires s.db.confirmations[c].control == r.context.control
    requires s' == Become(s, i, Authorizing(r, subject, Some(c))).(
                     db := s.db.(confirmations := s.db.confirmations[c := s.db.confirmations[c].(usedAt := Some(now))],
                                 log := s.db.log + [ConfirmationConsumed(c, s.db.confirmations[c].digest)]))
    ensures ApprovalsOk(cfg, s')
  {
    AsideTable(cfg, s.db, s'.db, ConfirmationConsumed(c, s.db.confirmations[c].digest), s.approvedBy);
    assert Unassigned(s.approvedBy, c) by {
      forall j | j in s.approvedBy ensures s.approvedBy[j] != c { assert ApprovedOk(cfg, s.db, s.approvedBy, j); }
    }
    NewHolder(cfg, s, i, Authorizing(r, subject, Some(c)), c, s');
  }

  /** One more handler holds a confirmation that nobody had used before. */
  lemma NewHolder(cfg: Config, s: System, i: nat, a: Actor, c: string, s': System)
    requires HandlersOk(cfg, s) && i < |s.actors| && s'.actors == s.actors[i := a] && s'.approvedBy == s.approvedBy
    requires KeepsConsumed(s.db, s'.db) && c in s.db.confirmations && s.db.confirmations[c].usedAt.None?
    requires HeldBy(a) == Some(c) && HandlerOk(cfg, s'.db, s'.approvedBy, a)
    ensures HandlersOk(cfg, s')
  {
    forall b | b in s'.actors ensures HandlerOk(cfg, s'.db, s'.approvedBy, b) {
      if b != a {
        assert HandlerOk(cfg, s.db, s.approvedBy, b);
        if HeldBy(b).Some? { BindsKept(cfg, s.db, s'.db, HeldBy(b).value, b.request, b.subject); }
      }
    }
    forall m: nat, n: nat ensures HandlersDiffer(s'.actors, m, n) {
      assert HandlersDiffer(s.actors, m, n);
      if m < n < |s.actors| {
        assert HandlerOk(cfg, s.db, s.approvedBy, s.actors[m]) && HandlerOk(cfg, s.db, s.approvedBy, s.actors[n]);
      }
    }
  }

  lemma SubmitApprovals(cfg: Config, s: System, i: nat, r: ActionRequest, subject: Subject, row: Option<string>,
                        now: DateTime, s': System)
    requires ApprovalsOk(cfg, s) && i < |s.actors| && StepSubmit(cfg, s, i, r, subject, row, now, s')
    ensures ApprovalsOk(cfg, s')
  {
    if HeldBy(s'.actors[i]).Some? {
      AcceptApprovals(cfg, s, i, r, subject, row.value, now, s');
    } else {
      if s'.db != s.db { AsideTable(cfg, s.db, s'.db, s'.db.log[|s.db.log|], s.approvedBy); }
      assert s'.actors == s.actors[i := s'.actors[i]];
      HandlersKept(cfg, s, i, s'.actors[i], s');
    }
  }

  /** The handler's approval becomes the new job's. */
  lemma InsertApprovals(cfg: Config, s: System, i: nat, id: string, now: DateTime, s': System)
    requires ApprovalsOk(cfg, s) && i < |s.actors| && id !in s.db.jobs
    requires StepCreate(cfg, s, i, id, None, now, s')
    ensures ApprovalsOk(cfg, s')
  {
    var a := s.actors[i];
    assert HandlerOk(cfg, s.db, s.approvedBy, a);
    assert ApprovedOk(cfg, s.db, s.approvedBy, id);
    InsertTable(cfg, s.db, s'.db, s.approvedBy, s'.approvedBy, id, a.approval, now, a.request, a.subject);
    forall b | b in s'.actors ensures HandlerOk(cfg, s'.db, s'.approvedBy, b) {
      if b != Idle {
        var n :| 0 <= n < |s.actors| && n != i && s.actors[n] == b;
        assert HandlerOk(cfg, s.db, s.approvedBy, b);
        assert HandlersDiffer(s.actors, i, n) && HandlersDiffer(s.actors, n, i);
        if HeldBy(b).Some? { BindsKept(cfg, s.db, s'.db, HeldBy(b).value, b.request, b.subject); }
      }
    }
    forall m: nat, n: nat ensures HandlersDiffer(s'.actors, m, n) { assert HandlersDiffer(s.actors, m, n); }
  }

  lemma InsertTable(cfg: Config, db: Db, db': Db, approvedBy: map<string, string>, approvedBy': map<string, string>,
                    id: string, approval: Option<string>, now: DateTime, r: ActionRequest, subject: Subject)
    requires TableOk(cfg, db, approvedBy) && id !in db.jobs && id !in approvedBy
    requires var job := NewJob(cfg, r, subject, now); db' == Put(db, id, job, JobQueued(id, job.digest, subject))
    requires approvedBy' == if approval.Some? then approvedBy[id := approval.value] else approvedBy
    requires approval.Some? ==> Binds(cfg, db, approval.value, r, subject) && Unassigned(approvedBy, approval.value)
    requires NeedsConfirmation(cfg, r) ==> approval.Some?
    ensures TableOk(cfg, db', approvedBy')
  {
    var e := JobQueued(id, NewJob(cfg, r, subject, now).digest, subject);
    forall c: string ensures SpentOk(db', c) {
      assert SpentOk(db, c);
      SpendingsAppend(db.log, e, c);
    }
    forall j: string ensures ApprovedOk(cfg, db', approvedBy', j) {
      assert ApprovedOk(cfg, db, approvedBy, j);
      if j == id && approval.Some? { BindsKept(cfg, db, db', approval.value, r, subject); }
      else if j in approvedBy { BindsKept(cfg, db, db', approvedBy[j], db.jobs[j].request, db.jobs[j].subject); }
    }
    forall j: string, k: string ensures ApprovalsDiffer(approvedBy', j, k) {
      assert ApprovalsDiffer(approvedBy, j, k);
    }
  }

  lemma CreateApprovals(cfg: Config, s: System, i: nat, id: string, found: Option<string>, now: DateTime, s': System)
    requires ApprovalsOk(cfg, s) && i < |s.actors| && StepCreate(cfg, s, i, id, found, now, s')
    ensures ApprovalsOk(cfg, s')
  {
    if found.None? { InsertApprovals(cfg, s, i, id, now, s'); }
    else { HandlersKept(cfg, s, i, Idle, s'); }
  }

  lemma ApiStepApprovals(cfg: Config, s: System, l: Label, s': System)
    requires ApprovalsOk(cfg, s) && IsApiLabel(l) && ApiStep(cfg, s, l, s')
    ensures ApprovalsOk(cfg, s')
  {
    match l
    case Plan(r, subject, id, token, expires, now) => PlanApprovals(cfg, s, r, subject, id, token, expires, now, s');
    case DropConfirmation(c, subject, now) => DropApprovals(cfg, s, c, subject, now, s');
    case Submit(i, r, subject, row, now) => SubmitApprovals(cfg, s, i, r, subject, row, now, s');
    case Authorize(i) => AuthorizeApprovals(cfg, s, i, s');
    case Create(i, id, found, now) => CreateApprovals(cfg, s, i, id, found, now, s');
  }

  /** Conservation of approvals is kept by every step. */
  lemma ApprovalsStepOk(cfg: Config, s: System, l: Label, s': System)
    requires ApprovalsOk(cfg, s) && EngineOk(cfg, s) && Step(cfg, s, l, s')
    ensures ApprovalsOk(cfg, s')
  {
    if IsApiLabel(l) { ApiStepApprovals(cfg, s, l, s'); } else { JobStepApprovals(cfg, s, l, s'); }
  }
}
