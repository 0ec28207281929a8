/** A challenge issued when a plan is made is good for the matching execution. */
module ApprovalTransfer {
  import opened Models
  import opened Clock
  import opened JobStore
  import opened Engine
  import opened EngineEvolution
  import opened EngineTheorems

  // ---------- confirmation rows over a run ----------

  /** A row stays as issued until it is marked used, and then for good. */
  predicate RowKept(rows: map<string, Confirmation>, rows': map<string, Confirmation>, c: string) {
    c in rows ==>
      && c in rows'
      && (rows'[c] == rows[c]
          || (rows[c].usedAt.None? && rows'[c].usedAt.Some? && rows'[c].(usedAt := None) == rows[c]))
  }

  lemma StepKeepsRow(cfg: Config, s: System, l: Label, s': System, c: string)
    requires EngineInvariant.EngineOk(cfg, s) && Step(cfg, s, l, s')
    ensures RowKept(s.db.confirmations, s'.db.confirmations, c)
  {
    if IsWorkerLabel(l) { WorkerStepAdvances(cfg, s, l, s'); }
    else if IsApiLabel(l) { ApiStepKeepsRow(cfg, s, l, s', c); }
    else { RecoveryStepAdvances(cfg, s, l, s'); }
  }

  lemma ApiStepKeepsRow(cfg: Config, s: System, l: Label, s': System, c: string)
    requires IsApiLabel(l) && ApiStep(cfg, s, l, s')
    ensures RowKept(s.db.confirmations, s'.db.confirmations, c)
  {
    match l
    case Submit(i, r, subject, row, now) => SubmitKeepsRow(cfg, s, i, r, subject, row, now, s', c);
    case Plan(_, _, _, _, _, _) =>
    case DropConfirmation(_, _, _) =>
    case Authorize(_) => assert s'.db.confirmations == s.db.confirmations;
    case Create(_, _, _, _) => assert s'.db.confirmations == s.db.confirmations;
  }

  lemma SubmitKeepsRow(cfg: Config, s: System, i: nat, r: ActionRequest, subject: Subject, row: Option<string>,
                       now: DateTime, s': System, c: string)
    requires i < |s.actors| && StepSubmit(cfg, s, i, r, subject, row, now, s')
    ensures RowKept(s.db.confirmations, s'.db.confirmations, c)
  {
  }

  lemma RunStepKeepsRow(cfg: Config, states: seq<System>, labels: seq<Label>, n: nat, c: string)
    requires IsRun(cfg, states, labels) && n < |labels|
    ensures RowKept(states[n].db.confirmations, states[n + 1].db.confirmations, c)
  {
    RunOk(cfg, states, labels, n);
    assert StepAt(cfg, states, labels, n);
    StepKeepsRow(cfg, states[n], labels[n], states[n + 1], c);
  }

  lemma {:induction false} RunKeepsRow(cfg: Config, states: seq<System>, labels: seq<Label>, m: nat, n: nat, c: string)
    requires IsRun(cfg, states, labels) && m <= n < |states|
    ensures RowKept(states[m].db.confirmations, states[n].db.confirmations, c)
    decreases n
  {
    if m < n {
      RunKeepsRow(cfg, states, labels, m, n - 1, c);
      RunStepKeepsRow(cfg, states, labels, n - 1, c);
    }
  }

  // ---------- consuming ----------

  /** No other unused challenge for the digest and subject is as new as `c`. */
  predicate IsNewest(db: Db, c: string, digest: string, subject: Subject) {
    && c in db.confirmations && Pending(db.confirmations[c], digest, subject)
    && forall d | d in db.confirmations && d != c && Pending(db.confirmations[d], digest, subject) ::
         Before(db.confirmations[d].createdAt, db.confirmations[c].createdAt)
  }

  lemma NewestIsSelected(db: Db, c: string, digest: string, subject: Subject, row: Option<string>)
    requires IsNewest(db, c, digest, subject) && NewestPending(db, digest, subject, row)
    ensures row == Some(c)
  {
    if row.Some? && row.value != c {
      TextOrderIsTimeOrder(db.confirmations[row.value].createdAt, db.confirmations[c].createdAt);
    }
  }

  /** The execute request asks for what the plan request asked for, from the same control. */
  predicate SameIntent(plan: ActionRequest, execute: ActionRequest) {
    && plan.actionId == execute.actionId && plan.actionVersion == execute.actionVersion
    && plan.target == execute.target && plan.parameters == execute.parameters
    && plan.context.control == execute.context.control
  }

  /** `hmac.compare_digest` works on the expected answer. */
  predicate Answerable(mode: ConfirmationMode, r: ActionRequest) {
    mode == Typed ==> IsAscii(r.target.id)
  }

  /**
   For any later moment of any run at which the challenge is the newest unused one, and for
   every execute request of the same intent, whatever its `dry_run`, idempotency key, profile
   or channel: presented in time with its token and the target's name, the challenge is
   accepted if and only if its mode is not typed or the name is ASCII.
   */
  lemma PlannedApprovalTransfers(cfg: Config, states: seq<System>, labels: seq<Label>, m: nat, n: nat,
                                 plan: ActionRequest, planner: Subject, c: string, token: string,
                                 expires: DateTime, planned: DateTime,
                                 execute: ActionRequest, executor: Subject, row: Option<string>, now: DateTime)
    requires IsRun(cfg, states, labels) && m < n < |states|
    requires labels[m] == Plan(plan, planner, c, token, expires, planned)
    requires c !in states[m].db.confirmations && c in states[m + 1].db.confirmations
    requires SameIntent(plan, execute)
    requires planner.name == executor.name && planner.device == executor.device
    requires IsNewest(states[n].db, c, cfg.confirmationDigest(AuthorityOf(execute)), executor)
    requires NewestPending(states[n].db, cfg.confirmationDigest(AuthorityOf(execute)), executor, row)
    requires Before(now, expires)
    ensures var action := cfg.validate(plan);
            && action.Some?
            && (Consume(cfg, states[n].db, row, execute, executor, token, Some(execute.target.id), now).1 == Accept
                <==> Answerable(action.value.confirmation, plan))
  {
    PlanIssues(cfg, states, labels, m, plan, planner, c, token, expires, planned);
    RunKeepsRow(cfg, states, labels, m + 1, n, c);
    NewestIsSelected(states[n].db, c, cfg.confirmationDigest(AuthorityOf(execute)), executor, row);
    RightAnswer(cfg, states[n].db, c, plan, planner, cfg.validate(plan).value.confirmation, token, expires, planned,
                execute, executor, now);
  }

  lemma RightAnswer(cfg: Config, db: Db, c: string, plan: ActionRequest, planner: Subject, mode: ConfirmationMode,
                    token: string, expires: DateTime, planned: DateTime, execute: ActionRequest, executor: Subject,
                    now: DateTime)
    requires SameIntent(plan, execute) && Before(now, expires)
    requires c in db.confirmations
    requires db.confirmations[c] == NewConfirmation(cfg, plan, planner, mode, token, expires, planned)
    ensures Consume(cfg, db, Some(c), execute, executor, token, Some(execute.target.id), now).1 == Accept
            <==> Answerable(mode, plan)
  {
  }

  lemma PlanIssues(cfg: Config, states: seq<System>, labels: seq<Label>, m: nat, r: ActionRequest, subject: Subject,
                   c: string, token: string, expires: DateTime, now: DateTime)
    requires IsRun(cfg, states, labels) && m < |labels| && labels[m] == Plan(r, subject, c, token, expires, now)
    requires c !in states[m].db.confirmations && c in states[m + 1].db.confirmations
    ensures cfg.validate(r).Some?
    ensures states[m + 1].db.confirmations[c]
         == NewConfirmation(cfg, r, subject, cfg.validate(r).value.confirmation, token, expires, now)
  {
    assert StepAt(cfg, states, labels, m);
  }

  /** The right answer to a typed challenge for a name outside ASCII raises instead of being accepted. */
  lemma NonAsciiNameCannotBeConfirmed(cfg: Config, r: ActionRequest, subject: Subject, token: string,
                                      expires: DateTime, issued: DateTime, now: DateTime)
    requires r.target.id == [233 as char] && Before(now, expires)
    ensures Judge(Some(NewConfirmation(cfg, r, subject, Typed, token, expires, issued)), cfg.tokenHash(token), r,
                  Some(r.target.id), now) == CompareRaises
  {
    assert (233 as char) in r.target.id;
  }

  /**
   Whatever is presented, an attempt that is not accepted leaves jobs and confirmations alone. A
   rejection is logged with its reason, which is the first thing wrong; a comparison that raises
   logs nothing.
   */
  lemma RefusedAttemptChangesNothing(cfg: Config, db: Db, row: Option<string>, r: ActionRequest, subject: Subject,
                                     token: string, response: Option<string>, now: DateTime)
    requires NewestPending(db, cfg.confirmationDigest(AuthorityOf(r)), subject, row)
    ensures var (db', verdict) := Consume(cfg, db, row, r, subject, token, response, now);
            && (verdict != Accept ==> db'.confirmations == db.confirmations && db'.jobs == db.jobs)
            && (verdict == CompareRaises ==> db'.log == db.log)
            && (verdict.Reject? ==>
                  db'.log == db.log + [ConfirmationRejected(cfg.confirmationDigest(AuthorityOf(r)), subject, verdict.reason)])
            && (verdict == Accept ==>
                  && row.Some? && Pending(db.confirmations[row.value], cfg.confirmationDigest(AuthorityOf(r)), subject)
                  && db'.confirmations.Keys == db.confirmations.Keys
                  && forall c | c in db.confirmations ::
                       (db'.confirmations[c].usedAt != db.confirmations[c].usedAt <==> c == row.value))
    ensures var verdict := Consume(cfg, db, row, r, subject, token, response, now).1;
            (verdict == Reject(NoMatch)
             <==> forall c | c in db.confirmations ::
                    !Pending(db.confirmations[c], cfg.confirmationDigest(AuthorityOf(r)), subject))
    ensures var verdict := Consume(cfg, db, row, r, subject, token, response, now).1;
            row.Some? ==>
              var c := db.confirmations[row.value];
              var fits := c.tokenHash == cfg.tokenHash(token);
              var inTime := Instant(now) < Instant(c.expiresAt);
              var given := if response.Some? then response.value else "";
              var fromControl := fits && inTime && c.control == r.context.control;
              && (verdict == Reject(TokenMismatch) <==> !fits)
              && (verdict == Reject(ChallengeExpired) <==> fits && !inTime)
              && (verdict == Reject(ControlMismatch) <==> fits && inTime && c.control != r.context.control)
              && (verdict == Reject(ResponseMismatch) <==>
                    && fromControl && c.expectedResponse.Some? && c.expectedResponse.value != given
                    && IsAscii(c.expectedResponse.value + given))
              && (verdict == CompareRaises <==>
                    fromControl && c.expectedResponse.Some? && !IsAscii(c.expectedResponse.value + given))
  {
    if row.Some? {
      var c := db.confirmations[row.value];
      AsciiTogether(if c.expectedResponse.Some? then c.expectedResponse.value else "",
                    if response.Some? then response.value else "");
    }
  }

  lemma AsciiTogether(a: string, b: string)
    ensures IsAscii(a + b) <==> IsAscii(a) && IsAscii(b)
  {
    if IsAscii(a + b) {
      forall c | c in a ensures c < 128 as char { assert c in a + b; }
      forall c | c in b ensures c < 128 as char { assert c in a + b; }
    }
  }

  /** A challenge is only ever accepted for the authority, subject and control it was issued for. */
  lemma AcceptedMeansIntended(cfg: Config, db: Db, row: Option<string>, plan: ActionRequest, planner: Subject,
                              mode: ConfirmationMode, token: string, expires: DateTime, planned: DateTime,
                              r: ActionRequest, subject: Subject, presented: string, response: Option<string>, now: DateTime)
    requires Injective(cfg.confirmationDigest)
    requires forall x, y :: cfg.tokenHash(x) == cfg.tokenHash(y) ==> x == y
    requires NewestPending(db, cfg.confirmationDigest(AuthorityOf(r)), subject, row)
    requires row.Some? ==>
               db.confirmations[row.value] == NewConfirmation(cfg, plan, planner, mode, token, expires, planned)
    requires Consume(cfg, db, row, r, subject, presented, response, now).1 == Accept
    ensures SameIntent(plan, r) && presented == token && Before(now, expires)
    ensures planner.name == subject.name && planner.device == subject.device
    ensures mode == Typed ==> IsAscii(plan.target.id)
                              && plan.target.id == (if response.Some? then response.value else "")
  {
  }

  // ---------- every approved job goes back to a plan ----------

  /** Step `m` of the run is the plan that issued `c`. */
  predicate IssuedAt(cfg: Config, states: seq<System>, labels: seq<Label>, m: nat, c: string)
    requires |states| == |labels| + 1
  {
    && m < |labels| && labels[m].Plan? && labels[m].id == c
    && c !in states[m].db.confirmations && c in states[m + 1].db.confirmations
  }

  /** Only a plan adds a confirmation. */
  lemma OnlyPlansIssue(cfg: Config, s: System, l: Label, s': System, c: string)
    requires EngineInvariant.EngineOk(cfg, s) && Step(cfg, s, l, s')
    requires c !in s.db.confirmations && c in s'.db.confirmations
    ensures l.Plan? && l.id == c
  {
    if IsWorkerLabel(l) { WorkerStepAdvances(cfg, s, l, s'); }
    else if !IsApiLabel(l) { RecoveryStepAdvances(cfg, s, l, s'); }
    else if l.Submit? { SubmitIssuesNone(cfg, s, l, s'); }
    else if !l.Plan? { HandlersIssueNone(cfg, s, l, s'); }
  }

  lemma SubmitIssuesNone(cfg: Config, s: System, l: Label, s': System)
    requires l.Submit? && ApiStep(cfg, s, l, s')
    ensures s'.db.confirmations.Keys == s.db.confirmations.Keys
  {
  }

  lemma HandlersIssueNone(cfg: Config, s: System, l: Label, s': System)
    requires (l.DropConfirmation? || l.Authorize? || l.Create?) && ApiStep(cfg, s, l, s')
    ensures s'.db.confirmations.Keys == s.db.confirmations.Keys
  {
  }

  lemma {:induction false} IssuedByPlan(cfg: Config, states: seq<System>, labels: seq<Label>, n: nat, c: string)
      returns (m: nat)
    requires IsRun(cfg, states, labels) && n < |states| && c in states[n].db.confirmations
    ensures m < n && IssuedAt(cfg, states, labels, m, c)
  {
    if c in states[n - 1].db.confirmations {
      m := IssuedByPlan(cfg, states, labels, n - 1, c);
    } else {
      m := n - 1;
      RunOk(cfg, states, labels, m);
      assert StepAt(cfg, states, labels, m);
      OnlyPlansIssue(cfg, states[m], labels[m], states[n], c);
    }
  }

  /**
   End to end: a job that needs a confirmation was approved by consuming a challenge that an
   earlier plan issued for the same action, version, target and parameters, from the same
   control, to the same subject and device.
   */
  lemma JobWasPlannedAndApproved(cfg: Config, states: seq<System>, labels: seq<Label>, n: nat, j: string)
      returns (m: nat)
    requires IsRun(cfg, states, labels) && n < |states| && Injective(cfg.confirmationDigest)
    requires j in states[n].db.jobs && NeedsConfirmation(cfg, states[n].db.jobs[j].request)
    ensures m < n && j in states[n].approvedBy
    ensures IssuedAt(cfg, states, labels, m, states[n].approvedBy[j])
    ensures SameIntent(labels[m].request, states[n].db.jobs[j].request)
    ensures labels[m].subject.name == states[n].db.jobs[j].subject.name
    ensures labels[m].subject.device == states[n].db.jobs[j].subject.device
    ensures forall k | k in states[n].approvedBy && k != j :: states[n].approvedBy[k] != states[n].approvedBy[j]
  {
    ApprovalsAreConserved(cfg, states, labels, n);
    var c := states[n].approvedBy[j];
    m := IssuedByPlan(cfg, states, labels, n, c);
    var l := labels[m];
    PlanIssues(cfg, states, labels, m, l.request, l.subject, c, l.token, l.expires, l.now);
    RunKeepsRow(cfg, states, labels, m + 1, n, c);
  }

  // ---------- a spent challenge ----------

  /** The presented token is this row's, in time, from its control and, if typed, with its answer, all in ASCII. */
  predicate Answers(cfg: Config, c: Confirmation, r: ActionRequest, now: DateTime) {
    && r.confirmationToken.Some? && c.tokenHash == cfg.tokenHash(r.confirmationToken.value)
    && Instant(now) < Instant(c.expiresAt) && c.control == r.context.control
    && (c.expectedResponse.Some? ==>
          && IsAscii(c.expectedResponse.value)
          && c.expectedResponse.value == (if r.confirmationResponse.Some? then r.confirmationResponse.value else ""))
  }

  /** The submission's token is accepted: it answers the row the store selects for it. */
  predicate IsApproved(cfg: Config, s: System, l: Label) {
    l.Submit? && l.row.Some? && l.row.value in s.db.confirmations
    && Answers(cfg, s.db.confirmations[l.row.value], l.request, l.now)
  }

  /** What lets a request through to `create_job`, on the request's and its action's own fields. */
  predicate LetThrough(cfg: Config, r: ActionRequest, approved: bool) {
    && cfg.validate(r).Some? && !r.dryRun
    && (cfg.validate(r).value.mutation ==>
          cfg.mutationsEnabled && (cfg.validate(r).value.confirmation == NoConfirmation || approved))
  }

  /** What the policy's refusal records, if it refuses. */
  function Refusal(cfg: Config, r: ActionRequest, subject: Subject, approved: bool): seq<Event> {
    if cfg.validate(r).None? || !cfg.validate(r).value.mutation then []
    else
      var reason := if !cfg.mutationsEnabled then Some(MutationsDisabled)
                    else if cfg.validate(r).value.confirmation != NoConfirmation && !approved then Some(ConfirmationRequired)
                    else None;
      if reason.None? then []
      else [PolicyDenied(ExecutePhase, r.actionId, r.actionVersion, r.target, subject, cfg.requestDigest(IdentityOf(r)),
                         reason.value)]
  }

  /**
   Any request reaches the lookup of its idempotency key if and only if the catalog takes it, it
   is no dry run and, for a mutation, mutations are on and a confirmation its action asks for
   was accepted. Otherwise the handler ends, having at most recorded why it was denied.
   */
  lemma LookupReachedExactly(cfg: Config, s: System, i: nat, r: ActionRequest, subject: Subject, row: Option<string>,
                             now: DateTime, s': System, t: System, t': System)
    requires i < |s.actors| && StepSubmit(cfg, s, i, r, subject, row, now, s')
    requires i < |t.actors| && t.actors[i] == s'.actors[i] && StepAuthorize(cfg, t, i, t')
    ensures var approved := IsApproved(cfg, s, Submit(i, r, subject, row, now));
            && (t'.actors[i].Creating? <==> LetThrough(cfg, r, approved))
            && (!t'.actors[i].Creating? ==> t'.actors[i].Idle?)
            && t'.db.jobs == t.db.jobs && t'.db.confirmations == t.db.confirmations
            && t'.db.log == t.db.log + Refusal(cfg, r, subject, approved)
  {
    AuthorizeDecides(cfg, s, i, r, subject, row, now, s');
  }

  /** The handler carries an approval exactly when the presented token answers the selected row. */
  lemma AuthorizeDecides(cfg: Config, s: System, i: nat, r: ActionRequest, subject: Subject, row: Option<string>,
                         now: DateTime, s': System)
    requires i < |s.actors| && StepSubmit(cfg, s, i, r, subject, row, now, s') && s'.actors[i].Authorizing?
    ensures s'.actors[i].request == r && s'.actors[i].subject == subject
    ensures s'.actors[i].approval.Some? <==> IsApproved(cfg, s, Submit(i, r, subject, row, now))
  {
  }

  /** The token was issued with `c` and with no other challenge. */
  predicate OnlyTokenOf(cfg: Config, db: Db, c: string, token: string) {
    c in db.confirmations && forall d | d in db.confirmations :: db.confirmations[d].tokenHash == cfg.tokenHash(token) <==> d == c
  }

  lemma SpentTokenMatchesNothing(cfg: Config, db: Db, c: string, row: Option<string>, r: ActionRequest, subject: Subject,
                                 token: string, response: Option<string>, now: DateTime)
    requires OnlyTokenOf(cfg, db, c, token) && db.confirmations[c].usedAt.Some?
    requires NewestPending(db, cfg.confirmationDigest(AuthorityOf(r)), subject, row)
    ensures Consume(cfg, db, row, r, subject, token, response, now).1
         == Reject(if row.None? then NoMatch else TokenMismatch)
  {
  }

  /**
   In every run: once a challenge is spent, resubmitting with its token, under whatever key, is
   refused before the key is looked up, so that not even the job it confirmed is returned.
   */
  lemma SpentTokenIsRefused(cfg: Config, states: seq<System>, labels: seq<Label>, m: nat, n: nat, c: string, i: nat,
                            r: ActionRequest, subject: Subject, row: Option<string>, now: DateTime, t: System, t': System)
    requires IsRun(cfg, states, labels) && m <= n < |labels| && labels[n] == Submit(i, r, subject, row, now)
    requires c in states[m].db.confirmations && states[m].db.confirmations[c].usedAt.Some?
    requires r.confirmationToken.Some? && OnlyTokenOf(cfg, states[n].db, c, r.confirmationToken.value)
    requires NeedsConfirmation(cfg, r)
    requires i < |t.actors| && i < |states[n + 1].actors| && t.actors[i] == states[n + 1].actors[i]
    requires StepAuthorize(cfg, t, i, t')
    ensures states[n + 1].db.jobs == states[n].db.jobs && states[n + 1].db.confirmations == states[n].db.confirmations
    ensures t'.actors[i].Idle? && t'.db.jobs == t.db.jobs
  {
    RunKeepsRow(cfg, states, labels, m, n, c);
    assert StepAt(cfg, states, labels, n);
    SpentTokenMatchesNothing(cfg, states[n].db, c, row, r, subject, r.confirmationToken.value, r.confirmationResponse, now);
    LookupReachedExactly(cfg, states[n], i, r, subject, row, now, states[n + 1], t, t');
  }
}
