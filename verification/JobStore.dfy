/**
 The store's tables as values, and one function per transaction. A transaction that
 raises leaves the tables as they were. The row a SELECT returns is a parameter,
 constrained by a predicate that states the query.
 */
module JobStore {
  import opened Models
  import opened Clock

  datatype Job = Job(
    key: string, request: ActionRequest, digest: string, subject: Subject, state: JobState,
    leaseOwner: Option<string>, leaseToken: Option<string>, leaseExpiresAt: Option<DateTime>,
    attempts: nat, result: Option<ResultDoc>, error: Option<JobError>,
    createdAt: DateTime, updatedAt: DateTime)

  datatype Confirmation = Confirmation(
    tokenHash: string, digest: string, subjectName: string, subjectDevice: string,
    control: Option<string>, mode: ConfirmationMode, expectedResponse: Option<string>,
    expiresAt: DateTime, usedAt: Option<DateTime>, createdAt: DateTime)

  datatype RejectReason = NoMatch | TokenMismatch | ChallengeExpired | ControlMismatch | ResponseMismatch

  /** The audit events, each with the payload the store writes. */
  datatype Event =
    | JobQueued(job: string, digest: string, subject: Subject)
    | JobRunning(job: string, worker: string)
    | JobMoved(job: string, target: JobState, result: Option<ResultDoc>, error: Option<JobError>)
    | LeaseExpired(job: string)
    | QueueExpired(job: string)
    | ReconcileExhausted(job: string, attempts: nat)
    | ConfirmationCreated(confirmation: string, digest: string, mode: ConfirmationMode, control: Option<string>)
    | ConfirmationRejected(digest: string, subject: Subject, reason: RejectReason)
    | ConfirmationConsumed(confirmation: string, digest: string)
    | ConfirmationCancelled(confirmation: string, subject: Subject)
    | PolicyDenied(phase: Phase, actionId: string, actionVersion: nat, deniedTarget: Target, subject: Subject,
                   digest: string, denial: DenialReason)

  datatype Db = Db(jobs: map<string, Job>, confirmations: map<string, Confirmation>, log: seq<Event>)

  datatype StoreFailure = KeyReused | JobNotFound | StaleLease | InvalidTransition

  const LEASE_EXPIRED_ERROR :=
    JobError("lease_expired", "worker lease expired; reconciliation required", ReconcileFirst, true, "")

  function View(id: string, job: Job): JobView {
    JobView(id, job.state, job.result, job.error)
  }

  function Put(db: Db, id: string, job: Job, e: Event): Db {
    db.(jobs := db.jobs[id := job], log := db.log + [e])
  }

  // ---------- create_job ----------

  /** `SELECT * FROM jobs WHERE idempotency_key = ?` */
  predicate FoundByKey(db: Db, key: string, found: Option<string>) {
    match found
    case None => forall j | j in db.jobs :: db.jobs[j].key != key
    case Some(j) => j in db.jobs && db.jobs[j].key == key
  }

  function NewJob(cfg: Config, r: ActionRequest, subject: Subject, now: DateTime): Job {
    Job(r.idempotencyKey, r, cfg.requestDigest(IdentityOf(r)), subject, Queued,
        None, None, None, 0, None, None, now, now)
  }

  function CreateJob(cfg: Config, db: Db, found: Option<string>, id: string, r: ActionRequest,
                     subject: Subject, now: DateTime): (Db, Result<JobView, StoreFailure>)
    requires FoundByKey(db, r.idempotencyKey, found)
  {
    var digest := cfg.requestDigest(IdentityOf(r));
    match found
    case Some(j) =>
      if db.jobs[j].digest != digest then (db, Failure(KeyReused))
      else (db, Success(View(j, db.jobs[j])))
    case None =>
      var job := NewJob(cfg, r, subject, now);
      (Put(db, id, job, JobQueued(id, digest, subject)), Success(View(id, job)))
  }

  // ---------- claim_next_job, renew_lease ----------

  const DEFAULT_LEASE_SECONDS := 30
  const LEASE_HEADROOM_SECONDS := 15

  function LeaseFor(cfg: Config, r: ActionRequest): nat {
    match cfg.validate(r)
    case None => DEFAULT_LEASE_SECONDS
    case Some(action) => action.timeoutSeconds + LEASE_HEADROOM_SECONDS
  }

  predicate Claimable(job: Job, now: DateTime) {
    job.state.Queued? && (job.leaseExpiresAt.None? || TextBefore(job.leaseExpiresAt.value, now))
  }

  /** The oldest claimable row, if there is one. */
  predicate NextClaimable(db: Db, now: DateTime, row: Option<string>) {
    match row
    case None => forall j | j in db.jobs :: !Claimable(db.jobs[j], now)
    case Some(j) =>
      && j in db.jobs && Claimable(db.jobs[j], now)
      && forall k | k in db.jobs && Claimable(db.jobs[k], now) ::
           !TextBefore(db.jobs[k].createdAt, db.jobs[j].createdAt)
  }

  function Leased(job: Job, worker: string, token: string, until: DateTime, now: DateTime): Job {
    job.(state := Running, leaseOwner := Some(worker), leaseToken := Some(token),
         leaseExpiresAt := Some(until), updatedAt := now)
  }

  function ClaimJob(db: Db, j: string, worker: string, token: string, until: DateTime, now: DateTime): Db
    requires j in db.jobs
  {
    Put(db, j, Leased(db.jobs[j], worker, token, until, now), JobRunning(j, worker))
  }

  function RenewLease(db: Db, j: string, token: string, until: DateTime, now: DateTime): (Db, bool) {
    if j in db.jobs && db.jobs[j].leaseToken == Some(token)
       && (db.jobs[j].state.Running? || db.jobs[j].state.Verifying?)
    then
      (db.(jobs := db.jobs[j := db.jobs[j].(leaseExpiresAt := Some(until), updatedAt := now)]), true)
    else
      (db, false)
  }

  // ---------- transition_job ----------

  function Moved(job: Job, target: JobState, result: Option<ResultDoc>, error: Option<JobError>, now: DateTime): Job {
    var keep := target == Verifying;
    job.(state := target, result := result, error := error,
         leaseOwner := if keep then job.leaseOwner else None,
         leaseToken := if keep then job.leaseToken else None,
         leaseExpiresAt := if keep then job.leaseExpiresAt else None,
         updatedAt := now)
  }

  function TransitionJob(db: Db, j: string, target: JobState, result: Option<ResultDoc>,
                         error: Option<JobError>, fence: Option<string>,
                         expected: Option<JobState>, now: DateTime): (Db, Result<JobView, StoreFailure>)
  {
    if j !in db.jobs then (db, Failure(JobNotFound))
    else
      var job := db.jobs[j];
      if fence.Some? && job.leaseToken != fence then (db, Failure(StaleLease))
      else if expected.Some? && job.state != expected.value then (db, Failure(StaleLease))
      else if !CanMove(job.state, target) then (db, Failure(InvalidTransition))
      else
        var after := Moved(job, target, result, error, now);
        (Put(db, j, after, JobMoved(j, target, result, error)), Success(View(j, after)))
  }

  // ---------- expire_leases, expire_stale_queued ----------

  predicate LeaseLapsed(job: Job, now: DateTime) {
    (job.state.Running? || job.state.Verifying?)
    && job.leaseExpiresAt.Some? && TextBefore(job.leaseExpiresAt.value, now)
  }

  predicate QueueLapsed(job: Job, cutoff: DateTime) {
    job.state.Queued? && TextBefore(job.createdAt, cutoff)
  }

  function Unleased(job: Job): Job {
    job.(leaseOwner := None, leaseToken := None, leaseExpiresAt := None)
  }

  function ExpireLease(db: Db, j: string, now: DateTime): Db
    requires j in db.jobs
  {
    Put(db, j, Unleased(db.jobs[j]).(state := UnknownOutcome, error := Some(LEASE_EXPIRED_ERROR), updatedAt := now),
        LeaseExpired(j))
  }

  function ExpireQueued(db: Db, j: string, now: DateTime): Db
    requires j in db.jobs
  {
    Put(db, j, Unleased(db.jobs[j]).(state := Expired, updatedAt := now), QueueExpired(j))
  }

  predicate Distinct(rows: seq<string>) {
    forall a, b | 0 <= a < b < |rows| :: rows[a] != rows[b]
  }

  /** `rows` are exactly the ids of the jobs whose lease has lapsed, each once. */
  predicate SelectsLapsedLeases(db: Db, now: DateTime, rows: seq<string>) {
    && Distinct(rows)
    && (forall j | j in rows :: j in db.jobs && LeaseLapsed(db.jobs[j], now))
    && (forall j | j in db.jobs && LeaseLapsed(db.jobs[j], now) :: j in rows)
  }

  predicate SelectsLapsedQueue(db: Db, cutoff: DateTime, rows: seq<string>) {
    && Distinct(rows)
    && (forall j | j in rows :: j in db.jobs && QueueLapsed(db.jobs[j], cutoff))
    && (forall j | j in db.jobs && QueueLapsed(db.jobs[j], cutoff) :: j in rows)
  }

  function ExpireLeases(db: Db, rows: seq<string>, now: DateTime): (r: Db)
    requires forall j | j in rows :: j in db.jobs
    ensures r.jobs.Keys == db.jobs.Keys
  {
    if rows == [] then db
    else ExpireLease(ExpireLeases(db, rows[..|rows| - 1], now), rows[|rows| - 1], now)
  }

  function ExpireStaleQueued(db: Db, rows: seq<string>, now: DateTime): (r: Db)
    requires forall j | j in rows :: j in db.jobs
    ensures r.jobs.Keys == db.jobs.Keys
  {
    if rows == [] then db
    else ExpireQueued(ExpireStaleQueued(db, rows[..|rows| - 1], now), rows[|rows| - 1], now)
  }

  // ---------- claim_reconcile_candidates ----------

  /** The `limit` least recently updated UNKNOWN_OUTCOME rows, in that order. */
  predicate SelectsUnknown(db: Db, limit: nat, rows: seq<string>) {
    && Distinct(rows)
    && |rows| <= limit
    && (forall j | j in rows :: j in db.jobs && db.jobs[j].state.UnknownOutcome?)
    && (forall a, b | 0 <= a < b < |rows| ::
          !TextBefore(db.jobs[rows[b]].updatedAt, db.jobs[rows[a]].updatedAt))
    && (forall j | j in db.jobs && db.jobs[j].state.UnknownOutcome? && j !in rows ::
          |rows| == limit && forall a | 0 <= a < |rows| ::
            !TextBefore(db.jobs[j].updatedAt, db.jobs[rows[a]].updatedAt))
  }

  function ClaimCandidate(db: Db, j: string, max: nat): Db
    requires j in db.jobs
  {
    var n := db.jobs[j].attempts + 1;
    var counted := db.(jobs := db.jobs[j := db.jobs[j].(attempts := n)]);
    if n == max then counted.(log := counted.log + [ReconcileExhausted(j, n)]) else counted
  }

  function ClaimCandidates(db: Db, rows: seq<string>, max: nat): (r: (Db, seq<JobView>))
    requires forall j | j in rows :: j in db.jobs
    ensures r.0.jobs.Keys == db.jobs.Keys
  {
    if rows == [] then (db, [])
    else
      var (before, views) := ClaimCandidates(db, rows[..|rows| - 1], max);
      var j := rows[|rows| - 1];
      if before.jobs[j].attempts >= max then (before, views)
      else (ClaimCandidate(before, j, max), views + [View(j, before.jobs[j])])
  }

  // ---------- confirmations ----------

  predicate IsAscii(s: string) {
    forall c | c in s :: c < 128 as char
  }

  function NewConfirmation(cfg: Config, r: ActionRequest, subject: Subject, mode: ConfirmationMode,
                           token: string, expires: DateTime, now: DateTime): Confirmation {
    Confirmation(cfg.tokenHash(token), cfg.confirmationDigest(AuthorityOf(r)), subject.name, subject.device,
                 r.context.control, mode, if mode == Typed then Some(r.target.id) else None,
                 expires, None, now)
  }

  function CreateConfirmation(cfg: Config, db: Db, id: string, r: ActionRequest, subject: Subject,
                              mode: ConfirmationMode, token: string, expires: DateTime, now: DateTime): Db {
    var c := NewConfirmation(cfg, r, subject, mode, token, expires, now);
    db.(confirmations := db.confirmations[id := c],
        log := db.log + [ConfirmationCreated(id, c.digest, mode, r.context.control)])
  }

  predicate Pending(c: Confirmation, digest: string, subject: Subject) {
    c.digest == digest && c.subjectName == subject.name && c.subjectDevice == subject.device && c.usedAt.None?
  }

  /** The newest unused row for this digest and subject, if there is one. */
  predicate NewestPending(db: Db, digest: string, subject: Subject, row: Option<string>) {
    match row
    case None => forall c | c in db.confirmations :: !Pending(db.confirmations[c], digest, subject)
    case Some(c) =>
      && c in db.confirmations && Pending(db.confirmations[c], digest, subject)
      && forall d | d in db.confirmations && Pending(db.confirmations[d], digest, subject) ::
           !TextBefore(db.confirmations[c].createdAt, db.confirmations[d].createdAt)
  }

  /** The check accepts, refuses with a reason, or `hmac.compare_digest` raises on non-ASCII text. */
  datatype Verdict = Accept | Reject(reason: RejectReason) | CompareRaises

  function Judge(row: Option<Confirmation>, tokenHash: string, r: ActionRequest,
                 response: Option<string>, now: DateTime): Verdict {
    match row
    case None => Reject(NoMatch)
    case Some(c) =>
      if c.tokenHash != tokenHash then Reject(TokenMismatch)
      else if !Before(now, c.expiresAt) then Reject(ChallengeExpired)
      else if c.control != r.context.control then Reject(ControlMismatch)
      else if c.expectedResponse.None? then Accept
      else
        var given := if response.Some? then response.value else "";
        if !IsAscii(c.expectedResponse.value) || !IsAscii(given) then CompareRaises
        else if c.expectedResponse.value != given then Reject(ResponseMismatch)
        else Accept
  }

  function Consume(cfg: Config, db: Db, row: Option<string>, r: ActionRequest, subject: Subject,
                   token: string, response: Option<string>, now: DateTime): (Db, Verdict)
    requires row.Some? ==> row.value in db.confirmations
  {
    var digest := cfg.confirmationDigest(AuthorityOf(r));
    var found := if row.Some? then Some(db.confirmations[row.value]) else None;
    var verdict := Judge(found, cfg.tokenHash(token), r, response, now);
    match verdict
    case CompareRaises => (db, verdict)
    case Reject(reason) => (db.(log := db.log + [ConfirmationRejected(digest, subject, reason)]), verdict)
    case Accept =>
      if row.None? then (db, verdict)
      else
        (db.(confirmations := db.confirmations[row.value := db.confirmations[row.value].(usedAt := Some(now))],
             log := db.log + [ConfirmationConsumed(row.value, digest)]), verdict)
  }

  function CancelConfirmation(db: Db, c: string, subject: Subject, now: DateTime): (Db, bool) {
    if c in db.confirmations && db.confirmations[c].subjectName == subject.name
       && db.confirmations[c].subjectDevice == subject.device && db.confirmations[c].usedAt.None?
    then
      (db.(confirmations := db.confirmations[c := db.confirmations[c].(usedAt := Some(now))],
           log := db.log + [ConfirmationCancelled(c, subject)]), true)
    else
      (db, false)
  }

  function RecordDenial(cfg: Config, db: Db, phase: Phase, r: ActionRequest, subject: Subject, reason: DenialReason): Db {
    db.(log := db.log + [PolicyDenied(phase, r.actionId, r.actionVersion, r.target, subject,
                                      cfg.requestDigest(IdentityOf(r)), reason)])
  }
}
