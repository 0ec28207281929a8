/**
 The store itself: tables updated in place, one method per transaction, an audit row
 appended to the hash chain in the same transaction as each change. Every method is
 proved against the transaction function of `JobStore`.
 */
module Store {
  import opened Models
  import opened Clock
  import opened JobStore
  import opened AuditChain
  import EventFeed

  // ---------- the queries SQLite answers ----------

  /** `SELECT id FROM jobs WHERE p`, in no particular order. */
  method SelectWhere(jobs: map<string, Job>, p: Job -> bool) returns (rows: seq<string>)
    ensures Distinct(rows)
    ensures forall j :: j in rows <==> j in jobs && p(jobs[j])
  {
    rows := [];
    var rest := jobs.Keys;
    while rest != {}
      invariant rest <= jobs.Keys
      invariant Distinct(rows)
      invariant forall j :: j in rows <==> j in jobs && j !in rest && p(jobs[j])
      decreases rest
    {
      var j :| j in rest;
      if p(jobs[j]) { rows := rows + [j]; }
      rest := rest - {j};
    }
  }

  /** The key with the smallest (or the greatest) time, found by comparing texts. */
  method Extreme(at: map<string, DateTime>, greatest: bool) returns (best: string)
    requires at.Keys != {}
    ensures best in at
    ensures forall k | k in at ::
              if greatest then Instant(at[k]) <= Instant(at[best]) else Instant(at[best]) <= Instant(at[k])
  {
    best :| best in at.Keys;
    var rest := at.Keys;
    while rest != {}
      invariant best in at && rest <= at.Keys
      invariant forall k | k in at && k !in rest ::
                  if greatest then Instant(at[k]) <= Instant(at[best]) else Instant(at[best]) <= Instant(at[k])
      decreases rest
    {
      var k :| k in rest;
      TextOrderIsTimeOrder(at[k], at[best]);
      TextOrderIsTimeOrder(at[best], at[k]);
      if (if greatest then TextBefore(at[best], at[k]) else TextBefore(at[k], at[best])) { best := k; }
      rest := rest - {k};
    }
  }

  /** `rows` are the oldest keys in order, `rest` the others. */
  ghost predicate TakenInOrder(time: map<string, int>, rows: seq<string>, rest: set<string>) {
    && Distinct(rows)
    && (forall j :: j in time <==> j in rest || j in rows)
    && (forall j | j in rows :: j !in rest)
    && (forall a, b | 0 <= a < b < |rows| :: time[rows[a]] <= time[rows[b]])
    && (forall a, j | 0 <= a < |rows| && j in rest :: time[rows[a]] <= time[j])
  }

  lemma TakeNext(time: map<string, int>, rows: seq<string>, rest: set<string>, next: string)
    requires TakenInOrder(time, rows, rest) && next in rest && forall j | j in rest :: time[next] <= time[j]
    ensures TakenInOrder(time, rows + [next], rest - {next})
  {
    var rows' := rows + [next];
    assert forall j :: j in rows' <==> j in rows || j == next;
    assert forall a | 0 <= a < |rows| :: rows'[a] == rows[a] && rows[a] in rows;
  }

  /** Keys in order of their times, oldest first, at most `limit` of them. */
  method OldestFirst(at: map<string, DateTime>, limit: nat) returns (rows: seq<string>)
    ensures Distinct(rows) && |rows| <= limit
    ensures forall j | j in rows :: j in at
    ensures forall a, b | 0 <= a < b < |rows| :: Instant(at[rows[a]]) <= Instant(at[rows[b]])
    ensures forall j | j in at && j !in rows ::
              |rows| == limit && forall a | 0 <= a < |rows| :: Instant(at[rows[a]]) <= Instant(at[j])
  {
    rows := [];
    var rest := at;
    ghost var time := map j | j in at :: Instant(at[j]);
    while |rows| < limit && rest.Keys != {}
      invariant |rows| <= limit
      invariant TakenInOrder(time, rows, rest.Keys)
      invariant forall j | j in rest :: j in at && rest[j] == at[j]
      decreases rest.Keys
    {
      var next := Extreme(rest, false);
      TakeNext(time, rows, rest.Keys, next);
      rows := rows + [next];
      rest := rest - {next};
    }
  }

  lemma OldestIsNext(db: Db, now: DateTime, j: string)
    requires j in db.jobs && Claimable(db.jobs[j], now)
    requires forall k | k in db.jobs && Claimable(db.jobs[k], now) ::
               Instant(db.jobs[j].createdAt) <= Instant(db.jobs[k].createdAt)
    ensures NextClaimable(db, now, Some(j))
  {
    forall k | k in db.jobs && Claimable(db.jobs[k], now)
      ensures !TextBefore(db.jobs[k].createdAt, db.jobs[j].createdAt)
    {
      TextOrderIsTimeOrder(db.jobs[k].createdAt, db.jobs[j].createdAt);
    }
  }

  lemma NewestIsNext(db: Db, digest: string, subject: Subject, c: string)
    requires c in db.confirmations && Pending(db.confirmations[c], digest, subject)
    requires forall d | d in db.confirmations && Pending(db.confirmations[d], digest, subject) ::
               Instant(db.confirmations[d].createdAt) <= Instant(db.confirmations[c].createdAt)
    ensures NewestPending(db, digest, subject, Some(c))
  {
    forall d | d in db.confirmations && Pending(db.confirmations[d], digest, subject)
      ensures !TextBefore(db.confirmations[c].createdAt, db.confirmations[d].createdAt)
    {
      TextOrderIsTimeOrder(db.confirmations[c].createdAt, db.confirmations[d].createdAt);
    }
  }

  lemma OldestAreSelected(db: Db, limit: nat, rows: seq<string>)
    requires Distinct(rows) && |rows| <= limit
    requires forall j | j in rows :: j in db.jobs && db.jobs[j].state.UnknownOutcome?
    requires forall a, b | 0 <= a < b < |rows| ::
               Instant(db.jobs[rows[a]].updatedAt) <= Instant(db.jobs[rows[b]].updatedAt)
    requires forall j | j in db.jobs && db.jobs[j].state.UnknownOutcome? && j !in rows ::
               |rows| == limit && forall a | 0 <= a < |rows| ::
                 Instant(db.jobs[rows[a]].updatedAt) <= Instant(db.jobs[j].updatedAt)
    ensures SelectsUnknown(db, limit, rows)
  {
    forall a, b | 0 <= a < b < |rows|
      ensures !TextBefore(db.jobs[rows[b]].updatedAt, db.jobs[rows[a]].updatedAt)
    {
      TextOrderIsTimeOrder(db.jobs[rows[b]].updatedAt, db.jobs[rows[a]].updatedAt);
    }
    forall j, a | j in db.jobs && db.jobs[j].state.UnknownOutcome? && j !in rows && 0 <= a < |rows|
      ensures !TextBefore(db.jobs[j].updatedAt, db.jobs[rows[a]].updatedAt)
    {
      TextOrderIsTimeOrder(db.jobs[j].updatedAt, db.jobs[rows[a]].updatedAt);
    }
  }

  /** A clock reading; nothing is assumed about successive ones. */
  method ReadClock() returns (t: DateTime)
  {
    t := *;
  }

  lemma LeasesNext(db: Db, rows: seq<string>, n: nat, now: DateTime)
    requires n < |rows| && forall i | 0 <= i < |rows| :: rows[i] in db.jobs
    ensures JobStore.ExpireLeases(db, rows[..n + 1], now)
         == ExpireLease(JobStore.ExpireLeases(db, rows[..n], now), rows[n], now)
  {
    assert rows[..n + 1][..n] == rows[..n];
  }

  lemma QueuedNext(db: Db, rows: seq<string>, n: nat, now: DateTime)
    requires n < |rows| && forall i | 0 <= i < |rows| :: rows[i] in db.jobs
    ensures JobStore.ExpireStaleQueued(db, rows[..n + 1], now)
         == ExpireQueued(JobStore.ExpireStaleQueued(db, rows[..n], now), rows[n], now)
  {
    assert rows[..n + 1][..n] == rows[..n];
  }

  /** Audit row `i` is number `i + 1` and carries event `i`. */
  predicate Records(audit: seq<Row>, log: seq<Event>, dump: Event -> string, i: nat) {
    i < |audit| && i < |log| ==>
      audit[i].sequence == i + 1 && audit[i].eventType == EventType(log[i]) && audit[i].payload == dump(log[i])
  }

  lemma RecordsGrow(hash: string -> string, audit: seq<Row>, log: seq<Event>, dump: Event -> string, at: string, e: Event)
    requires |audit| == |log| && forall i: nat :: Records(audit, log, dump, i)
    ensures forall i: nat :: Records(audit + [NewRow(hash, audit, at, EventType(e), dump(e))], log + [e], dump, i)
  {
    var audit', log' := audit + [NewRow(hash, audit, at, EventType(e), dump(e))], log + [e];
    forall i: nat ensures Records(audit', log', dump, i) {
      assert Records(audit, log, dump, i);
      if i == |audit| && i > 0 { assert Records(audit, log, dump, i - 1); }
    }
  }

  class Store {
    const cfg: Config
    /** HMAC-SHA256 under the audit key, or plain SHA-256. */
    const chainHash: string -> string
    /** Canonical JSON of an event's payload. */
    const dump: Event -> string

    var jobs: map<string, Job>
    var confirmations: map<string, Confirmation>
    var audit: seq<Row>
    /** The events behind the audit rows. */
    ghost var log: seq<Event>

    /** Each audit row carries its event, the rows are chained and numbered from 1. */
    ghost predicate Valid()
      reads this
    {
      && |audit| == |log| && ChainOk(chainHash, audit)
      && forall i: nat :: Records(audit, log, dump, i)
    }

    ghost function Contents(): Db
      reads this
    {
      Db(jobs, confirmations, log)
    }

    constructor (cfg: Config, chainHash: string -> string, dump: Event -> string)
      ensures Valid() && Contents() == Db(map[], map[], [])
      ensures this.cfg == cfg && this.chainHash == chainHash && this.dump == dump
    {
      this.cfg, this.chainHash, this.dump := cfg, chainHash, dump;
      jobs, confirmations, audit, log := map[], map[], [], [];
    }

    method AppendAudit(e: Event)
      requires Valid()
      modifies this`audit, this`log
      ensures Valid() && Contents() == old(Contents()).(log := old(log) + [e])
      ensures |audit| == old(|audit|) + 1 && audit[..old(|audit|)] == old(audit)
    {
      var at := ReadClock();
      AppendKeepsChain(chainHash, audit, Iso(at), EventType(e), dump(e));
      RecordsGrow(chainHash, audit, log, dump, Iso(at), e);
      audit := audit + [NewRow(chainHash, audit, Iso(at), EventType(e), dump(e))];
      log := log + [e];
    }

    /** One row and its audit event, in one transaction. */
    method PutJob(j: string, row: Job, e: Event)
      requires Valid()
      modifies this`jobs, this`audit, this`log
      ensures Valid() && Contents() == Put(old(Contents()), j, row, e)
    {
      jobs := jobs[j := row];
      AppendAudit(e);
    }

    // ---------- jobs ----------

    method CreateJob(id: string, request: ActionRequest, subject: Subject, now: DateTime)
      returns (r: Result<JobView, StoreFailure>, ghost found: Option<string>)
      requires Valid() && id !in jobs
      modifies this`jobs, this`audit, this`log
      ensures Valid() && FoundByKey(old(Contents()), request.idempotencyKey, found)
      ensures (Contents(), r) == JobStore.CreateJob(cfg, old(Contents()), found, id, request, subject, now)
    {
      var digest := cfg.requestDigest(IdentityOf(request));
      var rows := SelectWhere(jobs, (job: Job) => job.key == request.idempotencyKey);
      if rows != [] {
        var j := rows[0];
        found := Some(j);
        assert j in rows;
        if jobs[j].digest != digest { return Failure(KeyReused), found; }
        return Success(View(j, jobs[j])), found;
      }
      found := None;
      assert forall j | j in jobs :: j !in rows;
      var job := NewJob(cfg, request, subject, now);
      PutJob(id, job, JobQueued(id, digest, subject));
      r := Success(View(id, job));
    }

    /** `untilFor` is `now` plus the lease the claimed request calls for. */
    method ClaimNextJob(worker: string, token: string, now: DateTime, untilFor: ActionRequest -> DateTime)
      returns (row: Option<string>)
      requires Valid()
      modifies this`jobs, this`audit, this`log
      ensures Valid() && NextClaimable(old(Contents()), now, row)
      ensures Contents() == match row
                            case None => old(Contents())
                            case Some(j) => ClaimJob(old(Contents()), j, worker, token, untilFor(old(jobs[j].request)), now)
    {
      row := SelectNextClaimable(now);
      if row.Some? {
        var j := row.value;
        PutJob(j, Leased(jobs[j], worker, token, untilFor(jobs[j].request), now), JobRunning(j, worker));
      }
    }

    method SelectNextClaimable(now: DateTime) returns (row: Option<string>)
      ensures NextClaimable(Contents(), now, row)
    {
      var queued := map j | j in jobs && Claimable(jobs[j], now) :: jobs[j].createdAt;
      assert forall j | j in jobs && Claimable(jobs[j], now) :: j in queued.Keys;
      if queued.Keys == {} { return None; }
      var j := Extreme(queued, false);
      OldestIsNext(Contents(), now, j);
      return Some(j);
    }

    method RenewLease(j: string, token: string, until: DateTime, now: DateTime) returns (held: bool)
      requires Valid()
      modifies this`jobs
      ensures Valid() && (Contents(), held) == JobStore.RenewLease(old(Contents()), j, token, until, now)
    {
      held := j in jobs && jobs[j].leaseToken == Some(token) && (jobs[j].state.Running? || jobs[j].state.Verifying?);
      if held {
        jobs := jobs[j := jobs[j].(leaseExpiresAt := Some(until), updatedAt := now)];
      }
    }

    method TransitionJob(j: string, target: JobState, result: Option<ResultDoc>, error: Option<JobError>,
                         fence: Option<string>, expected: Option<JobState>, now: DateTime)
      returns (r: Result<JobView, StoreFailure>)
      requires Valid()
      modifies this`jobs, this`audit, this`log
      ensures Valid()
      ensures Contents() == JobStore.TransitionJob(old(Contents()), j, target, result, error, fence, expected, now).0
      ensures r == JobStore.TransitionJob(old(Contents()), j, target, result, error, fence, expected, now).1
    {
      if j !in jobs { return Failure(JobNotFound); }
      var row := jobs[j];
      if fence.Some? && row.leaseToken != fence { return Failure(StaleLease); }
      if expected.Some? && row.state != expected.value { return Failure(StaleLease); }
      if !CanMove(row.state, target) { return Failure(InvalidTransition); }
      var moved := Moved(row, target, result, error, now);
      PutJob(j, moved, JobMoved(j, target, result, error));
      r := Success(View(j, moved));
    }

    method ExpireLeaseOf(j: string, now: DateTime)
      requires Valid() && j in jobs
      modifies this`jobs, this`audit, this`log
      ensures Valid() && Contents() == ExpireLease(old(Contents()), j, now)
    {
      PutJob(j, Unleased(jobs[j]).(state := UnknownOutcome, error := Some(LEASE_EXPIRED_ERROR), updatedAt := now),
             LeaseExpired(j));
    }

    method ExpireQueuedOf(j: string, now: DateTime)
      requires Valid() && j in jobs
      modifies this`jobs, this`audit, this`log
      ensures Valid() && Contents() == ExpireQueued(old(Contents()), j, now)
    {
      PutJob(j, Unleased(jobs[j]).(state := Expired, updatedAt := now), QueueExpired(j));
    }

    method SelectLapsedLeases(now: DateTime) returns (rows: seq<string>)
      ensures SelectsLapsedLeases(Contents(), now, rows)
    {
      rows := SelectWhere(jobs, (job: Job) => LeaseLapsed(job, now));
    }

    method SelectLapsedQueue(cutoff: DateTime) returns (rows: seq<string>)
      ensures SelectsLapsedQueue(Contents(), cutoff, rows)
    {
      rows := SelectWhere(jobs, (job: Job) => QueueLapsed(job, cutoff));
    }

    method SelectUnknown(limit: nat) returns (rows: seq<string>)
      ensures SelectsUnknown(Contents(), limit, rows)
    {
      var unknown := map j | j in jobs && jobs[j].state.UnknownOutcome? :: jobs[j].updatedAt;
      rows := OldestFirst(unknown, limit);
      assert forall j | j in jobs && jobs[j].state.UnknownOutcome? :: j in unknown;
      OldestAreSelected(Contents(), limit, rows);
    }

    method ExpireLeases(now: DateTime) returns (count: nat, ghost rows: seq<string>)
      requires Valid()
      modifies this`jobs, this`audit, this`log
      ensures Valid() && SelectsLapsedLeases(old(Contents()), now, rows) && count == |rows|
      ensures Contents() == JobStore.ExpireLeases(old(Contents()), rows, now)
    {
      ghost var before := Contents();
      var selected := SelectLapsedLeases(now);
      rows := selected;
      for n := 0 to |selected|
        invariant Valid() && rows == selected && jobs.Keys == before.jobs.Keys
        invariant forall i | 0 <= i < |selected| :: selected[i] in before.jobs
        invariant Contents() == JobStore.ExpireLeases(before, selected[..n], now)
      {
        ExpireLeaseOf(selected[n], now);
        LeasesNext(before, selected, n, now);
      }
      assert selected[..|selected|] == selected;
      count := |selected|;
    }

    method ExpireStaleQueued(cutoff: DateTime, now: DateTime) returns (count: nat, ghost rows: seq<string>)
      requires Valid()
      modifies this`jobs, this`audit, this`log
      ensures Valid() && SelectsLapsedQueue(old(Contents()), cutoff, rows) && count == |rows|
      ensures Contents() == JobStore.ExpireStaleQueued(old(Contents()), rows, now)
    {
      ghost var before := Contents();
      var selected := SelectLapsedQueue(cutoff);
      rows := selected;
      for n := 0 to |selected|
        invariant Valid() && rows == selected && jobs.Keys == before.jobs.Keys
        invariant forall i | 0 <= i < |selected| :: selected[i] in before.jobs
        invariant Contents() == JobStore.ExpireStaleQueued(before, selected[..n], now)
      {
        ExpireQueuedOf(selected[n], now);
        QueuedNext(before, selected, n, now);
      }
      assert selected[..|selected|] == selected;
      count := |selected|;
    }

    method CountAttempt(j: string, max: nat)
      requires Valid() && j in jobs
      modifies this`jobs, this`audit, this`log
      ensures Valid() && Contents() == ClaimCandidate(old(Contents()), j, max)
    {
      var attempts := jobs[j].attempts + 1;
      jobs := jobs[j := jobs[j].(attempts := attempts)];
      if attempts == max { AppendAudit(ReconcileExhausted(j, attempts)); }
    }

    method ClaimReconcileCandidates(max: nat, limit: nat) returns (candidates: seq<JobView>, ghost rows: seq<string>)
      requires Valid()
      modifies this`jobs, this`audit, this`log
      ensures Valid() && SelectsUnknown(old(Contents()), if limit < 1000 then limit else 1000, rows)
      ensures (Contents(), candidates) == ClaimCandidates(old(Contents()), rows, max)
    {
      ghost var before := Contents();
      var selected := SelectUnknown(if limit < 1000 then limit else 1000);
      rows := selected;
      candidates := [];
      for n := 0 to |selected|
        invariant Valid() && rows == selected && jobs.Keys == before.jobs.Keys
        invariant forall i | 0 <= i < |selected| :: selected[i] in before.jobs
        invariant (Contents(), candidates) == ClaimCandidates(before, selected[..n], max)
      {
        var j := selected[n];
        assert selected[..n + 1][..n] == selected[..n];
        if jobs[j].attempts < max {
          candidates := candidates + [View(j, jobs[j])];
          CountAttempt(j, max);
        }
      }
      assert selected[..|selected|] == selected;
    }

    // ---------- confirmations ----------

    method CreateConfirmation(id: string, request: ActionRequest, subject: Subject, mode: ConfirmationMode,
                              token: string, expires: DateTime, now: DateTime)
      requires Valid() && id !in confirmations
      modifies this`confirmations, this`audit, this`log
      ensures Valid()
      ensures Contents() == JobStore.CreateConfirmation(cfg, old(Contents()), id, request, subject, mode, token, expires, now)
    {
      var c := NewConfirmation(cfg, request, subject, mode, token, expires, now);
      confirmations := confirmations[id := c];
      AppendAudit(ConfirmationCreated(id, c.digest, mode, request.context.control));
    }

    method SelectNewestPending(digest: string, subject: Subject) returns (row: Option<string>)
      ensures NewestPending(Contents(), digest, subject, row)
    {
      var pending := map c | c in confirmations && Pending(confirmations[c], digest, subject) :: confirmations[c].createdAt;
      assert forall c | c in confirmations && Pending(confirmations[c], digest, subject) :: c in pending.Keys;
      if pending.Keys == {} { return None; }
      var newest := Extreme(pending, true);
      NewestIsNext(Contents(), digest, subject, newest);
      return Some(newest);
    }

    method ConsumeConfirmation(request: ActionRequest, subject: Subject, token: string, response: Option<string>, now: DateTime)
      returns (verdict: Verdict, row: Option<string>)
      requires Valid()
      modifies this`confirmations, this`audit, this`log
      ensures Valid() && NewestPending(old(Contents()), cfg.confirmationDigest(AuthorityOf(request)), subject, row)
      ensures (Contents(), verdict) == Consume(cfg, old(Contents()), row, request, subject, token, response, now)
    {
      var digest := cfg.confirmationDigest(AuthorityOf(request));
      row := SelectNewestPending(digest, subject);
      var found := if row.Some? then Some(confirmations[row.value]) else None;
      verdict := Judge(found, cfg.tokenHash(token), request, response, now);
      match verdict {
        case CompareRaises =>
        case Reject(reason) =>
          AppendAudit(ConfirmationRejected(digest, subject, reason));
        case Accept =>
          confirmations := confirmations[row.value := confirmations[row.value].(usedAt := Some(now))];
          AppendAudit(ConfirmationConsumed(row.value, digest));
      }
    }

    method CancelConfirmation(c: string, subject: Subject, now: DateTime) returns (cancelled: bool)
      requires Valid()
      modifies this`confirmations, this`audit, this`log
      ensures Valid() && (Contents(), cancelled) == JobStore.CancelConfirmation(old(Contents()), c, subject, now)
    {
      cancelled := c in confirmations && confirmations[c].subjectName == subject.name
                   && confirmations[c].subjectDevice == subject.device && confirmations[c].usedAt.None?;
      if cancelled {
        confirmations := confirmations[c := confirmations[c].(usedAt := Some(now))];
        AppendAudit(ConfirmationCancelled(c, subject));
      }
    }

    method RecordPolicyDenial(phase: Phase, request: ActionRequest, subject: Subject, reason: DenialReason)
      requires Valid()
      modifies this`audit, this`log
      ensures Valid() && Contents() == RecordDenial(cfg, old(Contents()), phase, request, subject, reason)
    {
      AppendAudit(PolicyDenied(phase, request.actionId, request.actionVersion, request.target, subject,
                               cfg.requestDigest(IdentityOf(request)), reason));
    }

    /** Sequence numbers are positions, so a page of events is a slice of the table. */
    method ListAuditEvents(after: nat, limit: nat) returns (events: seq<Row>)
      requires Valid()
      ensures EventFeed.Increasing(audit) && events == EventFeed.ListEvents(audit, after, limit)
    {
      assert EventFeed.Increasing(audit) by {
        forall i: nat, k: nat | i < k < |audit| ensures audit[i].sequence < audit[k].sequence {
          assert Records(audit, log, dump, i) && Records(audit, log, dump, k);
        }
      }
      var lo := if after < |audit| then after else |audit|;
      assert EventFeed.Splits(audit, after, lo) by {
        forall i: nat | i < |audit| ensures i >= lo <==> audit[i].sequence > after { assert Records(audit, log, dump, i); }
      }
      EventFeed.SplitIsSuffix(audit, after, lo);
      var bound := if limit < 1000 then limit else 1000;
      var hi := if lo + bound < |audit| then lo + bound else |audit|;
      events := audit[lo..hi];
      assert audit[lo..hi] == audit[lo..][..hi - lo];
    }

    /** A store nobody tampered with always verifies, whatever transactions it has made. */
    method VerifyAuditChain() returns (verdict: ChainVerdict)
      requires Valid()
      ensures (forall m :: IsAscii(chainHash(m))) ==> verdict == Intact
    {
      verdict := VerifyChain(chainHash, audit);
      forall i | 0 <= i < |audit| ensures audit[i].eventHash == chainHash(Material(audit[i])) {
        assert Linked(chainHash, audit, i);
      }
    }
  }
}
