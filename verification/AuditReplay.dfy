/** What can be read back from the audit log alone. */
module AuditReplay {
  import opened Models
  import opened JobStore

  // ---------- replay: the log determines the jobs table ----------

  /** The part of a job row that the audit log must be able to rebuild. */
  datatype Replayed = Replayed(digest: string, subject: Subject, state: JobState,
                               result: Option<ResultDoc>, error: Option<JobError>)

  function Rebuilt(job: Job): Replayed {
    Replayed(job.digest, job.subject, job.state, job.result, job.error)
  }

  function Table(jobs: map<string, Job>): map<string, Replayed> {
    map j | j in jobs :: Rebuilt(jobs[j])
  }

  function ReplayEvent(m: map<string, Replayed>, e: Event): map<string, Replayed> {
    match e
    case JobQueued(j, digest, subject) => m[j := Replayed(digest, subject, Queued, None, None)]
    case JobRunning(j, _) => if j in m then m[j := m[j].(state := Running)] else m
    case JobMoved(j, target, result, error) =>
      if j in m then m[j := m[j].(state := target, result := result, error := error)] else m
    case LeaseExpired(j) =>
      if j in m then m[j := m[j].(state := UnknownOutcome, error := Some(LEASE_EXPIRED_ERROR))] else m
    case QueueExpired(j) => if j in m then m[j := m[j].(state := Expired)] else m
    case _ => m
  }

  function Replay(log: seq<Event>): map<string, Replayed> {
    if log == [] then map[] else ReplayEvent(Replay(log[..|log| - 1]), log[|log| - 1])
  }

  lemma ReplayAppend(log: seq<Event>, e: Event)
    ensures Replay(log + [e]) == ReplayEvent(Replay(log), e)
  {
    assert (log + [e])[..|log|] == log;
  }

  // ---------- the states a job has been through ----------

  /** The state an event puts its job in. */
  function StateIn(e: Event, j: string): Option<JobState> {
    match e
    case JobQueued(k, _, _) => if k == j then Some(Queued) else None
    case JobRunning(k, _) => if k == j then Some(Running) else None
    case JobMoved(k, target, _, _) => if k == j then Some(target) else None
    case LeaseExpired(k) => if k == j then Some(UnknownOutcome) else None
    case QueueExpired(k) => if k == j then Some(Expired) else None
    case _ => None
  }

  function Path(log: seq<Event>, j: string): seq<JobState> {
    if log == [] then []
    else
      var before := Path(log[..|log| - 1], j);
      match StateIn(log[|log| - 1], j)
      case None => before
      case Some(st) => before + [st]
  }

  lemma PathAppend(log: seq<Event>, e: Event, j: string)
    ensures Path(log + [e], j) == match StateIn(e, j) case None => Path(log, j) case Some(st) => Path(log, j) + [st]
  {
    assert (log + [e])[..|log|] == log;
  }

  /** A nonempty walk along ALLOWED_TRANSITIONS that starts at QUEUED. */
  predicate Walk(p: seq<JobState>) {
    && p != [] && p[0] == Queued
    && forall i | 0 < i < |p| :: CanMove(p[i - 1], p[i])
  }

  function Last(p: seq<JobState>): JobState
    requires p != []
  {
    p[|p| - 1]
  }

  /** How far along a state is; a job only ever goes forward, but for a reverification. */
  function Stage(s: JobState): nat {
    match s
    case Received => 0
    case Validated => 1
    case Authorized => 2
    case AwaitingConfirmation => 3
    case Queued => 4
    case Running => 5
    case Verifying => 6
    case UnknownOutcome => 7
    case _ => 8
  }

  predicate Moves(p: seq<JobState>) {
    p != [] && p[0].Received? && forall i | 0 < i < |p| :: CanMove(p[i - 1], p[i])
  }

  /**
   The table has no dead entry and no hidden exit: every state is reached from RECEIVED, exactly
   the terminal ones cannot be left, and only UNKNOWN_OUTCOME leads back, to VERIFYING. A job is
   rejected only before it is authorized, cancelled whenever it waits or runs, and has an outcome
   exactly from RUNNING on.
   */
  lemma EveryStateHasItsPlace(s: JobState) returns (p: seq<JobState>)
    ensures Moves(p) && Last(p) == s
    ensures Terminal(s) <==> forall t :: !CanMove(s, t)
    ensures forall t | CanMove(s, t) :: Stage(s) < Stage(t) || (s.UnknownOutcome? && t.Verifying?)
    ensures CanMove(s, Cancelled) <==> Stage(s) >= 3 && !Terminal(s)
    ensures CanMove(s, Expired) <==> s.AwaitingConfirmation? || s.Queued?
    ensures CanMove(s, Rejected) <==> Stage(s) <= 1
    ensures CanMove(s, Succeeded) || CanMove(s, Failed) <==> Stage(s) >= 5 && !Terminal(s)
  {
    var onTheWay := [Received, Validated, Authorized, AwaitingConfirmation, Queued, Running, Verifying];
    match s {
      case Denied => p := onTheWay[..2] + [s];
      case Rejected => p := onTheWay[..1] + [s];
      case Expired => p := onTheWay[..4] + [s];
      case Cancelled => p := onTheWay[..4] + [s];
      case Succeeded => p := onTheWay + [s];
      case Failed => p := onTheWay + [s];
      case UnknownOutcome => p := onTheWay + [s];
      case _ => p := onTheWay[..Stage(s) + 1];
    }
    if !Terminal(s) {
      var next: JobState :=
        if s.Received? then Validated else if s.Validated? then Authorized else if s.Authorized? then Queued
        else if s.AwaitingConfirmation? then Queued else if s.Queued? then Running else if s.UnknownOutcome? then Verifying
        else UnknownOutcome;
      assert CanMove(s, next);
    }
  }

  /** How often the walk goes from UNKNOWN_OUTCOME back to VERIFYING. */
  function Reverifications(p: seq<JobState>): nat {
    if |p| < 2 then 0
    else Reverifications(p[..|p| - 1])
         + if p[|p| - 2] == UnknownOutcome && p[|p| - 1] == Verifying then 1 else 0
  }

  lemma ReverificationsAppend(p: seq<JobState>, st: JobState)
    requires p != []
    ensures Reverifications(p + [st])
         == Reverifications(p) + if Last(p) == UnknownOutcome && st == Verifying then 1 else 0
  {
    assert (p + [st])[..|p|] == p;
  }

  lemma WalkAppend(p: seq<JobState>, st: JobState)
    requires Walk(p) && CanMove(Last(p), st)
    ensures Walk(p + [st])
  {
    var q := p + [st];
    forall i | 0 < i < |q| ensures CanMove(q[i - 1], q[i]) {
      if i < |p| { assert q[i - 1] == p[i - 1] && q[i] == p[i]; }
    }
  }

  /** The states a walk can be in, with its greatest possible length in each. */
  predicate LengthFits(st: JobState, n: nat, r: nat) {
    match st
    case Queued => n == 1
    case Running => n == 2
    case Verifying => n <= 2 * r + 3
    case UnknownOutcome => n <= 2 * r + 4
    case Succeeded => n <= 2 * r + 5
    case Failed => n <= 2 * r + 5
    case Cancelled => n <= 2 * r + 5
    case Expired => n <= 2 * r + 5
    case _ => false
  }

  /** Every walk is short in terms of how often it re-verified, and never comes back to QUEUED. */
  lemma {:induction false} WalkIsBounded(p: seq<JobState>)
    requires Walk(p)
    ensures LengthFits(Last(p), |p|, Reverifications(p))
  {
    if |p| > 1 {
      var q := p[..|p| - 1];
      assert Walk(q) by {
        forall i | 0 < i < |q| ensures CanMove(q[i - 1], q[i]) { assert q[i - 1] == p[i - 1] && q[i] == p[i]; }
      }
      WalkIsBounded(q);
      assert p == q + [Last(p)];
      ReverificationsAppend(q, Last(p));
      assert CanMove(p[|p| - 2], p[|p| - 1]);
    }
  }

  // ---------- counts ----------

  function Exhaustions(log: seq<Event>, j: string): nat {
    if log == [] then 0
    else Exhaustions(log[..|log| - 1], j)
         + if log[|log| - 1].ReconcileExhausted? && log[|log| - 1].job == j then 1 else 0
  }

  lemma ExhaustionsAppend(log: seq<Event>, e: Event, j: string)
    ensures Exhaustions(log + [e], j) == Exhaustions(log, j) + if e.ReconcileExhausted? && e.job == j then 1 else 0
  {
    assert (log + [e])[..|log|] == log;
  }

  /** The event spends this confirmation: consumed or cancelled. */
  predicate Spends(e: Event, c: string) {
    (e.ConfirmationConsumed? || e.ConfirmationCancelled?) && e.confirmation == c
  }

  function Spendings(log: seq<Event>, c: string): nat {
    if log == [] then 0
    else Spendings(log[..|log| - 1], c) + if Spends(log[|log| - 1], c) then 1 else 0
  }

  lemma SpendingsAppend(log: seq<Event>, e: Event, c: string)
    ensures Spendings(log + [e], c) == Spendings(log, c) + if Spends(e, c) then 1 else 0
  {
    assert (log + [e])[..|log|] == log;
  }
}
