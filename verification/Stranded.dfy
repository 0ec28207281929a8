/** Exactly which VERIFYING jobs can still change without somebody asking to cancel them. */
module Stranded {
  import opened Models
  import opened Clock
  import opened JobStore
  import opened Engine
  import opened EngineInvariant
  import opened EngineSteps
  import opened EngineTheorems
  import opened Evidence
  import opened Attendance

  predicate Untended(actors: seq<Actor>, j: string) {
    forall a | a in actors :: !Tends(a, j)
  }

  /** VERIFYING, no lease, and nobody at work on it. */
  predicate Stuck(s: System, j: string) {
    j in s.db.jobs && s.db.jobs[j].state.Verifying? && s.db.jobs[j].leaseToken.None? && Untended(s.actors, j)
  }

  const SOME_TIME: DateTime := Fields(1, 1, 1, 0, 0, 0, 0)
  const SOME_ERROR := JobError("timeout", "m", Safe, false, "")

  // ---------- a stuck job stays as it is ----------

  lemma StuckIsUnattended(s: System, j: string)
    ensures Stuck(s, j) <==> Unattended(s, j) && s.db.jobs[j].state.Verifying?
  {
    if Unattended(s, j) && s.db.jobs[j].state.Verifying? {
      forall a | a in s.actors ensures !Tends(a, j) { assert !InHand(a, s.db.jobs[j].state, j); }
    }
  }

  lemma StuckStep(cfg: Config, s: System, l: Label, s': System, j: string)
    requires EngineOk(cfg, s) && Stuck(s, j) && Step(cfg, s, l, s') && !AsksToCancel(l, j)
    ensures Stuck(s', j) && s'.db.jobs[j] == s.db.jobs[j]
  {
    assert IdOk(cfg, s, j);
    StuckIsUnattended(s, j);
    StuckIsUnattended(s', j);
    NotSelected(cfg, s, l, s', j);
    UnattendedStep(cfg, s, l, s', j);
  }

  lemma NotSelected(cfg: Config, s: System, l: Label, s': System, j: string)
    requires Step(cfg, s, l, s') && j in s.db.jobs && !s.db.jobs[j].state.UnknownOutcome?
    ensures !Offers(cfg, s, l, j)
  {
  }

  lemma PathStepStuck(cfg: Config, states: seq<System>, labels: seq<Label>, n: nat, j: string)
    requires IsPath(cfg, states, labels) && n < |labels| && !AsksToCancel(labels[n], j)
    requires EngineOk(cfg, states[n]) && Stuck(states[n], j)
    ensures EngineOk(cfg, states[n + 1]) && Stuck(states[n + 1], j)
    ensures states[n + 1].db.jobs[j] == states[n].db.jobs[j]
  {
    assert StepAt(cfg, states, labels, n);
    StuckStep(cfg, states[n], labels[n], states[n + 1], j);
    EngineStepOk(cfg, states[n], labels[n], states[n + 1]);
  }

  lemma {:induction false} PathStuck(cfg: Config, states: seq<System>, labels: seq<Label>, m: nat, n: nat, j: string)
    requires IsPath(cfg, states, labels) && m <= n < |states| && EngineOk(cfg, states[m]) && Stuck(states[m], j)
    requires forall q | m <= q < n :: !AsksToCancel(labels[q], j)
    ensures EngineOk(cfg, states[n]) && Stuck(states[n], j) && states[n].db.jobs[j] == states[m].db.jobs[j]
    decreases n
  {
    if m < n {
      PathStuck(cfg, states, labels, m, n - 1, j);
      PathStepStuck(cfg, states, labels, n - 1, j);
    }
  }

  /**
   In every run: a VERIFYING job without a lease that nobody is at work on keeps its row, in
   every column, for as long as nobody asks to cancel it.
   */
  lemma StrandedStaysStranded(cfg: Config, states: seq<System>, labels: seq<Label>, m: nat, n: nat, j: string)
    requires IsRun(cfg, states, labels) && m <= n < |states| && Stuck(states[m], j)
    requires forall q | m <= q < n :: !AsksToCancel(labels[q], j)
    ensures Stuck(states[n], j) && states[n].db.jobs[j] == states[m].db.jobs[j]
  {
    RunOk(cfg, states, labels, m);
    PathStuck(cfg, states, labels, m, n, j);
  }

  // ---------- otherwise it can still move ----------

  /** These further steps change the row of `j`, and none of them is a new request to cancel it. */
  ghost predicate MovesBy(cfg: Config, s: System, states: seq<System>, labels: seq<Label>, j: string) {
    && IsPath(cfg, states, labels) && states[0] == s
    && (forall q | 0 <= q < |labels| :: !AsksToCancel(labels[q], j))
    && j in s.db.jobs && j in states[|labels|].db.jobs && states[|labels|].db.jobs[j] != s.db.jobs[j]
  }

  ghost predicate CanStillMove(cfg: Config, s: System, j: string) {
    exists states, labels :: MovesBy(cfg, s, states, labels, j)
  }

  lemma MoveNow(cfg: Config, s: System, l: Label, s': System, j: string)
    requires Step(cfg, s, l, s') && !AsksToCancel(l, j)
    requires j in s.db.jobs && j in s'.db.jobs && s'.db.jobs[j] != s.db.jobs[j]
    ensures CanStillMove(cfg, s, j)
  {
    OneStep(cfg, s, l, s');
    MovedNow(cfg, s, l, s', [s, s'], [l], j);
  }

  lemma MovedNow(cfg: Config, s: System, l: Label, s': System, states: seq<System>, labels: seq<Label>, j: string)
    requires states == [s, s'] && labels == [l] && IsPath(cfg, states, labels) && !AsksToCancel(l, j)
    requires j in s.db.jobs && j in s'.db.jobs && s'.db.jobs[j] != s.db.jobs[j]
    ensures MovesBy(cfg, s, states, labels, j)
  {
  }

  lemma MoveLater(cfg: Config, s: System, l: Label, s': System, j: string)
    requires Step(cfg, s, l, s') && !AsksToCancel(l, j) && CanStillMove(cfg, s', j)
    requires j in s.db.jobs && j in s'.db.jobs && s'.db.jobs[j] == s.db.jobs[j]
    ensures CanStillMove(cfg, s, j)
  {
    var states, labels :| MovesBy(cfg, s', states, labels, j);
    MovesByLonger(cfg, s, l, s', states, labels, j);
  }

  lemma MovesByLonger(cfg: Config, s: System, l: Label, s': System, states: seq<System>, labels: seq<Label>, j: string)
    requires Step(cfg, s, l, s') && !AsksToCancel(l, j) && MovesBy(cfg, s', states, labels, j)
    requires j in s.db.jobs && s'.db.jobs[j] == s.db.jobs[j]
    ensures MovesBy(cfg, s, [s] + states, [l] + labels, j)
  {
    StepThenPath(cfg, s, l, states, labels);
    NothingAsked(l, labels, j);
    Shifted(s, states, |labels|);
  }

  lemma NothingAsked(l: Label, labels: seq<Label>, j: string)
    requires !AsksToCancel(l, j) && forall q | 0 <= q < |labels| :: !AsksToCancel(labels[q], j)
    ensures forall q | 0 <= q < |labels| + 1 :: !AsksToCancel(([l] + labels)[q], j)
  {
    forall q | 0 <= q < |labels| + 1 ensures !AsksToCancel(([l] + labels)[q], j) {
      if q > 0 { Shifted(l, labels, q - 1); }
    }
  }

  predicate VerifyingAt(s: System, j: string) {
    j in s.db.jobs && s.db.jobs[j].state.Verifying?
  }

  lemma SettlingMoves(cfg: Config, s: System, i: nat, j: string)
    requires VerifyingAt(s, j) && i < |s.actors| && s.actors[i].Settling? && s.actors[i].view.id == j
    requires s.actors[i].target in {Succeeded, UnknownOutcome, Failed}
    ensures CanStillMove(cfg, s, j)
  {
    var a := s.actors[i];
    var s' := Become(s, i, Reconciling(a.todo)).(
                db := TransitionJob(s.db, j, a.target, Some(a.result), a.error, None, None, SOME_TIME).0);
    assert StepSettle(s, i, SOME_TIME, s');
    MoveNow(cfg, s, Settle(i, SOME_TIME), s', j);
  }

  lemma ReconcilerMoves(cfg: Config, s: System, i: nat, j: string)
    requires VerifyingAt(s, j) && i < |s.actors| && (s.actors[i].ReObserving? || s.actors[i].ReVerifying?)
    requires s.actors[i].view.id == j
    ensures CanStillMove(cfg, s, j)
  {
    var a := s.actors[i];
    var s' := Become(s, i, ReconcileFailure(a.view, SOME_ERROR, a.todo));
    SettlingMoves(cfg, s', i, j);
    if a.ReObserving? {
      assert StepObserveReplies(s, i, Raised(SOME_ERROR), s');
      MoveLater(cfg, s, ObserveReplies(i, Raised(SOME_ERROR)), s', j);
    } else {
      assert StepVerifyReplies(s, i, Raised(SOME_ERROR), s');
      MoveLater(cfg, s, VerifyReplies(i, Raised(SOME_ERROR)), s', j);
    }
  }

  function Written(s: System, i: nat, view: JobView, reply: Reply<Cancellation>, now: DateTime): System
    requires i < |s.actors|
  {
    Become(s, i, Idle).(db := CancelWrite(s.db, view, reply, now))
  }

  lemma WrittenIsStep(cfg: Config, s: System, i: nat, view: JobView, reply: Reply<Cancellation>, now: DateTime)
    requires i < |s.actors| && s.actors[i] == CancelApplying(view, reply)
    ensures Step(cfg, s, ApplyCancel(i, now), Written(s, i, view, reply, now))
  {
  }

  lemma WriteLands(s: System, i: nat, view: JobView, reply: Reply<Cancellation>, now: DateTime)
    requires i < |s.actors| && VerifyingAt(s, view.id) && CancelTarget(view, reply).Some?
    ensures var s' := Written(s, i, view, reply, now);
            view.id in s'.db.jobs && s'.db.jobs[view.id].state == CancelTarget(view, reply).value
  {
    CancelWriteIsTransition(s.db, view, reply, now);
  }

  lemma ApplyingMoves(cfg: Config, s: System, i: nat, j: string)
    requires VerifyingAt(s, j) && i < |s.actors| && s.actors[i].CancelApplying? && Tends(s.actors[i], j)
    ensures CanStillMove(cfg, s, j)
  {
    var a := s.actors[i];
    WrittenIsStep(cfg, s, i, a.view, a.reply, SOME_TIME);
    WriteLands(s, i, a.view, a.reply, SOME_TIME);
    MoveNow(cfg, s, ApplyCancel(i, SOME_TIME), Written(s, i, a.view, a.reply, SOME_TIME), j);
  }

  lemma CallingMoves(cfg: Config, s: System, i: nat, j: string)
    requires VerifyingAt(s, j) && i < |s.actors| && s.actors[i].CancelCalling? && s.actors[i].view.id == j
    ensures CanStillMove(cfg, s, j)
  {
    var reply := Returned(Cancellation(CancelDone, ""));
    var s' := Become(s, i, CancelApplying(s.actors[i].view, reply)).(history := s.history + [CancelNote(j, CancelDone)]);
    assert StepCancelReplies(s, i, reply, s');
    ApplyingMoves(cfg, s', i, j);
    MoveLater(cfg, s, CancelReplies(i, reply), s', j);
  }

  lemma RefreshMoves(cfg: Config, s: System, i: nat, j: string)
    requires VerifyingAt(s, j) && i < |s.actors| && s.actors[i] == CancelRefresh(j)
    ensures CanStillMove(cfg, s, j)
  {
    var s' := Become(s, i, CancelCalling(View(j, s.db.jobs[j])));
    assert StepRefresh(s, i, s');
    CallingMoves(cfg, s', i, j);
    MoveLater(cfg, s, Refresh(i), s', j);
  }

  lemma CompareMoves(cfg: Config, s: System, i: nat, j: string)
    requires VerifyingAt(s, j) && i < |s.actors| && s.actors[i].CancelQueued? && s.actors[i].view.id == j
    ensures CanStillMove(cfg, s, j)
  {
    var s' := Become(s, i, CancelRefresh(j));
    assert StepCompareAndCancel(s, i, SOME_TIME, s');
    RefreshMoves(cfg, s', i, j);
    MoveLater(cfg, s, CompareAndCancel(i, SOME_TIME), s', j);
  }

  lemma TendedMoves(cfg: Config, s: System, i: nat, j: string)
    requires EngineOk(cfg, s) && VerifyingAt(s, j) && i < |s.actors| && Tends(s.actors[i], j)
    ensures CanStillMove(cfg, s, j)
  {
    var a := s.actors[i];
    if a.Settling? {
      assert ActorOk(s.history, a);
      SettlingMoves(cfg, s, i, j);
    } else if a.ReObserving? || a.ReVerifying? {
      ReconcilerMoves(cfg, s, i, j);
    } else if a.CancelQueued? {
      CompareMoves(cfg, s, i, j);
    } else if a.CancelRefresh? {
      RefreshMoves(cfg, s, i, j);
    } else if a.CancelCalling? {
      CallingMoves(cfg, s, i, j);
    } else {
      ApplyingMoves(cfg, s, i, j);
    }
  }

  // ---------- a lease is swept ----------

  lemma {:induction false} Enumerate(ids: set<string>) returns (rows: seq<string>)
    ensures Distinct(rows) && forall j :: j in rows <==> j in ids
    decreases |ids|
  {
    if ids == {} {
      rows := [];
    } else {
      var x :| x in ids;
      var front := Enumerate(ids - {x});
      rows := front + [x];
      assert forall i | 0 <= i < |front| :: front[i] in front && rows[i] == front[i];
    }
  }

  lemma LeasedMoves(cfg: Config, s: System, i: nat, j: string, now: DateTime)
    requires VerifyingAt(s, j) && i < |s.actors| && s.actors[i].Idle?
    requires s.db.jobs[j].leaseExpiresAt.Some? && Before(s.db.jobs[j].leaseExpiresAt.value, now)
    ensures CanStillMove(cfg, s, j)
  {
    TextOrderIsTimeOrder(s.db.jobs[j].leaseExpiresAt.value, now);
    var rows := Enumerate(set k | k in s.db.jobs && LeaseLapsed(s.db.jobs[k], now));
    var s' := Become(s, i, Swept).(db := ExpireLeases(s.db, rows, now));
    SweepParks(s.db, rows, now, j);
    assert StepSweep(s, i, rows, now, s');
    MoveNow(cfg, s, Sweep(i, rows, now), s', j);
  }

  /** A busy actor may die first. */
  lemma LeasedMovesAnyway(cfg: Config, s: System, j: string, now: DateTime)
    requires VerifyingAt(s, j) && |s.actors| > 0
    requires s.db.jobs[j].leaseExpiresAt.Some? && Before(s.db.jobs[j].leaseExpiresAt.value, now)
    ensures CanStillMove(cfg, s, j)
  {
    var s' := Become(s, 0, Idle);
    LeasedMoves(cfg, s', 0, j, now);
    MoveLater(cfg, s, Crash(0), s', j);
  }

  /** Every job was created by an actor, and actors never go away. */
  lemma {:induction false} JobsNeedActors(cfg: Config, states: seq<System>, labels: seq<Label>, n: nat)
    requires IsRun(cfg, states, labels) && n < |states|
    ensures |states[n].actors| == |states[0].actors|
    ensures states[n].db.jobs != map[] ==> |states[n].actors| > 0
  {
    if n > 0 {
      JobsNeedActors(cfg, states, labels, n - 1);
      assert StepAt(cfg, states, labels, n - 1);
      StepKeepsActors(cfg, states[n - 1], labels[n - 1], states[n]);
    }
  }

  lemma StepKeepsActors(cfg: Config, s: System, l: Label, s': System)
    requires Step(cfg, s, l, s')
    ensures |s'.actors| == |s.actors|
    ensures s'.db.jobs != map[] ==> s.db.jobs != map[] || |s.actors| > 0
  {
    if IsWorkerLabel(l) { WorkerStepCargo(cfg, s, l, s'); }
    else {
      OtherStepCargo(cfg, s, l, s');
      if l.Plan? || l.DropConfirmation? || l.ExpireQueue? { TablesWithoutActors(cfg, s, l, s'); }
    }
  }

  lemma TablesWithoutActors(cfg: Config, s: System, l: Label, s': System)
    requires (l.Plan? || l.DropConfirmation? || l.ExpireQueue?) && Step(cfg, s, l, s')
    ensures s'.db.jobs.Keys == s.db.jobs.Keys
  {
  }

  /**
   Exactly when: given, for a leased job, a clock reading past its lease, a VERIFYING job can
   be moved without a new request to cancel it if and only if it has a lease or somebody is
   at work on it.
   */
  lemma MovesExactlyWhenHeld(cfg: Config, states: seq<System>, labels: seq<Label>, n: nat, j: string, later: DateTime)
    requires IsRun(cfg, states, labels) && n < |states| && VerifyingAt(states[n], j)
    requires states[n].db.jobs[j].leaseExpiresAt.Some? ==> Before(states[n].db.jobs[j].leaseExpiresAt.value, later)
    ensures CanStillMove(cfg, states[n], j)
            <==> states[n].db.jobs[j].leaseToken.Some? || !Untended(states[n].actors, j)
  {
    var s := states[n];
    RunOk(cfg, states, labels, n);
    assert IdOk(cfg, s, j);
    if s.db.jobs[j].leaseToken.Some? {
      JobsNeedActors(cfg, states, labels, n);
      LeasedMovesAnyway(cfg, s, j, later);
    } else if !Untended(s.actors, j) {
      var a :| a in s.actors && Tends(a, j);
      var k :| 0 <= k < |s.actors| && s.actors[k] == a;
      TendedMoves(cfg, s, k, j);
    } else {
      StuckCannotMove(cfg, s, j);
    }
  }

  lemma StuckCannotMove(cfg: Config, s: System, j: string)
    requires EngineOk(cfg, s) && Stuck(s, j)
    ensures !CanStillMove(cfg, s, j)
  {
    forall states, labels ensures !MovesBy(cfg, s, states, labels, j) {
      if MovesBy(cfg, s, states, labels, j) { PathStuck(cfg, states, labels, 0, |labels|, j); }
    }
  }

  // ---------- the canceller is the way out ----------

  /** Three steps in a row, as a path. */
  lemma ThreeSteps(cfg: Config, s0: System, l0: Label, s1: System, l1: Label, s2: System, l2: Label, s3: System)
    requires Step(cfg, s0, l0, s1) && Step(cfg, s1, l1, s2) && Step(cfg, s2, l2, s3)
    ensures IsPath(cfg, [s0, s1] + [s2] + [s3], [l0] + [l1] + [l2])
  {
    OneStep(cfg, s0, l0, s1);
    PathThenStep(cfg, [s0, s1], [l0], l1, s2);
    PathThenStep(cfg, [s0, s1] + [s2], [l0] + [l1], l2, s3);
  }

  function Asked(s: System, i: nat, view: JobView): System
    requires i < |s.actors|
  {
    Become(s, i, CancelCalling(view))
  }

  function Answered(s: System, i: nat, view: JobView, reply: Reply<Cancellation>): System
    requires i < |s.actors|
  {
    Become(s, i, CancelApplying(view, reply)).(
      history := if reply.Returned? then s.history + [CancelNote(view.id, reply.value.disposition)] else s.history)
  }

  lemma AskedIsStep(cfg: Config, s: System, i: nat, j: string)
    requires VerifyingAt(s, j) && i < |s.actors| && s.actors[i].Idle?
    ensures Step(cfg, s, ReadForCancel(i, j, s.db.jobs[j].subject), Asked(s, i, View(j, s.db.jobs[j])))
  {
  }

  lemma AnsweredIsStep(cfg: Config, s: System, i: nat, view: JobView, reply: Reply<Cancellation>)
    requires i < |s.actors| && s.actors[i] == CancelCalling(view)
    ensures Step(cfg, s, CancelReplies(i, reply), Answered(s, i, view, reply))
  {
  }

  /**
   The owner can free the job: a request to cancel reaches the adapter, and a
   reply that calls for a write takes the row to CANCELLED or back to UNKNOWN_OUTCOME.
   */
  lemma CancellerIsTheWayOut(cfg: Config, s: System, i: nat, j: string, reply: Reply<Cancellation>, now: DateTime)
      returns (states: seq<System>, labels: seq<Label>)
    requires VerifyingAt(s, j) && i < |s.actors| && s.actors[i].Idle?
    requires CancelTarget(View(j, s.db.jobs[j]), reply).Some?
    ensures labels == [ReadForCancel(i, j, s.db.jobs[j].subject), CancelReplies(i, reply), ApplyCancel(i, now)]
    ensures IsPath(cfg, states, labels) && states[0] == s && j in states[3].db.jobs
    ensures states[3].db.jobs[j].state == CancelTarget(View(j, s.db.jobs[j]), reply).value
  {
    var view := View(j, s.db.jobs[j]);
    var asked := Asked(s, i, view);
    var answered := Answered(asked, i, view, reply);
    var written := Written(answered, i, view, reply, now);
    var ask := ReadForCancel(i, j, s.db.jobs[j].subject);
    states := [s, asked] + [answered] + [written];
    labels := [ask] + [CancelReplies(i, reply)] + [ApplyCancel(i, now)];
    AskedIsStep(cfg, s, i, j);
    AnsweredIsStep(cfg, asked, i, view, reply);
    WrittenIsStep(cfg, answered, i, view, reply, now);
    ThreeSteps(cfg, s, ask, asked, CancelReplies(i, reply), answered, ApplyCancel(i, now), written);
    WriteLands(answered, i, view, reply, now);
  }
}
