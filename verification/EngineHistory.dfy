/** The history component is faithful: it is determined by the labels of the run alone. */
module EngineHistory {
  import opened Models
  import opened Engine
  import opened EngineInvariant

  /** What a label makes happen outside the store, given who takes the step. */
  function NoteOf(s: System, l: Label): seq<Note> {
    match l
    case Claim(_, row, _, token, _, _) => if row.Some? then [ClaimNote(row.value, token)] else []
    case CallExecute(i) =>
      if i < |s.actors| && s.actors[i].Claimed? then [ExecuteNote(s.actors[i].job)] else []
    case ObserveReplies(i, Returned(o)) =>
      if i >= |s.actors| then []
      else if s.actors[i].Observing? then [ObserveNote(s.actors[i].job, o)]
      else if s.actors[i].ReObserving? then [ObserveNote(s.actors[i].view.id, o)]
      else []
    case VerifyReplies(i, Returned(v)) =>
      if i >= |s.actors| then []
      else if s.actors[i].Verify? then
        [VerifyNote(s.actors[i].job, Recorded(s.actors[i].execution), s.actors[i].observation, v)]
      else if s.actors[i].ReVerifying? then
        [VerifyNote(s.actors[i].view.id, ExecutionArgFor(ResultOrEmpty(s.actors[i].view.result)),
                    s.actors[i].observation, v)]
      else []
    case CancelReplies(i, Returned(c)) =>
      if i < |s.actors| && s.actors[i].CancelCalling? then [CancelNote(s.actors[i].view.id, c.disposition)] else []
    case _ => []
  }

  function NotesOf(states: seq<System>, labels: seq<Label>, n: nat): seq<Note>
    requires n <= |labels| && n <= |states|
  {
    if n == 0 then [] else NotesOf(states, labels, n - 1) + NoteOf(states[n - 1], labels[n - 1])
  }

  lemma WorkerStepNotes(cfg: Config, s: System, l: Label, s': System)
    requires IsWorkerLabel(l) && WorkerStep(cfg, s, l, s')
    ensures s'.history == s.history + NoteOf(s, l)
  {
  }

  lemma RecoveryStepNotes(cfg: Config, s: System, l: Label, s': System)
    requires !IsWorkerLabel(l) && !IsApiLabel(l) && RecoveryStep(cfg, s, l, s')
    ensures s'.history == s.history + NoteOf(s, l)
  {
  }

  lemma ApiStepNotes(cfg: Config, s: System, l: Label, s': System)
    requires IsApiLabel(l) && ApiStep(cfg, s, l, s')
    ensures s'.history == s.history + NoteOf(s, l)
  {
  }

  lemma RunStepNotes(cfg: Config, states: seq<System>, labels: seq<Label>, n: nat)
    requires IsRun(cfg, states, labels) && n < |labels|
    ensures states[n + 1].history == states[n].history + NoteOf(states[n], labels[n])
  {
    assert StepAt(cfg, states, labels, n);
    if IsWorkerLabel(labels[n]) { WorkerStepNotes(cfg, states[n], labels[n], states[n + 1]); }
    else if IsApiLabel(labels[n]) { ApiStepNotes(cfg, states[n], labels[n], states[n + 1]); }
    else { RecoveryStepNotes(cfg, states[n], labels[n], states[n + 1]); }
  }

  /** The history holds exactly what the labels say happened, in order. */
  lemma {:induction false} HistoryIsFaithful(cfg: Config, states: seq<System>, labels: seq<Label>, n: nat)
    requires IsRun(cfg, states, labels) && n < |states|
    ensures states[n].history == NotesOf(states, labels, n)
  {
    if n > 0 {
      HistoryIsFaithful(cfg, states, labels, n - 1);
      RunStepNotes(cfg, states, labels, n - 1);
    }
  }

  // ---------- counting calls by label ----------

  /** Step `n` is a worker calling `execute` for `j`. */
  predicate CallsExecute(s: System, l: Label, j: string) {
    l.CallExecute? && l.i < |s.actors| && s.actors[l.i].Claimed? && s.actors[l.i].job == j
  }

  /** Calls of `execute` for `j` among the first `n` steps. */
  function ExecuteCalls(states: seq<System>, labels: seq<Label>, n: nat, j: string): nat
    requires n <= |labels| && n <= |states|
  {
    if n == 0 then 0
    else ExecuteCalls(states, labels, n - 1, j) + if CallsExecute(states[n - 1], labels[n - 1], j) then 1 else 0
  }

  lemma NoteCounts(h: seq<Note>, s: System, l: Label, j: string)
    ensures Executions(h + NoteOf(s, l), j) == Executions(h, j) + if CallsExecute(s, l, j) then 1 else 0
  {
    var notes := NoteOf(s, l);
    if notes == [] { assert h + notes == h; }
    else { assert notes == [notes[0]]; NotesAppend(h, notes[0], j); }
  }

  lemma {:induction false} CallsAreCounted(cfg: Config, states: seq<System>, labels: seq<Label>, n: nat, j: string)
    requires IsRun(cfg, states, labels) && n < |states|
    ensures ExecuteCalls(states, labels, n, j) == Executions(states[n].history, j)
  {
    if n > 0 {
      CallsAreCounted(cfg, states, labels, n - 1, j);
      CallIsCounted(cfg, states, labels, n - 1, j);
    }
  }

  lemma CallIsCounted(cfg: Config, states: seq<System>, labels: seq<Label>, n: nat, j: string)
    requires IsRun(cfg, states, labels) && n < |labels|
    ensures Executions(states[n + 1].history, j)
         == Executions(states[n].history, j) + if CallsExecute(states[n], labels[n], j) then 1 else 0
  {
    RunStepNotes(cfg, states, labels, n);
    NoteCounts(states[n].history, states[n], labels[n], j);
  }
}
