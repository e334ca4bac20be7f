/** Every step keeps the database rows equal to the projections of the snapshots that reached it. */
module EngineRows {
  import opened Wrappers
  import opened Types
  import opened JobTable
  import opened Persistence
  import opened Engine
  import opened EngineInvariants
  import opened EngineOwners

  /** What a move may send to the database, and what it may assume is there afterwards. */
  predicate SaveRule(saved: Table, id: JobId, k: Task, m: Move, first: JobRecord) {
    var next := if m.change.Hatch? then m.change.runner else m.next;
    && (m.change.Save? ==>
          m.change.rec.id == id && SameSubmission(m.change.rec, first) && SavedFact(m.change.rec, next))
    && (id in saved && SavedFact(saved[id], k) ==> SavedFact(saved[id], next))
  }

  lemma AddSaves(c: EngineConfig, s: State, k: Task, e: Choice, first: JobRecord)
    requires k.Adder? && TaskFact(c, k) && !IsDone(k) && OwnJob(s.jobs, k.rec.id, k, first)
    ensures SaveRule(s.past.saved, k.rec.id, k, AddMove(k, e), first)
  {
  }

  lemma StartSaves(c: EngineConfig, s: State, k: Task, e: Choice, first: JobRecord)
    requires k.Starter? && TaskFact(c, k) && !IsDone(k) && OwnJob(s.jobs, k.id, k, first)
    ensures SaveRule(s.past.saved, k.id, k, StartMove(c, s, k, e), first)
  {
  }

  lemma WorkSaves(c: EngineConfig, s: State, k: Task, e: Choice, first: JobRecord)
    requires k.Worker? && TaskFact(c, k) && !IsDone(k) && OwnJob(s.jobs, k.id, k, first)
    ensures SaveRule(s.past.saved, k.id, k, WorkMove(s, k, e), first)
  {
  }

  lemma WindSaves(c: EngineConfig, s: State, k: Task, e: Choice, first: JobRecord)
    requires k.Winder? && TaskFact(c, k) && !IsDone(k) && OwnJob(s.jobs, k.id, k, first)
    ensures SaveRule(s.past.saved, k.id, k, WindMove(k), first)
  {
  }

  lemma CloseSaves(c: EngineConfig, s: State, k: Task, e: Choice, first: JobRecord)
    requires k.Closer? && TaskFact(c, k) && !IsDone(k) && OwnJob(s.jobs, k.id, k, first)
    ensures SaveRule(s.past.saved, k.id, k, CloseMove(s, k, e), first)
  {
  }

  lemma MoveSaves(c: EngineConfig, s: State, k: Task, e: Choice, m: Move, id: JobId, first: JobRecord)
    requires m == NextMove(c, s, k, e) && TaskFact(c, k) && !IsDone(k) && OwnJob(s.jobs, id, k, first)
    ensures SaveRule(s.past.saved, id, k, m, first)
  {
    match k
    case Adder(_, _, _) => AddSaves(c, s, k, e, first);
    case Starter(_, _) => StartSaves(c, s, k, e, first);
    case Worker(_, _, _) => WorkSaves(c, s, k, e, first);
    case Winder(_, _, _, _) => WindSaves(c, s, k, e, first);
    case Closer(_, _, _) => CloseSaves(c, s, k, e, first);
  }

  lemma SavedAfterMove(saved: Table, tasks: seq<Task>, book: map<JobId, Entry>, floor: nat, t: nat, m: Move,
                       applied: bool, id: JobId)
    requires t < |tasks| && OwnersOk(tasks, book) && OwnerRule(tasks[t], m) && SavedOk(saved, tasks, book, floor)
    requires id in NewSaved(saved, m.change, applied) && id in book
    requires m.change.Enroll? ==> m.change.rec.id !in book
    requires Owned(tasks[t]).Some? ==>
      SaveRule(saved, Owned(tasks[t]).value, tasks[t], m, book[Owned(tasks[t]).value].first)
    ensures var book' := NewBook(book, t, |tasks|, m.change);
      && id in book' && book'[id].owner < |NewTasks(tasks, t, m)|
      && SameSubmission(NewSaved(saved, m.change, applied)[id], book'[id].first)
      && SavedFact(NewSaved(saved, m.change, applied)[id], NewTasks(tasks, t, m)[book'[id].owner])
  {
    if Owned(tasks[t]) == Some(id) {
      assert book[id].owner == t;
    } else {
      assert book[id].owner != t;
      assert id in saved && NewSaved(saved, m.change, applied)[id] == saved[id];
    }
  }

  lemma MoveKeepsSaved(s: State, t: nat, m: Move, applied: bool)
    requires t < |s.tasks| && OwnersOk(s.tasks, s.past.book) && OwnerRule(s.tasks[t], m)
    requires SavedOk(s.past.saved, s.tasks, s.past.book, s.past.floor)
    requires m.change.Enroll? ==> m.change.rec.id !in s.past.book && s.past.floor <= m.change.rec.id.atMs
    requires Owned(s.tasks[t]).Some? ==>
      SaveRule(s.past.saved, Owned(s.tasks[t]).value, s.tasks[t], m, s.past.book[Owned(s.tasks[t]).value].first)
    ensures SavedOk(NewSaved(s.past.saved, m.change, applied), NewTasks(s.tasks, t, m),
                    NewBook(s.past.book, t, |s.tasks|, m.change), s.past.floor)
  {
    var saved := NewSaved(s.past.saved, m.change, applied);
    var book := NewBook(s.past.book, t, |s.tasks|, m.change);
    MoveKeepsOwners(s.tasks, s.past.book, t, m);
    forall id | id in saved && id in book
      ensures SameSubmission(saved[id], book[id].first)
      ensures SavedFact(saved[id], NewTasks(s.tasks, t, m)[book[id].owner])
    {
      if id in s.past.book {
        SavedAfterMove(s.past.saved, s.tasks, s.past.book, s.past.floor, t, m, applied, id);
      }
    }
  }

  /** What is written continues what is there. */
  lemma WriteContinuesRow(s: State, t: nat, m: Move)
    requires t < |s.tasks| && OwnersOk(s.tasks, s.past.book) && OwnerRule(s.tasks[t], m)
    requires SavedOk(s.past.saved, s.tasks, s.past.book, s.past.floor)
    requires Owned(s.tasks[t]).Some? ==>
      SaveRule(s.past.saved, Owned(s.tasks[t]).value, s.tasks[t], m, s.past.book[Owned(s.tasks[t]).value].first)
    ensures m.change.Save? && m.change.rec.id in s.past.saved ==>
      SameSubmission(s.past.saved[m.change.rec.id], m.change.rec)
  {
  }

  lemma MoveKeepsMirror(rows: Rows, saved: Table, change: Change, applied: bool)
    requires Mirrors(rows, saved)
    requires change.Save? && change.rec.id in saved ==> SameSubmission(saved[change.rec.id], change.rec)
    ensures Mirrors(NewRows(rows, change, applied), NewSaved(saved, change, applied))
  {
    if change.Save? && applied {
      UpsertMirrors(rows, saved, change.rec);
    }
  }

  lemma StepKeepsRows(c: EngineConfig, s: State, t: nat, e: Choice)
    requires TasksOk(c, s) && BookOk(c, s) && JobsOk(s.jobs, s.tasks, s.past.book) && CanStep(c, s, t, e)
    requires Mirrors(s.rows, s.past.saved) && SavedOk(s.past.saved, s.tasks, s.past.book, s.past.floor)
    ensures var s' := Apply(s, t, NextMove(c, s, s.tasks[t], e), e.applied);
      Mirrors(s'.rows, s'.past.saved) && SavedOk(s'.past.saved, s'.tasks, s'.past.book, s'.past.floor)
  {
    var k := s.tasks[t];
    var m := NextMove(c, s, k, e);
    var own := Owned(k);
    if own.Some? {
      assert OwnJob(s.jobs, own.value, k, s.past.book[own.value].first);
      MoveSaves(c, s, k, e, m, own.value, s.past.book[own.value].first);
    }
    StepFollowsRules(c, s, t, e);
    WriteContinuesRow(s, t, m);
    MoveKeepsMirror(s.rows, s.past.saved, m.change, e.applied);
    MoveKeepsSaved(s, t, m, e.applied);
  }
}
