/** Every step keeps each record in line with the progress of the task that works for it. */
module EngineJobs {
  import opened Wrappers
  import opened Types
  import opened JobTable
  import opened Engine
  import opened EngineInvariants
  import opened EngineClaims
  import opened EngineOwners

  lemma AddKeepsJob(c: EngineConfig, s: State, k: Task, e: Choice, first: JobRecord)
    requires k.Adder? && Allowed(c, s, k, e) && OwnJob(s.jobs, k.rec.id, k, first)
    ensures var m := AddMove(k, e);
      OwnJob(NewJobs(s.jobs, m.change), k.rec.id, if m.change.Hatch? then m.change.runner else m.next, first)
  {
    if k.ap.Prune? {
      assert !IsTerminal(s.jobs[k.rec.id].status);
    }
  }

  lemma StartKeepsJob(c: EngineConfig, s: State, k: Task, e: Choice, first: JobRecord)
    requires k.Starter? && TaskFact(c, k) && OwnJob(s.jobs, k.id, k, first)
    ensures var m := StartMove(c, s, k, e); !m.change.Hatch? && OwnJob(NewJobs(s.jobs, m.change), k.id, m.next, first)
  {
  }

  lemma WorkKeepsJob(c: EngineConfig, s: State, k: Task, e: Choice, first: JobRecord)
    requires k.Worker? && TaskFact(c, k) && OwnJob(s.jobs, k.id, k, first)
    ensures var m := WorkMove(s, k, e); !m.change.Hatch? && OwnJob(NewJobs(s.jobs, m.change), k.id, m.next, first)
  {
  }

  lemma WindKeepsJob(c: EngineConfig, s: State, k: Task, e: Choice, first: JobRecord)
    requires k.Winder? && TaskFact(c, k) && OwnJob(s.jobs, k.id, k, first)
    ensures var m := WindMove(k); !m.change.Hatch? && OwnJob(NewJobs(s.jobs, m.change), k.id, m.next, first)
  {
  }

  lemma CloseKeepsJob(c: EngineConfig, s: State, k: Task, e: Choice, first: JobRecord)
    requires k.Closer? && TaskFact(c, k) && OwnJob(s.jobs, k.id, k, first)
    ensures var m := CloseMove(s, k, e); !m.change.Hatch? && OwnJob(NewJobs(s.jobs, m.change), k.id, m.next, first)
  {
  }

  lemma MoveKeepsJob(c: EngineConfig, s: State, k: Task, e: Choice, m: Move, id: JobId, first: JobRecord)
    requires m == NextMove(c, s, k, e) && TaskFact(c, k) && Allowed(c, s, k, e) && OwnJob(s.jobs, id, k, first)
    ensures OwnJob(NewJobs(s.jobs, m.change), id, if m.change.Hatch? then m.change.runner else m.next, first)
  {
    match k
    case Adder(_, _, _) => AddKeepsJob(c, s, k, e, first);
    case Orphan(_, _) =>
    case Starter(_, _) => StartKeepsJob(c, s, k, e, first);
    case Worker(_, _, _) => WorkKeepsJob(c, s, k, e, first);
    case Winder(_, _, _, _) => WindKeepsJob(c, s, k, e, first);
    case Closer(_, _, _) => CloseKeepsJob(c, s, k, e, first);
  }

  /** The moves of other tasks, pruning included, leave what is known about a job alone. */
  lemma OthersKeepJob(jobs: Table, change: Change, maxJobs: nat, id: JobId, k: Task, first: JobRecord)
    requires OwnJob(jobs, id, k, first)
    requires change.Store? ==> change.rec.id != id
    requires change.Retain? ==> IsPruned(jobs, change.kept, maxJobs)
    ensures OwnJob(NewJobs(jobs, change), id, k, first)
  {
    if change.Retain? && id in jobs && id !in change.kept {
      assert IsTerminal(jobs[id].status);
    }
  }

  /** Where the work for job `id` stands after task `t` has made move `m`. */
  lemma JobAfterMove(jobs: Table, tasks: seq<Task>, book: map<JobId, Entry>, t: nat, m: Move, maxJobs: nat, id: JobId)
    requires t < |tasks| && id in book && JobsOk(jobs, tasks, book)
    requires Owned(tasks[t]) == Some(id) ==> book[id].owner == t
    requires m.change.Retain? ==> IsPruned(jobs, m.change.kept, maxJobs)
    requires m.change.Store? ==> Owned(tasks[t]) == Some(m.change.rec.id)
    requires m.change.Hatch? ==> Owned(tasks[t]).Some? && m.change.runner == Starter(Owned(tasks[t]).value, WaitPermit)
    requires m.change.Enroll? ==> m.change.rec.id != id && Owned(tasks[t]).None?
    requires Owned(tasks[t]) == Some(id) ==>
      OwnJob(NewJobs(jobs, m.change), id, if m.change.Hatch? then m.change.runner else m.next, book[id].first)
    ensures var book' := NewBook(book, t, |tasks|, m.change);
      && id in book' && book'[id].owner < |NewTasks(tasks, t, m)|
      && OwnJob(NewJobs(jobs, m.change), id, NewTasks(tasks, t, m)[book'[id].owner], book'[id].first)
  {
    assert OwnJob(jobs, id, tasks[book[id].owner], book[id].first);
    if book[id].owner != t {
      OthersKeepJob(jobs, m.change, maxJobs, id, tasks[book[id].owner], book[id].first);
    }
  }

  lemma MoveKeepsJobs(c: EngineConfig, s: State, t: nat, m: Move)
    requires t < |s.tasks| && BookOk(c, s) && JobsOk(s.jobs, s.tasks, s.past.book) && OwnerRule(s.tasks[t], m)
    requires m.change.Retain? ==> IsPruned(s.jobs, m.change.kept, c.maxJobs)
    requires m.change.Enroll? ==>
      m.change.rec.id !in s.past.book && OwnJob(s.jobs, m.change.rec.id, m.next, m.change.rec)
    requires Owned(s.tasks[t]).Some? ==>
      var id := Owned(s.tasks[t]).value;
      OwnJob(NewJobs(s.jobs, m.change), id, if m.change.Hatch? then m.change.runner else m.next, s.past.book[id].first)
    ensures JobsOk(NewJobs(s.jobs, m.change), NewTasks(s.tasks, t, m), NewBook(s.past.book, t, |s.tasks|, m.change))
  {
    var book := NewBook(s.past.book, t, |s.tasks|, m.change);
    forall id | id in book
      ensures book[id].owner < |NewTasks(s.tasks, t, m)|
      ensures OwnJob(NewJobs(s.jobs, m.change), id, NewTasks(s.tasks, t, m)[book[id].owner], book[id].first)
    {
      if id in s.past.book {
        JobAfterMove(s.jobs, s.tasks, s.past.book, t, m, c.maxJobs, id);
      }
    }
  }

  lemma StepKeepsJobs(c: EngineConfig, s: State, t: nat, e: Choice)
    requires TasksOk(c, s) && BookOk(c, s) && JobsOk(s.jobs, s.tasks, s.past.book) && CanStep(c, s, t, e)
    ensures var s' := Apply(s, t, NextMove(c, s, s.tasks[t], e), e.applied);
      BookOk(c, s') && JobsOk(s'.jobs, s'.tasks, s'.past.book)
    ensures StoreRule(s.jobs, s.tasks[t], NextMove(c, s, s.tasks[t], e))
  {
    var k := s.tasks[t];
    var m := NextMove(c, s, k, e);
    var own := Owned(k);
    if own.Some? {
      assert OwnJob(s.jobs, own.value, k, s.past.book[own.value].first);
      MoveKeepsJob(c, s, k, e, m, own.value, s.past.book[own.value].first);
      OwnStore(c, s, k, e, own.value, s.past.book[own.value].first);
    }
    StepFollowsRules(c, s, t, e);
    MoveRetains(c, s, k, e);
    EnrolledJob(c, s, k, e);
    ApplyKeepsBook(c, s, t, m, e.applied);
    MoveKeepsJobs(c, s, t, m);
  }

  /** A prune keeps what IsPruned says. */
  lemma MoveRetains(c: EngineConfig, s: State, k: Task, e: Choice)
    requires Allowed(c, s, k, e)
    ensures var m := NextMove(c, s, k, e); m.change.Retain? ==> IsPruned(s.jobs, m.change.kept, c.maxJobs)
  {
    if k.Adder? {
      AddRetains(k, e);
    } else {
      OthersRetainNothing(c, s, k, e);
    }
  }

  lemma AddRetains(k: Task, e: Choice)
    requires k.Adder?
    ensures AddMove(k, e).change.Retain? ==> k.ap.Prune? && AddMove(k, e).change.kept == e.kept
  {
  }

  lemma OthersRetainNothing(c: EngineConfig, s: State, k: Task, e: Choice)
    requires !k.Adder?
    ensures !NextMove(c, s, k, e).change.Retain?
  {
  }

  lemma EnrolledJob(c: EngineConfig, s: State, k: Task, e: Choice)
    ensures var m := NextMove(c, s, k, e);
      m.change.Enroll? && m.change.rec.id !in s.jobs ==> OwnJob(s.jobs, m.change.rec.id, m.next, m.change.rec)
  {
  }

  lemma OwnStore(c: EngineConfig, s: State, k: Task, e: Choice, id: JobId, first: JobRecord)
    requires TaskFact(c, k) && OwnJob(s.jobs, id, k, first)
    ensures StoreRule(s.jobs, k, NextMove(c, s, k, e))
  {
  }
}
