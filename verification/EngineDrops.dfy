/** Dropping a handler keeps the invariant: it gives up guards and touches nothing else. */
module EngineDrops {
  import opened Wrappers
  import opened Types
  import opened JobTable
  import opened Engine
  import opened EngineInvariants
  import opened EngineLocks
  import opened EngineCounts
  import opened EngineClaims
  import opened EngineOwners
  import opened EngineJobs
  import opened EngineTrace
  import opened EngineRows

  /** What a drop is to the rules that moves follow. */
  lemma DropRules(c: EngineConfig, s: State, k: Task)
    requires CanDrop(k) && TaskFact(c, k)
    ensures var m := DropMove(k);
      && OwnerRule(k, m) && NumberRule(c, s, m) && CountRule(k, m) && HatchRule(m)
      && m.change.Nothing? && m.bump.Same? && m.fx == [] && IsDone(m.next) && TaskFact(c, m.next)
      && Expected(m.next) == Expected(k) && Available(s.locks, k, m.next)
      && !HoldsIds(m.next) && !HoldsRead(m.next) && !HoldsWrite(m.next)
  {
  }

  /** The dropped holder of the request-id lock leaves the ids as the next holder expects them. */
  lemma DroppedHolder(jobs: Table, ids: set<string>, k: Task)
    requires CanDrop(k) && HolderFact(jobs, ids, if HoldsIds(k) then Some(k) else None)
    ensures ids == ClaimedIds(jobs)
  {
  }

  lemma DropKeepsTasks(c: EngineConfig, s: State, t: nat)
    requires TasksOk(c, s) && Can(c, s, Drop(t))
    ensures TasksOk(c, Next(c, s, Drop(t)))
  {
    DropRules(c, s, s.tasks[t]);
  }

  lemma DropKeepsLocks(c: EngineConfig, s: State, t: nat)
    requires TasksOk(c, s) && LocksOk(s) && ClaimsOk(s) && Can(c, s, Drop(t))
    ensures LocksOk(Next(c, s, Drop(t))) && ClaimsOk(Next(c, s, Drop(t)))
  {
    var m := DropMove(s.tasks[t]);
    DropRules(c, s, s.tasks[t]);
    ApplyKeepsLocks(s, t, m, false);
    HolderAfter(s, t, m, false);
    if HoldsIds(s.tasks[t]) {
      DroppedHolder(s.jobs, s.ids, s.tasks[t]);
    }
  }

  lemma DropKeepsOwnJob(jobs: Table, id: JobId, k: Task, first: JobRecord)
    requires CanDrop(k) && OwnJob(jobs, id, k, first)
    ensures OwnJob(jobs, id, DropMove(k).next, first)
  {
  }

  lemma DropKeepsJobs(c: EngineConfig, s: State, t: nat)
    requires TasksOk(c, s) && BookOk(c, s) && JobsOk(s.jobs, s.tasks, s.past.book) && Can(c, s, Drop(t))
    ensures var s' := Next(c, s, Drop(t)); BookOk(c, s') && JobsOk(s'.jobs, s'.tasks, s'.past.book)
  {
    var k := s.tasks[t];
    DropRules(c, s, k);
    ApplyKeepsBook(c, s, t, DropMove(k), false);
    if Owned(k).Some? {
      DropKeepsOwnJob(s.jobs, Owned(k).value, k, s.past.book[Owned(k).value].first);
    }
    MoveKeepsJobs(c, s, t, DropMove(k));
  }

  lemma DropKeepsSaves(c: EngineConfig, s: State, k: Task, first: JobRecord)
    requires CanDrop(k) && TaskFact(c, k) && Owned(k).Some?
    ensures SaveRule(s.past.saved, Owned(k).value, k, DropMove(k), first)
  {
  }

  lemma DropKeepsTrace(c: EngineConfig, s: State, t: nat)
    requires TasksOk(c, s) && BookOk(c, s) && TraceOk(s.tasks, s.past.book, s.past.trace) && Can(c, s, Drop(t))
    ensures var s' := Next(c, s, Drop(t)); TraceOk(s'.tasks, s'.past.book, s'.past.trace)
  {
    DropRules(c, s, s.tasks[t]);
    MoveKeepsTrace(s.tasks, s.past.book, s.past.trace, t, DropMove(s.tasks[t]));
  }

  lemma DropKeepsSaved(c: EngineConfig, s: State, t: nat)
    requires TasksOk(c, s) && BookOk(c, s) && Can(c, s, Drop(t))
    requires SavedOk(s.past.saved, s.tasks, s.past.book, s.past.floor)
    ensures var s' := Next(c, s, Drop(t)); SavedOk(s'.past.saved, s'.tasks, s'.past.book, s'.past.floor)
  {
    var k := s.tasks[t];
    DropRules(c, s, k);
    if Owned(k).Some? {
      DropKeepsSaves(c, s, k, s.past.book[Owned(k).value].first);
    }
    MoveKeepsSaved(s, t, DropMove(k), false);
  }

  lemma DropKeepsCounts(c: EngineConfig, s: State, t: nat)
    requires TasksOk(c, s) && OutcomesOk(c, s) && ResourcesOk(c, s) && Can(c, s, Drop(t))
    ensures var s' := Next(c, s, Drop(t)); OutcomesOk(c, s') && ResourcesOk(c, s')
  {
    var m := DropMove(s.tasks[t]);
    DropRules(c, s, s.tasks[t]);
    ApplyKeepsOutcomes(c, s, t, m, false);
    ApplyKeepsResources(c, s, t, m, false);
  }

  lemma DropKeepsInv(c: EngineConfig, s: State, t: nat)
    requires Inv(c, s) && Can(c, s, Drop(t))
    ensures Inv(c, Next(c, s, Drop(t)))
  {
    DropKeepsTasks(c, s, t);
    DropKeepsLocks(c, s, t);
    DropKeepsJobs(c, s, t);
    DropKeepsTrace(c, s, t);
    DropKeepsSaved(c, s, t);
    DropKeepsCounts(c, s, t);
    DropRules(c, s, s.tasks[t]);
  }
}
