/** What each step does to the queue and to the table, against the stages that their bounds count. */
module EngineBounds {
  import opened Wrappers
  import opened Types
  import opened JobTable
  import opened Counting
  import opened Holding
  import opened Engine
  import opened EngineInvariants
  import opened EngineCounts

  /** A submission between its admission check and its insertion into the table. */
  predicate InWindow(k: Task) {
    (k.Checker? && k.cp.Admitted?) || (k.Adder? && (k.ap.WaitInsert? || k.ap.Insert?))
  }

  predicate IdlessInWindow(k: Task) {
    InWindow(k) && k.rid.None?
  }

  predicate IdentifiedInWindow(k: Task) {
    InWindow(k) && k.rid.Some?
  }

  predicate Inserts(k: Task) {
    k.Adder? && k.ap.Insert?
  }

  predicate Prunes(k: Task) {
    k.Adder? && k.ap.Prune?
  }

  /** Inserted into the table, pruning not done yet. */
  predicate AwaitsPrune(k: Task) {
    k.Adder? && !k.ap.WaitInsert? && !k.ap.Insert? && !k.ap.Spawn?
  }

  /** The request-id lock admits one submission with an id at a time. */
  lemma WindowSplits(tasks: seq<Task>, owner: Option<nat>)
    requires OwnerAgrees(tasks, owner, HoldsIds)
    ensures Count(tasks, InWindow) <= Count(tasks, IdlessInWindow) + 1
  {
    CountSplit(tasks, InWindow, IdlessInWindow, IdentifiedInWindow);
    forall i, j | 0 <= i < |tasks| && 0 <= j < |tasks| && IdentifiedInWindow(tasks[i]) && IdentifiedInWindow(tasks[j])
      ensures i == j
    {
      assert HoldsIds(tasks[i]) && HoldsIds(tasks[j]);
    }
    CountAtMostOne(tasks, IdentifiedInWindow);
  }

  /** How a move changes the table against those stages; `full` is the size at which admission ends. */
  ghost predicate BoundRule(jobs: Table, maxJobs: nat, full: bool, k: Task, m: Move) {
    && (Prunes(k) <==> m.change.Retain?)
    && (m.change.Store? ==> !m.change.rec.status.Queued? || Inserts(k))
    && match m.change
       case Store(rec) =>
         if Inserts(k) then rec.id !in jobs && rec.status.Queued? && InWindow(k) && !InWindow(m.next)
         else rec.id in jobs && !InWindow(k) && !InWindow(m.next)
       case Retain(kept) => IsPruned(jobs, kept, maxJobs) && !InWindow(k) && !InWindow(m.next)
       case _ => !Inserts(k) && (InWindow(m.next) ==> InWindow(k) || !full)
  }

  /** No more places in the queue. */
  predicate IsFull(c: EngineConfig, s: State) {
    |QueuedIds(s.jobs)| >= c.maxQueued
  }

  lemma CheckBounds(c: EngineConfig, s: State, k: Task, e: Choice)
    requires k.Checker?
    ensures BoundRule(s.jobs, c.maxJobs, IsFull(c, s), k, CheckMove(c, s, k, e))
  {
  }

  lemma AddBounds(jobs: Table, maxJobs: nat, full: bool, k: Task, e: Choice, first: JobRecord)
    requires k.Adder? && OwnJob(jobs, k.rec.id, k, first) && (Prunes(k) ==> IsPruned(jobs, e.kept, maxJobs))
    ensures BoundRule(jobs, maxJobs, full, k, AddMove(k, e))
  {
  }

  lemma WorkBounds(s: State, maxJobs: nat, full: bool, k: Task, e: Choice, first: JobRecord)
    requires k.Worker? && OwnJob(s.jobs, k.id, k, first)
    ensures BoundRule(s.jobs, maxJobs, full, k, WorkMove(s, k, e))
  {
  }

  lemma CloseBounds(s: State, maxJobs: nat, full: bool, k: Task, e: Choice, first: JobRecord)
    requires k.Closer? && OwnJob(s.jobs, k.id, k, first)
    ensures BoundRule(s.jobs, maxJobs, full, k, CloseMove(s, k, e))
  {
  }

  lemma OwnedBounds(c: EngineConfig, s: State, k: Task, e: Choice, first: JobRecord)
    requires Owned(k).Some? && OwnJob(s.jobs, Owned(k).value, k, first)
    requires Prunes(k) ==> IsPruned(s.jobs, e.kept, c.maxJobs)
    ensures BoundRule(s.jobs, c.maxJobs, IsFull(c, s), k, NextMove(c, s, k, e))
  {
    match k
    case Adder(_, _, _) => AddBounds(s.jobs, c.maxJobs, IsFull(c, s), k, e, first);
    case Worker(_, _, _) => WorkBounds(s, c.maxJobs, IsFull(c, s), k, e, first);
    case Closer(_, _, _) => CloseBounds(s, c.maxJobs, IsFull(c, s), k, e, first);
    case _ =>
  }

  lemma StepBounds(c: EngineConfig, s: State, t: nat, e: Choice)
    requires OwnersOk(s.tasks, s.past.book) && JobsOk(s.jobs, s.tasks, s.past.book) && CanStep(c, s, t, e)
    ensures BoundRule(s.jobs, c.maxJobs, IsFull(c, s), s.tasks[t], NextMove(c, s, s.tasks[t], e))
  {
    var k := s.tasks[t];
    if Owned(k).Some? {
      assert OwnJob(s.jobs, Owned(k).value, k, s.past.book[Owned(k).value].first);
      OwnedBounds(c, s, k, e, s.past.book[Owned(k).value].first);
    } else if k.Checker? {
      CheckBounds(c, s, k, e);
    }
  }

  /** The table grows by insertions only, and a prune brings it down to the limit or to its live jobs. */
  lemma TableAfterMove(jobs: Table, maxJobs: nat, full: bool, k: Task, m: Move)
    requires BoundRule(jobs, maxJobs, full, k, m)
    ensures var size := |NewJobs(jobs, m.change)|;
      if Prunes(k) then size <= Max(maxJobs, |ActiveIds(jobs)|) else size == |jobs| + One(Inserts(k))
  {
    match m.change
    case Store(rec) =>
      if Inserts(k) { StoreNewSizes(jobs, rec); } else { StoreOldSizes(jobs, rec); }
    case Retain(kept) => PrunedSizes(jobs, kept, maxJobs);
    case _ =>
  }

  lemma QueuedAfterMove(jobs: Table, maxJobs: nat, full: bool, k: Task, m: Move)
    requires BoundRule(jobs, maxJobs, full, k, m)
    ensures |QueuedIds(NewJobs(jobs, m.change))| <= |QueuedIds(jobs)| + One(Inserts(k))
    ensures Inserts(k) ==> InWindow(k) && !InWindow(m.next)
    ensures !InWindow(k) && InWindow(m.next) ==> !full
  {
    match m.change
    case Store(rec) =>
      if Inserts(k) { StoreNewSizes(jobs, rec); } else { StoreOldSizes(jobs, rec); }
    case Retain(kept) => PrunedSizes(jobs, kept, maxJobs);
    case _ =>
  }

  /** Queued jobs and submissions in the window keep below the limit and those without an id. */
  lemma QueueAfterMove(jobs: Table, maxJobs: nat, tasks: seq<Task>, t: nat, m: Move, limit: nat, owner: Option<nat>)
    requires t < |tasks| && HatchRule(m) && OwnerAgrees(NewTasks(tasks, t, m), owner, HoldsIds)
    requires BoundRule(jobs, maxJobs, |QueuedIds(jobs)| >= limit, tasks[t], m)
    ensures var tasks' := NewTasks(tasks, t, m);
      var size, size' := |QueuedIds(jobs)| + Count(tasks, InWindow),
                         |QueuedIds(NewJobs(jobs, m.change))| + Count(tasks', InWindow);
      size' <= size || size' <= limit + Count(tasks', IdlessInWindow)
  {
    QueuedAfterMove(jobs, maxJobs, |QueuedIds(jobs)| >= limit, tasks[t], m);
    WindowAfterMove(tasks, t, m);
    WindowSplits(NewTasks(tasks, t, m), owner);
  }

  lemma WindowAfterMove(tasks: seq<Task>, t: nat, m: Move)
    requires t < |tasks| && HatchRule(m)
    ensures Count(NewTasks(tasks, t, m), InWindow) + One(InWindow(tasks[t]))
         == Count(tasks, InWindow) + One(InWindow(m.next))
  {
    CountAfter(tasks, t, m, InWindow);
  }

  /** Who awaits pruning: what is inserted, until it prunes or is dropped. */
  lemma AwaitsAfterMove(c: EngineConfig, s: State, k: Task, e: Choice)
    requires !IsDone(k)
    ensures AwaitsPrune(NextMove(c, s, k, e).next) == (Inserts(k) || (AwaitsPrune(k) && !Prunes(k)))
  {
  }
}
