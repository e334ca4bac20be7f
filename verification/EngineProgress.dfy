/** No deadlock, and every submission is done after a bounded number of steps. */
module EngineProgress {
  import opened Wrappers
  import opened Types
  import opened JobTable
  import opened Counting
  import opened Engine
  import opened EngineInvariants
  import opened EngineSafety
  import opened RequestMap

  // The guards a task asks for in its next move.

  predicate WantsIds(k: Task) {
    (k.Checker? && k.cp.WaitIds?) || (k.Adder? && k.ap.WaitPruneIds?)
  }

  predicate WantsRead(k: Task) {
    || (k.Checker? && (k.cp.WaitLookup? || k.cp.WaitAdmit?))
    || (k.Starter? && k.sp.WaitKey?) || (k.Worker? && k.wp.WaitJob?) || (k.Viewer? && k.vp.WaitView?)
  }

  predicate WantsWrite(k: Task) {
    || (k.Adder? && (k.ap.WaitInsert? || k.ap.WaitPruneJobs?))
    || (k.Worker? && k.wp.WaitRun?) || (k.Closer? && k.ep.WaitEnd?)
  }

  predicate WantsPermit(k: Task) {
    k.Starter? && k.sp.WaitPermit?
  }

  predicate Granted(locks: Locks, k: Task) {
    && (WantsIds(k) ==> locks.idOwner.None?)
    && (WantsRead(k) ==> locks.writer.None?)
    && (WantsWrite(k) ==> locks.writer.None? && locks.readers == {})
    && (WantsPermit(k) ==> locks.free > 0)
  }

  /** A move needs no guard but the ones its program counter waits for. */
  lemma CheckNeeds(c: EngineConfig, s: State, k: Task, e: Choice)
    requires k.Checker? && TaskFact(c, k) && Granted(s.locks, k)
    ensures Available(s.locks, k, CheckMove(c, s, k, e).next)
  {
  }

  lemma AddNeeds(s: State, k: Task, e: Choice)
    requires k.Adder? && Granted(s.locks, k)
    ensures Available(s.locks, k, AddMove(k, e).next)
  {
  }

  lemma StartNeeds(c: EngineConfig, s: State, k: Task, e: Choice)
    requires k.Starter? && Granted(s.locks, k)
    ensures Available(s.locks, k, StartMove(c, s, k, e).next)
  {
  }

  lemma WorkNeeds(s: State, k: Task, e: Choice)
    requires k.Worker? && Granted(s.locks, k)
    ensures Available(s.locks, k, WorkMove(s, k, e).next)
  {
  }

  lemma WindNeeds(s: State, k: Task)
    requires k.Winder? && Granted(s.locks, k)
    ensures Available(s.locks, k, WindMove(k).next)
  {
  }

  lemma CloseNeeds(c: EngineConfig, s: State, k: Task, e: Choice)
    requires k.Closer? && TaskFact(c, k) && Granted(s.locks, k)
    ensures Available(s.locks, k, CloseMove(s, k, e).next)
  {
  }

  lemma MoveNeeds(c: EngineConfig, s: State, k: Task, e: Choice)
    requires TaskFact(c, k) && !IsDone(k) && Granted(s.locks, k)
    ensures Available(s.locks, k, NextMove(c, s, k, e).next)
  {
    match k
    case Checker(_, _, _, _) => CheckNeeds(c, s, k, e);
    case Adder(_, _, _) => AddNeeds(s, k, e);
    case Starter(_, _) => StartNeeds(c, s, k, e);
    case Worker(_, _, _) => WorkNeeds(s, k, e);
    case Winder(_, _, _, _) => WindNeeds(s, k);
    case Closer(_, _, _) => CloseNeeds(c, s, k, e);
    case _ =>
  }

  lemma LookupExists(jobs: Table, requestId: string) returns (found: Option<JobRecord>)
    ensures IsLookup(jobs, requestId, found)
  {
    if id :| Claims(jobs, id, requestId) {
      found := Some(jobs[id]);
    } else {
      found := None;
    }
  }

  /** The environment always has an answer to give, and need not write or fail anything. */
  lemma ChoiceExists(c: EngineConfig, s: State, k: Task) returns (e: Choice)
    ensures Allowed(c, s, k, e) && !e.applied && e.error.None?
  {
    var kept := PruningExists(s.jobs, c.maxJobs);
    var found := LookupExists(s.jobs, if k.Checker? && k.rid.Some? then k.rid.value else "");
    var key := if k.Starter? && k.sp.CallLock? && k.sp.key.Some? then k.sp.key.value else "";
    var lock := if c.coordinationEnabled then Busy(key) else Disabled;
    e := Choice(s.past.floor, 0, false, kept, found, lock, None);
  }

  ghost predicate CanMove(c: EngineConfig, s: State, t: nat) {
    exists e :: CanStep(c, s, t, e)
  }

  lemma GrantedCanMove(c: EngineConfig, s: State, t: nat)
    requires t < |s.tasks| && TaskFact(c, s.tasks[t]) && !IsDone(s.tasks[t]) && Granted(s.locks, s.tasks[t])
    ensures CanMove(c, s, t)
  {
    var e := ChoiceExists(c, s, s.tasks[t]);
    MoveNeeds(c, s, s.tasks[t], e);
    assert CanStep(c, s, t, e);
  }

  /** The order of the locks: a task that holds one waits only for later ones. */
  lemma HoldersWaitInOrder(k: Task)
    ensures HoldsIds(k) || HoldsRead(k) || HoldsWrite(k) ==> !WantsIds(k) && !WantsPermit(k) && !IsDone(k)
    ensures HoldsRead(k) || HoldsWrite(k) ==> !WantsRead(k) && !WantsWrite(k)
    ensures HoldsPermit(k) ==> !WantsPermit(k) && !IsDone(k)
  {
  }

  /** Whoever holds a guard of the job table can move at once, whoever else is waiting for it. */
  lemma TableHolderCanMove(c: EngineConfig, s: State, t: nat)
    requires Reachable(c, s) && t < |s.tasks| && (HoldsRead(s.tasks[t]) || HoldsWrite(s.tasks[t]))
    ensures CanMove(c, s, t)
  {
    TaskView(c, s, t);
    HoldersWaitInOrder(s.tasks[t]);
    GrantedCanMove(c, s, t);
  }

  /** With the job table free, the holder of the request-id lock can move. */
  lemma IdHolderCanMove(c: EngineConfig, s: State, t: nat)
    requires Reachable(c, s) && t < |s.tasks| && HoldsIds(s.tasks[t])
    requires s.locks.writer.None? && s.locks.readers == {}
    ensures CanMove(c, s, t)
  {
    TaskView(c, s, t);
    HoldersWaitInOrder(s.tasks[t]);
    GrantedCanMove(c, s, t);
  }

  /**
   * Whichever waiter a queue discipline lets through first can move as soon as the lock it waits for
   * is free: nobody waits for two guards at once.
   */
  lemma FirstWaiterCanMove(c: EngineConfig, s: State, t: nat)
    requires Reachable(c, s) && t < |s.tasks|
    requires
      || ((WantsRead(s.tasks[t]) || WantsWrite(s.tasks[t])) && s.locks.writer.None? && s.locks.readers == {})
      || (WantsIds(s.tasks[t]) && s.locks.idOwner.None?)
      || (WantsPermit(s.tasks[t]) && s.locks.free > 0)
    ensures CanMove(c, s, t)
  {
    TaskView(c, s, t);
    GrantedCanMove(c, s, t);
  }

  /** What the lock variables say about the tasks. */
  lemma LockView(c: EngineConfig, s: State)
    requires Reachable(c, s)
    ensures s.locks.writer.Some? ==> s.locks.writer.value < |s.tasks| && HoldsWrite(s.tasks[s.locks.writer.value])
    ensures forall t :: t in s.locks.readers ==> t < |s.tasks| && HoldsRead(s.tasks[t])
    ensures s.locks.idOwner.Some? ==> s.locks.idOwner.value < |s.tasks| && HoldsIds(s.tasks[s.locks.idOwner.value])
    ensures s.locks.free == 0 && c.maxConcurrent > 0 ==> Count(s.tasks, HoldsPermit) > 0
  {
    ReachableInv(c, s);
  }

  /** With both RwLocks free, somebody can move: the task itself or the holder of a permit. */
  lemma FreeLocksMove(c: EngineConfig, s: State, t: nat) returns (mover: nat)
    requires Reachable(c, s) && t < |s.tasks| && !IsDone(s.tasks[t]) && c.maxConcurrent > 0
    requires s.locks.writer.None? && s.locks.readers == {} && s.locks.idOwner.None?
    ensures CanMove(c, s, mover)
  {
    LockView(c, s);
    mover := t;
    if WantsPermit(s.tasks[t]) && s.locks.free == 0 {
      mover := CountWitness(s.tasks, HoldsPermit);
      HoldersWaitInOrder(s.tasks[mover]);
    }
    TaskView(c, s, mover);
    GrantedCanMove(c, s, mover);
  }

  /** Deadlock freedom: while any task is unfinished, some task can move. */
  lemma NoDeadlock(c: EngineConfig, s: State, t: nat) returns (mover: nat)
    requires Reachable(c, s) && t < |s.tasks| && !IsDone(s.tasks[t]) && c.maxConcurrent > 0
    ensures CanMove(c, s, mover)
  {
    LockView(c, s);
    if s.locks.writer.Some? {
      mover := s.locks.writer.value;
      TableHolderCanMove(c, s, mover);
    } else if s.locks.readers != {} {
      mover :| mover in s.locks.readers;
      TableHolderCanMove(c, s, mover);
    } else if s.locks.idOwner.Some? {
      mover := s.locks.idOwner.value;
      IdHolderCanMove(c, s, mover);
    } else {
      mover := FreeLocksMove(c, s, t);
    }
  }

  /** How many moves a task and the runner it spawns may still make. */
  function Rank(k: Task): nat {
    match k
    case Checker(_, _, _, cp) =>
      (match cp
       case Arrived => 38 case WaitIds => 37 case WaitLookup => 36 case Lookup => 35
       case WaitAdmit => 34 case Admit => 33 case Admitted => 32)
    case Adder(_, _, ap) =>
      (match ap
       case WaitInsert => 31 case Insert => 30 case Inserted => 29 case PersistNew => 28
       case WaitPruneIds => 27 case WaitPruneJobs => 26 case Prune => 25 case Spawn => 24)
    case Starter(_, sp) =>
      (match sp
       case WaitPermit => 23 case WaitKey => 22 case ReadKey => 21 case CallLock(_) => 20 case LockFailed(_) => 19)
    case Worker(_, _, wp) =>
      (match wp
       case Begin => 18 case WaitRun => 17 case SetRun => 16 case PersistRun(_) => 15
       case PublishRun(_) => 14 case WaitJob => 13 case GetJob => 12 case Execute(_) => 11)
    case Winder(_, _, _, dp) =>
      (match dp
       case Release => 10 case StopRunning => 9 case DropPermit => 8 case CountResult => 7 case CountCommand => 6)
    case Closer(_, _, ep) =>
      (match ep
       case WaitEnd => 5 case SetEnd => 4 case PersistEnd(_) => 3 case PublishEnd(_) => 2
       case ReturnPermit => 1 case Finished => 0)
    case Viewer(vp) => (match vp case WaitView => 2 case Viewing => 1 case Viewed => 0)
    case Answered(_, _) => 0
    case Gone => 0
    case Orphan(_, _) => 0
  }

  lemma StartLowersRank(c: EngineConfig, s: State, k: Task, e: Choice)
    requires k.Starter?
    ensures var m := StartMove(c, s, k, e); Rank(m.next) < Rank(k) && !m.change.Hatch?
  {
  }

  lemma WorkLowersRank(s: State, k: Task, e: Choice)
    requires k.Worker?
    ensures var m := WorkMove(s, k, e); Rank(m.next) < Rank(k) && !m.change.Hatch?
  {
  }

  lemma CloseLowersRank(s: State, k: Task, e: Choice)
    requires k.Closer? && !k.ep.Finished?
    ensures var m := CloseMove(s, k, e); Rank(m.next) < Rank(k) && !m.change.Hatch?
  {
  }

  lemma MoveLowersRank(c: EngineConfig, s: State, k: Task, e: Choice)
    requires !IsDone(k)
    ensures var m := NextMove(c, s, k, e);
      Rank(m.next) + (if m.change.Hatch? then Rank(m.change.runner) else 0) < Rank(k)
  {
    match k
    case Starter(_, _) => StartLowersRank(c, s, k, e);
    case Worker(_, _, _) => WorkLowersRank(s, k, e);
    case Closer(_, _, _) => CloseLowersRank(s, k, e);
    case _ =>
  }

  function Remaining(tasks: seq<Task>): nat {
    Sum(tasks, Rank)
  }

  lemma NewTasksRank(tasks: seq<Task>, t: nat, m: Move)
    requires t < |tasks|
    ensures Remaining(NewTasks(tasks, t, m)) + Rank(tasks[t])
         == Remaining(tasks) + Rank(m.next) + (if m.change.Hatch? then Rank(m.change.runner) else 0)
  {
    SumUpdate(tasks, t, m.next, Rank);
    if m.change.Hatch? {
      SumAppend(tasks[t := m.next], m.change.runner, Rank);
    }
  }

  lemma StepLowersRemaining(c: EngineConfig, s: State, t: nat, e: Choice)
    requires CanStep(c, s, t, e)
    ensures Remaining(NewTasks(s.tasks, t, NextMove(c, s, s.tasks[t], e))) < Remaining(s.tasks)
  {
    MoveLowersRank(c, s, s.tasks[t], e);
    NewTasksRank(s.tasks, t, NextMove(c, s, s.tasks[t], e));
  }

  predicate IsStep(ev: Event) { ev.Step? }

  /** The most moves an event can bring into the system. */
  function Budget(ev: Event): nat {
    match ev
    case Submit(_, _) => 38
    case View => 2
    case _ => 0
  }

  /** A step uses up what arrivals brought. */
  lemma EventSpendsBudget(c: EngineConfig, s: State, ev: Event)
    requires Can(c, s, ev)
    ensures Remaining(Next(c, s, ev).tasks) + (if IsStep(ev) then 1 else 0) <= Remaining(s.tasks) + Budget(ev)
  {
    match ev
    case Submit(request, source) => SumAppend(s.tasks, Checker(request, source, RequestId(request), Arrived), Rank);
    case View => SumAppend(s.tasks, Viewer(WaitView), Rank);
    case Step(t, e) => StepLowersRemaining(c, s, t, e);
    case Drop(t) => NewTasksRank(s.tasks, t, DropMove(s.tasks[t]));
    case Restart(_, _, _) =>
  }

  /** Over any run: the moves made and the moves left never exceed 38 a submission and 2 a reader. */
  lemma {:induction false} RunsAreShort(c: EngineConfig, run: seq<State>, events: seq<Event>, i: nat)
    requires IsRun(c, run, events) && i < |run|
    ensures Count(events[..i], IsStep) + Remaining(run[i].tasks) <= Sum(events[..i], Budget)
  {
    if i > 0 {
      var ev := events[i - 1];
      RunsAreShort(c, run, events, i - 1);
      assert run[i - 1 + 1] == Next(c, run[i - 1], ev);
      assert events[..i] == events[..i - 1] + [ev];
      CountAppend(events[..i - 1], ev, IsStep);
      SumAppend(events[..i - 1], ev, Budget);
      EventSpendsBudget(c, run[i - 1], ev);
    }
  }

}
