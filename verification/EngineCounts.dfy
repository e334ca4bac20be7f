/** Every step keeps what tasks know about themselves, and the conservation laws of the counters. */
module EngineCounts {
  import opened Counting
  import opened JobTable
  import opened Engine
  import opened EngineInvariants

  /** What a task knows about itself stays true as it moves. */
  lemma MoveKeepsFact(c: EngineConfig, s: State, k: Task, e: Choice)
    requires TaskFact(c, k) && !IsDone(k)
    ensures TaskFact(c, NextMove(c, s, k, e).next)
  {
    match k
    case Checker(_, _, _, _) => CheckKeepsFact(c, s, k, e);
    case Closer(_, _, _) => CloseKeepsFact(c, s, k, e);
    case Adder(_, _, _) => AddKeepsFact(k, e);
    case Starter(_, _) => RunKeepsFact(c, s, k, e);
    case Worker(_, _, _) => RunKeepsFact(c, s, k, e);
    case Winder(_, _, _, _) => WindKeepsFact(k);
    case _ =>
  }

  lemma CloseKeepsFact(c: EngineConfig, s: State, k: Task, e: Choice)
    requires k.Closer? && TaskFact(c, k)
    ensures TaskFact(c, CloseMove(s, k, e).next)
  {
  }

  lemma AddKeepsFact(k: Task, e: Choice)
    requires k.Adder? && k.rid == RequestId(k.rec.request)
    ensures var next := AddMove(k, e).next;
      next.Answered? || (next.Adder? && next.rid == k.rid && next.rec == k.rec)
  {
  }

  lemma RunKeepsFact(c: EngineConfig, s: State, k: Task, e: Choice)
    requires k.Starter? || k.Worker?
    ensures var next := if k.Starter? then StartMove(c, s, k, e).next else WorkMove(s, k, e).next;
      next.Starter? || next.Worker? || (next.Winder? && next.dp.Release?) || (next.Closer? && next.ep.WaitEnd?)
  {
  }

  lemma WindKeepsFact(k: Task)
    requires k.Winder? && (k.dp.CountCommand? ==> k.error.Some?)
    ensures var next := WindMove(k).next;
      (next.Winder? && (next.dp.CountCommand? ==> next.error.Some?)) || (next.Closer? && next.ep.WaitEnd?)
  {
  }

  lemma CheckKeepsFact(c: EngineConfig, s: State, k: Task, e: Choice)
    requires k.Checker? && TaskFact(c, k)
    ensures TaskFact(c, CheckMove(c, s, k, e).next)
  {
  }

  predicate HatchRule(m: Move) {
    m.change.Hatch? ==> m.change.runner.Starter? && m.change.runner.sp.WaitPermit?
  }

  lemma MoveHatches(c: EngineConfig, s: State, k: Task, e: Choice)
    ensures HatchRule(NextMove(c, s, k, e))
  {
  }

  lemma StepKeepsTasks(c: EngineConfig, s: State, t: nat, e: Choice)
    requires TasksOk(c, s) && CanStep(c, s, t, e)
    ensures TasksOk(c, Apply(s, t, NextMove(c, s, s.tasks[t], e), e.applied))
  {
    MoveKeepsFact(c, s, s.tasks[t], e);
    MoveHatches(c, s, s.tasks[t], e);
  }

  function One(b: bool): nat { if b then 1 else 0 }

  lemma CountAfter(tasks: seq<Task>, t: nat, m: Move, p: Task -> bool)
    requires t < |tasks|
    ensures Count(NewTasks(tasks, t, m), p) + One(p(tasks[t]))
         == Count(tasks, p) + One(p(m.next)) + One(m.change.Hatch? && p(m.change.runner))
  {
    CountUpdate(tasks, t, m.next, p);
    if m.change.Hatch? {
      CountAppend(tasks[t := m.next], m.change.runner, p);
    }
  }

  /** A move changes each stage count exactly as its counter update says. */
  predicate CountRule(k: Task, m: Move) {
    var failed := One(m.bump.Failed1?);
    var tolerated := One(m.bump.LockTolerated?);
    && One(Unsettled(k)) + One(m.bump.Submitted?)
       == One(Unsettled(m.next)) + One(m.change.Hatch?) + One(m.bump.Succeeded1?) + failed
    && failed + tolerated + One(AtLockFailed(m.next)) + One(AtCountCommand(k))
       == One(m.bump.CommandFailed?) + One(m.bump.LockFailed1?) + tolerated
          + One(AtCountCommand(m.next)) + One(AtLockFailed(k))
    && One(m.bump.Running1?) + One(IsRunning(k)) == One(IsRunning(m.next)) + One(m.bump.Running0?)
    && One(m.bump.LockAcquired?) + One(HoldsGrant(k)) == One(m.bump.LockReturned?) + One(HoldsGrant(m.next))
  }

  lemma CheckCounts(c: EngineConfig, s: State, k: Task, e: Choice)
    requires k.Checker? && TaskFact(c, k) && !IsDone(k)
    ensures CountRule(k, CheckMove(c, s, k, e))
  {
  }

  lemma AddCounts(c: EngineConfig, s: State, k: Task, e: Choice)
    requires k.Adder? && TaskFact(c, k) && !IsDone(k)
    ensures CountRule(k, AddMove(k, e))
  {
  }

  lemma StartCounts(c: EngineConfig, s: State, k: Task, e: Choice)
    requires k.Starter? && TaskFact(c, k) && !IsDone(k)
    ensures CountRule(k, StartMove(c, s, k, e))
  {
  }

  lemma WorkCounts(c: EngineConfig, s: State, k: Task, e: Choice)
    requires k.Worker? && TaskFact(c, k) && !IsDone(k)
    ensures CountRule(k, WorkMove(s, k, e))
  {
    match k.wp
    case Begin =>
    case GetJob =>
    case Execute(_) =>
    case _ =>
  }

  lemma WindCounts(c: EngineConfig, s: State, k: Task, e: Choice)
    requires k.Winder? && TaskFact(c, k) && !IsDone(k)
    ensures CountRule(k, WindMove(k))
  {
  }

  lemma CloseCounts(c: EngineConfig, s: State, k: Task, e: Choice)
    requires k.Closer? && TaskFact(c, k) && !IsDone(k)
    ensures CountRule(k, CloseMove(s, k, e))
  {
  }

  lemma MoveCounts(c: EngineConfig, s: State, k: Task, e: Choice, m: Move)
    requires TaskFact(c, k) && !IsDone(k) && m == NextMove(c, s, k, e)
    ensures CountRule(k, m)
  {
    match k
    case Checker(_, _, _, _) => CheckCounts(c, s, k, e);
    case Adder(_, _, _) => AddCounts(c, s, k, e);
    case Starter(_, _) => StartCounts(c, s, k, e);
    case Worker(_, _, _) => WorkCounts(c, s, k, e);
    case Winder(_, _, _, _) => WindCounts(c, s, k, e);
    case Closer(_, _, _) => CloseCounts(c, s, k, e);
    case _ =>
  }

  lemma OnlyOptionalLocksTolerated(c: EngineConfig, s: State, k: Task, e: Choice)
    requires c.coordinationRequired
    ensures !NextMove(c, s, k, e).bump.LockTolerated?
  {
  }

  lemma OutcomesAfter(tasks: seq<Task>, t: nat, m: Move)
    requires t < |tasks| && CountRule(tasks[t], m) && HatchRule(m)
    ensures var tasks', b := NewTasks(tasks, t, m), m.bump;
      && Count(tasks, Unsettled) + One(b.Submitted?) == Count(tasks', Unsettled) + One(b.Succeeded1?) + One(b.Failed1?)
      && One(b.Failed1?) + Count(tasks', AtLockFailed) + Count(tasks, AtCountCommand)
         == One(b.CommandFailed?) + One(b.LockFailed1?) + Count(tasks', AtCountCommand) + Count(tasks, AtLockFailed)
  {
    CountAfter(tasks, t, m, Unsettled);
    CountAfter(tasks, t, m, AtLockFailed);
    CountAfter(tasks, t, m, AtCountCommand);
  }

  lemma ApplyKeepsOutcomes(c: EngineConfig, s: State, t: nat, m: Move, applied: bool)
    requires OutcomesOk(c, s) && t < |s.tasks| && Available(s.locks, s.tasks[t], m.next)
    requires CountRule(s.tasks[t], m) && (c.coordinationRequired ==> !m.bump.LockTolerated?) && HatchRule(m)
    ensures OutcomesOk(c, Apply(s, t, m, applied))
  {
    OutcomesAfter(s.tasks, t, m);
  }

  lemma ApplyKeepsResources(c: EngineConfig, s: State, t: nat, m: Move, applied: bool)
    requires ResourcesOk(c, s) && t < |s.tasks| && Available(s.locks, s.tasks[t], m.next)
    requires CountRule(s.tasks[t], m) && HatchRule(m)
    ensures ResourcesOk(c, Apply(s, t, m, applied))
  {
    CountAfter(s.tasks, t, m, HoldsPermit);
    CountAfter(s.tasks, t, m, IsRunning);
    CountAfter(s.tasks, t, m, HoldsGrant);
  }

  lemma StepKeepsCounts(c: EngineConfig, s: State, t: nat, e: Choice)
    requires TasksOk(c, s) && OutcomesOk(c, s) && ResourcesOk(c, s) && CanStep(c, s, t, e)
    ensures OutcomesOk(c, Apply(s, t, NextMove(c, s, s.tasks[t], e), e.applied))
    ensures ResourcesOk(c, Apply(s, t, NextMove(c, s, s.tasks[t], e), e.applied))
  {
    var m := NextMove(c, s, s.tasks[t], e);
    MoveHatches(c, s, s.tasks[t], e);
    MoveCounts(c, s, s.tasks[t], e, m);
    if c.coordinationRequired {
      OnlyOptionalLocksTolerated(c, s, s.tasks[t], e);
    }
    ApplyKeepsOutcomes(c, s, t, m, e.applied);
    ApplyKeepsResources(c, s, t, m, e.applied);
  }
}
