/** Every step keeps the lock variables in agreement with the program counters. */
module EngineLocks {
  import opened Engine
  import opened EngineInvariants
  import opened Holding

  lemma StepKeepsLocks(c: EngineConfig, s: State, t: nat, e: Choice)
    requires LocksOk(s) && CanStep(c, s, t, e)
    ensures LocksOk(Apply(s, t, NextMove(c, s, s.tasks[t], e), e.applied))
  {
    var m := NextMove(c, s, s.tasks[t], e);
    ApplyKeepsLocks(s, t, m, e.applied);
  }

  lemma ApplyKeepsLocks(s: State, t: nat, m: Move, applied: bool)
    requires LocksOk(s) && t < |s.tasks| && Available(s.locks, s.tasks[t], m.next)
    requires m.change.Hatch? ==> m.change.runner.Starter? && m.change.runner.sp.WaitPermit?
    ensures LocksOk(Apply(s, t, m, applied))
  {
    OwnerUpdate(s.tasks, s.locks.idOwner, HoldsIds, t, m.next);
    OwnerUpdate(s.tasks, s.locks.writer, HoldsWrite, t, m.next);
    MembersUpdate(s.tasks, s.locks.readers, HoldsRead, t, m.next);
    if m.change.Hatch? {
      var locks := Relock(s.locks, t, s.tasks[t], m.next);
      OwnerAppend(s.tasks[t := m.next], locks.idOwner, HoldsIds, m.change.runner);
      OwnerAppend(s.tasks[t := m.next], locks.writer, HoldsWrite, m.change.runner);
      MembersAppend(s.tasks[t := m.next], locks.readers, HoldsRead, m.change.runner);
    }
  }
}
