/** The invariant holds in every state of every run. */
module EngineInduction {
  import opened JobTable
  import opened Persistence
  import opened Counting
  import opened Holding
  import opened Engine
  import opened EngineInvariants
  import opened EngineLocks
  import opened EngineCounts
  import opened EngineClaims
  import opened EngineJobs
  import opened EngineTrace
  import opened EngineRows
  import opened EngineDrops

  lemma BootInv(c: EngineConfig, rows: Rows, saved: Table, floor: nat)
    requires Mirrors(rows, saved) && forall id :: id in saved ==> saved[id].id == id && id.atMs < floor
    ensures Inv(c, Boot(c, rows, saved, floor))
  {
  }

  lemma StepKeepsInv(c: EngineConfig, s: State, t: nat, e: Choice)
    requires Inv(c, s) && CanStep(c, s, t, e)
    ensures Inv(c, Apply(s, t, NextMove(c, s, s.tasks[t], e), e.applied))
  {
    StepKeepsTasks(c, s, t, e);
    StepKeepsLocks(c, s, t, e);
    StepKeepsJobs(c, s, t, e);
    StepKeepsClaims(c, s, t, e);
    StepKeepsTrace(c, s, t, e);
    StepKeepsRows(c, s, t, e);
    StepKeepsCounts(c, s, t, e);
  }

  /** A new submission or HTTP reader holds nothing and owns nothing. */
  predicate IsArrival(k: Task) {
    (k.Viewer? && k.vp.WaitView?) || (k.Checker? && k.cp.Arrived? && k.rid == RequestId(k.request))
  }

  lemma ArrivalKeepsLocks(c: EngineConfig, s: State, k: Task)
    requires TasksOk(c, s) && LocksOk(s) && ClaimsOk(s) && IsArrival(k)
    ensures var s' := s.(tasks := s.tasks + [k]); TasksOk(c, s') && LocksOk(s') && ClaimsOk(s')
  {
    OwnerAppend(s.tasks, s.locks.idOwner, HoldsIds, k);
    OwnerAppend(s.tasks, s.locks.writer, HoldsWrite, k);
    MembersAppend(s.tasks, s.locks.readers, HoldsRead, k);
  }

  lemma ArrivalKeepsBook(c: EngineConfig, s: State, k: Task)
    requires BookOk(c, s) && JobsOk(s.jobs, s.tasks, s.past.book) && IsArrival(k)
    ensures var s' := s.(tasks := s.tasks + [k]); BookOk(c, s') && JobsOk(s'.jobs, s'.tasks, s'.past.book)
  {
  }

  lemma ArrivalKeepsHistory(s: State, k: Task)
    requires TraceOk(s.tasks, s.past.book, s.past.trace)
    requires SavedOk(s.past.saved, s.tasks, s.past.book, s.past.floor) && IsArrival(k)
    ensures TraceOk(s.tasks + [k], s.past.book, s.past.trace)
    ensures SavedOk(s.past.saved, s.tasks + [k], s.past.book, s.past.floor)
  {
  }

  lemma ArrivalKeepsCounts(c: EngineConfig, s: State, k: Task)
    requires OutcomesOk(c, s) && ResourcesOk(c, s) && IsArrival(k)
    ensures var s' := s.(tasks := s.tasks + [k]); OutcomesOk(c, s') && ResourcesOk(c, s')
  {
    CountAppend(s.tasks, k, Unsettled);
    CountAppend(s.tasks, k, AtLockFailed);
    CountAppend(s.tasks, k, AtCountCommand);
    CountAppend(s.tasks, k, HoldsPermit);
    CountAppend(s.tasks, k, IsRunning);
    CountAppend(s.tasks, k, HoldsGrant);
  }

  lemma ArrivalKeepsInv(c: EngineConfig, s: State, k: Task)
    requires Inv(c, s) && IsArrival(k)
    ensures Inv(c, s.(tasks := s.tasks + [k]))
  {
    ArrivalKeepsLocks(c, s, k);
    ArrivalKeepsBook(c, s, k);
    ArrivalKeepsHistory(s, k);
    ArrivalKeepsCounts(c, s, k);
  }

  /** What the next process may rely on: the rows mirror the last writes, all under older ids. */
  lemma RowsBeforeRestart(c: EngineConfig, s: State, floor: nat)
    requires SavedOk(s.past.saved, s.tasks, s.past.book, s.past.floor)
    requires floor >= s.past.floor && forall id :: id in s.past.book ==> id.atMs < floor
    ensures forall id :: id in s.past.saved ==> s.past.saved[id].id == id && id.atMs < floor
  {
  }

  lemma BootKeepsInv(c: EngineConfig, rows: Rows, saved: Table, floor: nat, recovered: bool, atMs: nat)
    requires Mirrors(rows, saved) && forall id :: id in saved ==> saved[id].id == id && id.atMs < floor
    ensures Inv(c, if recovered then Boot(c, Recover(rows, atMs), RecoverRecords(saved, atMs), floor)
                   else Boot(c, rows, saved, floor))
  {
    if recovered {
      RecoverMirrors(rows, saved, atMs);
      BootInv(c, Recover(rows, atMs), RecoverRecords(saved, atMs), floor);
    } else {
      BootInv(c, rows, saved, floor);
    }
  }

  lemma RestartKeepsInv(c: EngineConfig, s: State, floor: nat, recovered: bool, atMs: nat)
    requires Inv(c, s) && Can(c, s, Restart(floor, recovered, atMs))
    ensures Inv(c, Next(c, s, Restart(floor, recovered, atMs)))
  {
    RowsBeforeRestart(c, s, floor);
    BootKeepsInv(c, s.rows, s.past.saved, floor, recovered, atMs);
  }

  lemma EventKeepsInv(c: EngineConfig, s: State, ev: Event)
    requires Inv(c, s) && Can(c, s, ev)
    ensures Inv(c, Next(c, s, ev))
  {
    match ev
    case Submit(request, source) => ArrivalKeepsInv(c, s, Checker(request, source, RequestId(request), Arrived));
    case View => ArrivalKeepsInv(c, s, Viewer(WaitView));
    case Step(t, e) => StepKeepsInv(c, s, t, e);
    case Drop(t) => DropKeepsInv(c, s, t);
    case Restart(floor, recovered, atMs) => RestartKeepsInv(c, s, floor, recovered, atMs);
  }

  lemma {:induction false} RunInv(c: EngineConfig, run: seq<State>, events: seq<Event>, i: nat)
    requires IsRun(c, run, events) && i < |run|
    ensures Inv(c, run[i])
  {
    if i == 0 {
      BootInv(c, map[], map[], 0);
    } else {
      RunInv(c, run, events, i - 1);
      EventKeepsInv(c, run[i - 1], events[i - 1]);
      assert run[i - 1 + 1] == Next(c, run[i - 1], events[i - 1]);
    }
  }
}
