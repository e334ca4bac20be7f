/** What holds in every reachable state of the build-job engine. */
module EngineSafety {
  import opened Wrappers
  import opened Types
  import opened JobTable
  import opened Counting
  import opened Holding
  import opened Engine
  import opened EngineInvariants
  import opened EngineJobs
  import opened EngineInduction

  ghost predicate Reachable(c: EngineConfig, s: State) {
    exists run, events :: IsRun(c, run, events) && run[|run| - 1] == s
  }

  lemma ReachableInv(c: EngineConfig, s: State)
    requires Reachable(c, s)
    ensures Inv(c, s)
  {
    var run, events :| IsRun(c, run, events) && run[|run| - 1] == s;
    RunInv(c, run, events, |run| - 1);
  }

  lemma NextReachable(c: EngineConfig, s: State, ev: Event)
    requires Reachable(c, s) && Can(c, s, ev)
    ensures Reachable(c, Next(c, s, ev))
  {
    var run, events :| IsRun(c, run, events) && run[|run| - 1] == s;
    var run', events' := run + [Next(c, s, ev)], events + [ev];
    forall i | 0 <= i < |events'|
      ensures Can(c, run'[i], events'[i]) && run'[i + 1] == Next(c, run'[i], events'[i])
    {
      if i < |events| {
        assert run'[i] == run[i] && run'[i + 1] == run[i + 1] && events'[i] == events[i];
      }
    }
    assert IsRun(c, run', events');
  }

  lemma PrefixIsReachable(c: EngineConfig, run: seq<State>, events: seq<Event>, i: nat)
    requires IsRun(c, run, events) && i < |run|
    ensures Reachable(c, run[i])
  {
    assert IsRun(c, run[..i + 1], events[..i]);
    assert run[..i + 1][|run[..i + 1]| - 1] == run[i];
  }

  // What the theorems need of the invariant, one part at a time.

  lemma JobsView(c: EngineConfig, s: State)
    requires Reachable(c, s)
    ensures OwnersOk(s.tasks, s.past.book) && JobsOk(s.jobs, s.tasks, s.past.book)
  {
    ReachableInv(c, s);
  }

  lemma IdsView(c: EngineConfig, s: State)
    requires Reachable(c, s)
    ensures OwnerAgrees(s.tasks, s.locks.idOwner, HoldsIds)
  {
    ReachableInv(c, s);
  }

  /** No two retained jobs share a request id; with the lock free the id set is exactly theirs. */
  lemma RequestIdsMatchRetainedJobs(c: EngineConfig, s: State)
    requires Reachable(c, s)
    ensures UniqueClaims(s.jobs)
    ensures s.locks.idOwner.None? ==> s.ids == ClaimedIds(s.jobs)
  {
    ReachableInv(c, s);
  }

  /** The branch that drops a claim without a retained job is dead. */
  lemma ClaimAlwaysHasItsJob(c: EngineConfig, s: State, t: nat, e: Choice)
    requires Reachable(c, s) && CanStep(c, s, t, e) && s.tasks[t].Checker? && s.tasks[t].cp.Lookup?
    ensures e.found.Some?
  {
    ReachableInv(c, s);
    assert TaskFact(c, s.tasks[t]);
    assert HoldsIds(s.tasks[t]) <==> s.locks.idOwner == Some(t);
    ClaimedIdsExact(s.jobs, s.tasks[t].rid.value);
  }

  /** The task still has to change or read the record of its job. */
  predicate NeedsRecord(k: Task) {
    match k
    case Adder(_, _, ap) => !ap.WaitInsert? && !ap.Insert?
    case Orphan(_, _) => IsStranded(k)
    case Starter(_, _) => true
    case Worker(_, _, _) => true
    case Winder(_, _, _, _) => true
    case Closer(_, _, ep) => ep.WaitEnd? || ep.SetEnd?
    case _ => false
  }

  /** A job whose runner has not finished with it is in the table and not terminal. */
  lemma LiveJobIsRetained(c: EngineConfig, s: State, t: nat)
    requires Reachable(c, s) && t < |s.tasks| && NeedsRecord(s.tasks[t])
    ensures Owned(s.tasks[t]).Some? && Owned(s.tasks[t]).value in s.jobs
    ensures !IsTerminal(s.jobs[Owned(s.tasks[t]).value].status)
  {
    ReachableInv(c, s);
    var first := OwnedJob(c, s, t);
    LiveRecord(s.jobs, Owned(s.tasks[t]).value, s.tasks[t], first);
  }

  lemma OwnedJob(c: EngineConfig, s: State, t: nat) returns (first: JobRecord)
    requires OwnersOk(s.tasks, s.past.book) && JobsOk(s.jobs, s.tasks, s.past.book)
    requires t < |s.tasks| && Owned(s.tasks[t]).Some?
    ensures OwnJob(s.jobs, Owned(s.tasks[t]).value, s.tasks[t], first)
  {
    first := s.past.book[Owned(s.tasks[t]).value].first;
  }

  lemma LiveRecord(jobs: Table, id: JobId, k: Task, first: JobRecord)
    requires NeedsRecord(k) && OwnJob(jobs, id, k, first)
    ensures id in jobs && !IsTerminal(jobs[id].status)
  {
  }

  /** So every `update_job` finds its job, and no job disappears before execution. */
  lemma JobNeverDisappears(c: EngineConfig, s: State, t: nat, e: Choice)
    requires Reachable(c, s) && CanStep(c, s, t, e)
    ensures var m := NextMove(c, s, s.tasks[t], e);
      match s.tasks[t]
      case Starter(_, ReadKey) => m.next.Starter? && m.next.sp.CallLock? && m.next.sp.key.Some?
      case Worker(_, _, SetRun) => m.change.Store?
      case Worker(_, _, GetJob) => m.next.Worker? && m.next.wp.Execute?
      case Closer(_, _, SetEnd) => m.change.Store?
      case _ => true
  {
    if NeedsRecord(s.tasks[t]) {
      LiveJobIsRetained(c, s, t);
    }
  }

  /** Every retained job has a task that works for it, and its record is what that task's progress says. */
  lemma JobOwner(c: EngineConfig, s: State, id: JobId) returns (owner: nat, first: JobRecord)
    requires Reachable(c, s) && id in s.jobs
    ensures owner < |s.tasks| && OwnJob(s.jobs, id, s.tasks[owner], first)
  {
    ReachableInv(c, s);
    owner, first := s.past.book[id].owner, s.past.book[id].first;
  }

  /** Exactly the lifecycle fields a status demands. */
  predicate FieldsFitStatus(rec: JobRecord) {
    && (rec.lockKey.Some? <==> rec.fencingToken.Some?)
    && match rec.status
       case Queued => rec.startedAtMs.None? && rec.finishedAtMs.None? && rec.error.None? && rec.lockKey.None?
       case Running => rec.startedAtMs.Some? && rec.finishedAtMs.None? && rec.error.None?
       case Succeeded => rec.startedAtMs.Some? && rec.finishedAtMs.Some? && rec.error.None?
       case Failed => rec.finishedAtMs.Some? && rec.error.Some? && (rec.startedAtMs.None? ==> rec.lockKey.None?)
  }

  lemma RecordFieldsFitStatus(c: EngineConfig, s: State, id: JobId)
    requires Reachable(c, s) && id in s.jobs
    ensures FieldsFitStatus(s.jobs[id])
  {
    var owner, first := JobOwner(c, s, id);
    OwnedFieldsFit(s.jobs, id, s.tasks[owner], first);
  }

  lemma OwnedFieldsFit(jobs: Table, id: JobId, k: Task, first: JobRecord)
    requires OwnJob(jobs, id, k, first) && id in jobs
    ensures FieldsFitStatus(jobs[id])
  {
  }

  predicate MovesForward(before: BuildStatus, after: BuildStatus) {
    || before == after
    || (before.Queued? && (after.Running? || after.Failed?))
    || (before.Running? && (after.Succeeded? || after.Failed?))
  }

  /** Between two looks at the table a job keeps its submission and its status only moves forward. */
  lemma StatusMovesForward(c: EngineConfig, s: State, ev: Event, id: JobId)
    requires Reachable(c, s) && Can(c, s, ev) && id in s.jobs && id in Next(c, s, ev).jobs
    ensures SameSubmission(s.jobs[id], Next(c, s, ev).jobs[id])
    ensures MovesForward(s.jobs[id].status, Next(c, s, ev).jobs[id].status)
    ensures IsTerminal(s.jobs[id].status) ==> Next(c, s, ev).jobs[id] == s.jobs[id]
  {
    JobsView(c, s);
    if ev.Step? {
      StepMovesForward(c, s, ev.t, ev.choice, id);
    }
  }

  lemma StepMovesForward(c: EngineConfig, s: State, t: nat, e: Choice, id: JobId)
    requires OwnersOk(s.tasks, s.past.book) && JobsOk(s.jobs, s.tasks, s.past.book)
    requires CanStep(c, s, t, e) && id in s.jobs
    requires id in NewJobs(s.jobs, NextMove(c, s, s.tasks[t], e).change)
    ensures var after := NewJobs(s.jobs, NextMove(c, s, s.tasks[t], e).change)[id];
      && SameSubmission(s.jobs[id], after) && MovesForward(s.jobs[id].status, after.status)
      && (IsTerminal(s.jobs[id].status) ==> after == s.jobs[id])
  {
    var k := s.tasks[t];
    MoveRetains(c, s, k, e);
    if Owned(k).Some? {
      var first := OwnedJob(c, s, t);
      OwnMoveForward(c, s, k, e, Owned(k).value, first);
    } else {
      UnownedStoresNothing(c, s, k, e);
    }
  }

  lemma UnownedStoresNothing(c: EngineConfig, s: State, k: Task, e: Choice)
    requires Owned(k).None?
    ensures !NextMove(c, s, k, e).change.Store?
  {
  }

  lemma OwnMoveForward(c: EngineConfig, s: State, k: Task, e: Choice, id: JobId, first: JobRecord)
    requires OwnJob(s.jobs, id, k, first)
    ensures var m := NextMove(c, s, k, e);
      m.change.Store? ==> m.change.rec.id == id && (id in s.jobs ==>
        && SameSubmission(s.jobs[id], m.change.rec) && MovesForward(s.jobs[id].status, m.change.rec.status)
        && !IsTerminal(s.jobs[id].status))
  {
  }

  /** Every submission is accounted for, those of dropped handlers included, and so is every failure. */
  lemma SubmissionsAreConserved(c: EngineConfig, s: State)
    requires Reachable(c, s)
    ensures s.ctr.submitted == Count(s.tasks, InFlight) + Count(s.tasks, IsOrphan) + s.ctr.succeeded + s.ctr.failed
    ensures s.ctr.failed + s.past.tolerated + Count(s.tasks, AtLockFailed)
         == s.ctr.commandFailures + s.ctr.lockFailures + Count(s.tasks, AtCountCommand)
    ensures c.coordinationRequired ==> s.past.tolerated == 0
  {
    ReachableInv(c, s);
    CountSplit(s.tasks, Unsettled, InFlight, IsOrphan);
  }

  /** Permits, the `running` gauge and distributed locks are conserved; the gauge fits the permits. */
  lemma ResourcesAreConserved(c: EngineConfig, s: State)
    requires Reachable(c, s)
    ensures s.locks.free + Count(s.tasks, HoldsPermit) == c.maxConcurrent
    ensures 0 <= s.ctr.running == Count(s.tasks, IsRunning) <= Count(s.tasks, HoldsPermit) <= c.maxConcurrent
    ensures s.ctr.locksAcquired == s.past.released + Count(s.tasks, HoldsGrant)
    ensures Count(s.tasks, HoldsGrant) <= Count(s.tasks, HoldsPermit)
  {
    ReachableInv(c, s);
    CountMonotone(s.tasks, IsRunning, HoldsPermit);
    CountMonotone(s.tasks, HoldsGrant, HoldsPermit);
  }

  /** Ids differ in their counter, whatever the clock did; every retained job was admitted. */
  lemma JobNumbersAreFresh(c: EngineConfig, s: State)
    requires Reachable(c, s)
    ensures forall a, b :: a in s.jobs && b in s.jobs && a.counter == b.counter ==> a == b
    ensures forall id :: id in s.jobs ==> 1 <= id.counter <= s.ctr.submitted && s.jobs[id].id == id
    ensures forall id :: id in s.jobs ==> c.admits(s.jobs[id].request)
  {
    ReachableInv(c, s);
    forall id | id in s.jobs
      ensures 1 <= id.counter <= s.ctr.submitted && s.jobs[id].id == id && c.admits(s.jobs[id].request)
    {
      assert OwnJob(s.jobs, id, s.tasks[s.past.book[id].owner], s.past.book[id].first);
      assert EntryFact(c, id, s.past.book[id].first, s.ctr.submitted, s.past.floor);
    }
  }
}
