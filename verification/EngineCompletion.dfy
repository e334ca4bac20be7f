/** What is left when the work is done, and what the drop of a handler leaves behind for good. */
module EngineCompletion {
  import opened Wrappers
  import opened Types
  import opened JobTable
  import opened Counting
  import opened Engine
  import opened EngineInvariants
  import opened EngineCounts
  import opened EngineSafety
  import opened EngineProgress
  import opened RequestMap

  predicate AllDone(tasks: seq<Task>) {
    forall t :: 0 <= t < |tasks| ==> IsDone(tasks[t])
  }

  /** While some task can move, the work is not done; when none can, every task is. */
  lemma QuietMeansDone(c: EngineConfig, s: State)
    requires Reachable(c, s) && c.maxConcurrent > 0
    ensures (forall t, e :: !CanStep(c, s, t, e)) <==> AllDone(s.tasks)
  {
    if t: nat :| t < |s.tasks| && !IsDone(s.tasks[t]) {
      var mover := NoDeadlock(c, s, t);
    }
  }

  /** The jobs of the tasks that satisfy `p`. */
  function OwnedIds(tasks: seq<Task>, p: Task -> bool): set<JobId> {
    set t | 0 <= t < |tasks| && p(tasks[t]) && Owned(tasks[t]).Some? :: Owned(tasks[t]).value
  }

  predicate SeparateOwners(tasks: seq<Task>) {
    forall t, u :: (0 <= t < |tasks| && 0 <= u < |tasks| && Owned(tasks[t]).Some? && Owned(tasks[t]) == Owned(tasks[u]))
      ==> t == u
  }

  /** The jobs of one task more. */
  lemma OwnedIdsOfFirst(tasks: seq<Task>, p: Task -> bool)
    requires tasks != []
    ensures OwnedIds(tasks, p) == OwnedIds(tasks[1..], p) +
      if p(tasks[0]) && Owned(tasks[0]).Some? then {Owned(tasks[0]).value} else {}
  {
    var rest := tasks[1..];
    forall id | id in OwnedIds(rest, p) ensures id in OwnedIds(tasks, p) {
      var t: nat :| t < |rest| && p(rest[t]) && Owned(rest[t]) == Some(id);
      assert tasks[t + 1] == rest[t];
    }
    forall t | 0 < t < |tasks| ensures tasks[t] == rest[t - 1] {
    }
  }

  lemma RestOwnsSeparately(tasks: seq<Task>, p: Task -> bool)
    requires SeparateOwners(tasks) && tasks != []
    ensures SeparateOwners(tasks[1..])
    ensures Owned(tasks[0]).Some? ==> Owned(tasks[0]).value !in OwnedIds(tasks[1..], p)
  {
    var rest := tasks[1..];
    forall t, u | 0 <= t < |rest| && 0 <= u < |rest| && Owned(rest[t]).Some? && Owned(rest[t]) == Owned(rest[u])
      ensures t == u
    {
      assert rest[t] == tasks[t + 1] && rest[u] == tasks[u + 1];
    }
    forall t | 0 <= t < |rest| && Owned(rest[t]).Some? ensures Owned(rest[t]) != Owned(tasks[0]) {
      assert rest[t] == tasks[t + 1];
    }
  }

  /** Tasks that own different jobs are as many as the jobs they own. */
  lemma {:induction false} OwnedIdsSize(tasks: seq<Task>, p: Task -> bool)
    requires SeparateOwners(tasks) && forall t :: 0 <= t < |tasks| && p(tasks[t]) ==> Owned(tasks[t]).Some?
    ensures |OwnedIds(tasks, p)| == Count(tasks, p)
  {
    if tasks != [] {
      RestOwnsSeparately(tasks, p);
      OwnedIdsOfFirst(tasks, p);
      forall t | 0 <= t < |tasks[1..]| ensures tasks[1..][t] == tasks[t + 1] {
      }
      OwnedIdsSize(tasks[1..], p);
    }
  }

  lemma TasksOwnSeparately(c: EngineConfig, s: State)
    requires Reachable(c, s)
    ensures SeparateOwners(s.tasks)
  {
    ReachableInv(c, s);
  }

  /** The record of a stranded job is queued, as it was submitted. */
  lemma StrandedJob(c: EngineConfig, s: State, t: nat)
    requires Reachable(c, s) && t < |s.tasks| && IsStranded(s.tasks[t])
    ensures s.tasks[t].job.id in s.jobs && s.jobs[s.tasks[t].job.id] == s.tasks[t].job && s.tasks[t].job.status.Queued?
  {
    var first := TaskJob(c, s, t);
  }

  /** Every stranded job takes one of the places that `max_queued` bounds. */
  lemma StrandedJobsHoldPlaces(c: EngineConfig, s: State)
    requires Reachable(c, s)
    ensures OwnedIds(s.tasks, IsStranded) <= QueuedIds(s.jobs)
    ensures Count(s.tasks, IsStranded) <= |QueuedIds(s.jobs)|
  {
    forall id | id in OwnedIds(s.tasks, IsStranded) ensures id in QueuedIds(s.jobs) {
      var t: nat :| t < |s.tasks| && IsStranded(s.tasks[t]) && Owned(s.tasks[t]) == Some(id);
      StrandedJob(c, s, t);
    }
    TasksOwnSeparately(c, s);
    OwnedIdsSize(s.tasks, IsStranded);
    SubsetSize(OwnedIds(s.tasks, IsStranded), QueuedIds(s.jobs));
  }

  /** When every task is done, the live jobs are exactly the stranded ones, and all is accounted for. */
  lemma DoneIsSettled(c: EngineConfig, s: State)
    requires Reachable(c, s) && AllDone(s.tasks)
    ensures ActiveIds(s.jobs) == OwnedIds(s.tasks, IsStranded) && |ActiveIds(s.jobs)| == Count(s.tasks, IsStranded)
    ensures s.ctr.submitted == Count(s.tasks, IsOrphan) + s.ctr.succeeded + s.ctr.failed && s.ctr.running == 0
    ensures s.locks.free == c.maxConcurrent && s.ctr.locksAcquired == s.past.released
    ensures s.ids == ClaimedIds(s.jobs)
  {
    LockView(c, s);
    RequestIdsMatchRetainedJobs(c, s);
    SubmissionsAreConserved(c, s);
    ResourcesAreConserved(c, s);
    CountNone(s.tasks, InFlight);
    CountNone(s.tasks, HoldsPermit);
    StrandedJobsHoldPlaces(c, s);
    forall id | id in ActiveIds(s.jobs) ensures id in OwnedIds(s.tasks, IsStranded) {
      DoneJobIsTerminalOrStranded(c, s, id);
    }
    TasksOwnSeparately(c, s);
    OwnedIdsSize(s.tasks, IsStranded);
  }

  lemma DoneJobIsTerminalOrStranded(c: EngineConfig, s: State, id: JobId)
    requires Reachable(c, s) && AllDone(s.tasks) && id in s.jobs
    ensures IsTerminal(s.jobs[id].status) || id in OwnedIds(s.tasks, IsStranded)
  {
    var owner, first := JobOwner(c, s, id);
    DoneOwner(s.jobs, id, s.tasks[owner], first);
  }

  lemma DoneOwner(jobs: Table, id: JobId, k: Task, first: JobRecord)
    requires OwnJob(jobs, id, k, first) && IsDone(k) && id in jobs
    ensures IsTerminal(jobs[id].status) || IsStranded(k)
  {
  }

  /** How many drops since the last restart left a task of the kind `p` behind. */
  ghost function Drops(c: EngineConfig, run: seq<State>, events: seq<Event>, i: nat, p: Task -> bool): nat
    requires IsRun(c, run, events) && i <= |events|
  {
    if i == 0 || events[i - 1].Restart? then 0
    else
      var left := events[i - 1].Drop? && p(DropMove(run[i - 1].tasks[events[i - 1].t]).next);
      Drops(c, run, events, i - 1, p) + if left then 1 else 0
  }

  lemma MoveMakesNoOrphan(c: EngineConfig, s: State, k: Task, e: Choice)
    requires !IsDone(k)
    ensures var m := NextMove(c, s, k, e); !m.next.Orphan? && (m.change.Hatch? ==> !m.change.runner.Orphan?)
  {
  }

  /** Orphans are exactly what drops leave behind, and they stay until the process ends. */
  lemma {:induction false} OrphansAreDrops(c: EngineConfig, run: seq<State>, events: seq<Event>, i: nat,
                                           p: Task -> bool)
    requires IsRun(c, run, events) && i <= |events| && forall k :: p(k) ==> k.Orphan?
    ensures Count(run[i].tasks, p) == Drops(c, run, events, i, p)
  {
    if i > 0 {
      OrphansAreDrops(c, run, events, i - 1, p);
      assert run[i - 1 + 1] == Next(c, run[i - 1], events[i - 1]);
      EventKeepsOrphans(c, run[i - 1], events[i - 1], p);
    }
  }

  lemma EventKeepsOrphans(c: EngineConfig, s: State, ev: Event, p: Task -> bool)
    requires Can(c, s, ev) && forall k :: p(k) ==> k.Orphan?
    ensures Count(Next(c, s, ev).tasks, p) ==
      if ev.Restart? then 0
      else Count(s.tasks, p) + if ev.Drop? && p(DropMove(s.tasks[ev.t]).next) then 1 else 0
  {
    match ev
    case Submit(request, source) => CountAppend(s.tasks, Checker(request, source, RequestId(request), Arrived), p);
    case View => CountAppend(s.tasks, Viewer(WaitView), p);
    case Step(t, e) =>
      MoveMakesNoOrphan(c, s, s.tasks[t], e);
      CountAfter(s.tasks, t, NextMove(c, s, s.tasks[t], e), p);
    case Drop(t) => CountAfter(s.tasks, t, DropMove(s.tasks[t]), p);
    case Restart(_, _, _) =>
  }

  /**
   * When nothing can move, every task is done and everything is accounted for: the live jobs are as
   * many as handlers were dropped between insertion and spawning since the process started. So every
   * retained job is terminal if and only if none was.
   */
  lemma QuiescenceIsCompletion(c: EngineConfig, run: seq<State>, events: seq<Event>)
    requires IsRun(c, run, events) && c.maxConcurrent > 0
    requires forall t, e :: !CanStep(c, run[|events|], t, e)
    ensures var s, stranded := run[|events|], Drops(c, run, events, |events|, IsStranded);
      && AllDone(s.tasks) && |ActiveIds(s.jobs)| == stranded
      && ((forall id :: id in s.jobs ==> IsTerminal(s.jobs[id].status)) <==> stranded == 0)
      && s.ctr.submitted == Drops(c, run, events, |events|, IsOrphan) + s.ctr.succeeded + s.ctr.failed
      && s.ctr.running == 0 && s.locks.free == c.maxConcurrent && s.ctr.locksAcquired == s.past.released
      && s.ids == ClaimedIds(s.jobs)
  {
    var s := run[|events|];
    PrefixIsReachable(c, run, events, |events|);
    QuietMeansDone(c, s);
    DoneIsSettled(c, s);
    OrphansAreDrops(c, run, events, |events|, IsStranded);
    OrphansAreDrops(c, run, events, |events|, IsOrphan);
    NoActiveMeansTerminal(s.jobs);
  }

  lemma NoActiveMeansTerminal(jobs: Table)
    ensures |ActiveIds(jobs)| == 0 <==> forall id :: id in jobs ==> IsTerminal(jobs[id].status)
  {
    if |ActiveIds(jobs)| == 0 {
      forall id | id in jobs ensures IsTerminal(jobs[id].status) {
        assert id !in ActiveIds(jobs);
      }
    } else {
      var id :| id in ActiveIds(jobs);
    }
  }

  /** No move leaves a job stranded or takes one back. */
  lemma StepKeepsStranded(c: EngineConfig, s: State, t: nat, e: Choice)
    requires CanStep(c, s, t, e)
    ensures OwnedIds(Next(c, s, Step(t, e)).tasks, IsStranded) == OwnedIds(s.tasks, IsStranded)
  {
    var m := NextMove(c, s, s.tasks[t], e);
    MoveMakesNoOrphan(c, s, s.tasks[t], e);
    SameStranded(s.tasks, t, m);
    assert Next(c, s, Step(t, e)).tasks == NewTasks(s.tasks, t, m);
  }

  lemma SameStranded(tasks: seq<Task>, t: nat, m: Move)
    requires t < |tasks| && !IsStranded(tasks[t]) && !IsStranded(m.next)
    requires m.change.Hatch? ==> !IsStranded(m.change.runner)
    ensures OwnedIds(NewTasks(tasks, t, m), IsStranded) == OwnedIds(tasks, IsStranded)
  {
    var tasks' := NewTasks(tasks, t, m);
    forall u | 0 <= u < |tasks| && u != t ensures tasks'[u] == tasks[u] {
    }
    assert forall u :: 0 <= u < |tasks'| && IsStranded(tasks'[u]) ==> u < |tasks| && tasks'[u] == tasks[u];
  }

  /**
   * From every reachable state the work can be brought to an end without any new arrival, leaving as
   * live jobs exactly those that were stranded already.
   */
  lemma {:induction false} WorkCanBeFinished(c: EngineConfig, s: State) returns (last: State)
    requires Reachable(c, s) && c.maxConcurrent > 0
    ensures Reachable(c, last) && AllDone(last.tasks) && last.ctr.submitted >= s.ctr.submitted
    ensures ActiveIds(last.jobs) == OwnedIds(s.tasks, IsStranded)
    decreases Remaining(s.tasks)
  {
    if t: nat :| t < |s.tasks| && !IsDone(s.tasks[t]) {
      var mover := NoDeadlock(c, s, t);
      var e :| CanStep(c, s, mover, e);
      StepLowersRemaining(c, s, mover, e);
      NextReachable(c, s, Step(mover, e));
      StepKeepsStranded(c, s, mover, e);
      last := WorkCanBeFinished(c, Next(c, s, Step(mover, e)));
    } else {
      DoneIsSettled(c, s);
      last := s;
    }
  }

  lemma {:induction false} KeptThrough<T>(xs: seq<T>, i: nat, j: nat, p: T -> bool)
    requires i <= j < |xs| && p(xs[i]) && forall n :: i <= n < j && p(xs[n]) ==> p(xs[n + 1])
    ensures p(xs[j])
  {
    if i < j {
      KeptThrough(xs, i, j - 1, p);
      assert p(xs[j - 1 + 1]);
    }
  }

  lemma OrphanStays(c: EngineConfig, run: seq<State>, events: seq<Event>, i: nat, j: nat, t: nat)
    requires IsRun(c, run, events) && i <= j < |run|
    requires forall n :: i <= n < j ==> !events[n].Restart?
    requires t < |run[i].tasks| && run[i].tasks[t].Orphan?
    ensures t < |run[j].tasks| && run[j].tasks[t] == run[i].tasks[t]
  {
    var k := run[i].tasks[t];
    var p := (s: State) => t < |s.tasks| && s.tasks[t] == k;
    forall n | i <= n < j && p(run[n]) ensures p(run[n + 1]) {
      EventLeavesOrphan(c, run[n], events[n], t);
    }
    KeptThrough(run, i, j, p);
  }

  /** A stranded job stays as it is, and in its place, until the process ends. */
  lemma StrandedForGood(c: EngineConfig, run: seq<State>, events: seq<Event>, i: nat, j: nat, t: nat)
    requires IsRun(c, run, events) && i <= j < |run|
    requires forall n :: i <= n < j ==> !events[n].Restart?
    requires t < |run[i].tasks| && IsStranded(run[i].tasks[t])
    ensures var job := run[i].tasks[t].job;
      && t < |run[j].tasks| && run[j].tasks[t] == run[i].tasks[t]
      && job.id in run[j].jobs && run[j].jobs[job.id] == job && job.status.Queued?
  {
    OrphanStays(c, run, events, i, j, t);
    PrefixIsReachable(c, run, events, j);
    StrandedJob(c, run[j], t);
  }

  lemma EventLeavesOrphan(c: EngineConfig, s: State, ev: Event, t: nat)
    requires Can(c, s, ev) && !ev.Restart? && t < |s.tasks| && s.tasks[t].Orphan?
    ensures t < |Next(c, s, ev).tasks| && Next(c, s, ev).tasks[t] == s.tasks[t]
  {
  }

  lemma AcceptingMove(c: EngineConfig, s: State, k: Task, e: Choice)
    requires !IsDone(k) && NextMove(c, s, k, e).next.Answered?
    ensures var answer := NextMove(c, s, k, e).next.answer; answer.Accepted? ==> Owned(k) == Some(answer.rec.id)
  {
  }

  /**
   * While a job is stranded, every admissible submission under its request id is answered with it when
   * the content is the same, and refused as a conflict otherwise.
   */
  lemma StrandedIdStaysBound(c: EngineConfig, s: State, o: nat, t: nat, e: Choice, rid: string)
    requires Reachable(c, s) && o < |s.tasks| && IsStranded(s.tasks[o])
    requires CanStep(c, s, t, e) && NextMove(c, s, s.tasks[t], e).next.Answered?
    requires RequestId(s.tasks[o].job.request) == Some(rid)
    requires RequestId(NextMove(c, s, s.tasks[t], e).next.request) == Some(rid)
    ensures var job, done := s.tasks[o].job, NextMove(c, s, s.tasks[t], e).next;
      || done.answer.Invalid?
      || (done.request == job.request && done.answer.Reattached? && done.answer.rec.id == job.id)
      || (done.request != job.request && done.answer.Conflict?)
  {
    var job := s.tasks[o].job;
    StrandedJob(c, s, o);
    TasksOwnSeparately(c, s);
    BindingsExact(s.jobs, Binding(rid, job.id, job.request));
    BoundIdAnswers(c, s, t, e, Binding(rid, job.id, job.request));
    AcceptingMove(c, s, s.tasks[t], e);
  }
}
