/** How long the queue and how large the table can get, over whole runs. */
module EngineLimits {
  import opened Wrappers
  import opened JobTable
  import opened Counting
  import opened Holding
  import opened Engine
  import opened EngineSafety
  import opened EngineCounts
  import opened EngineBounds

  /** The request-id lock after a step is where its program counters say. */
  lemma StepView(c: EngineConfig, s: State, t: nat, e: Choice)
    requires Reachable(c, s) && CanStep(c, s, t, e)
    ensures BoundRule(s.jobs, c.maxJobs, IsFull(c, s), s.tasks[t], NextMove(c, s, s.tasks[t], e))
    ensures HatchRule(NextMove(c, s, s.tasks[t], e))
    ensures var s' := Next(c, s, Step(t, e)); OwnerAgrees(s'.tasks, s'.locks.idOwner, HoldsIds)
  {
    JobsView(c, s);
    StepBounds(c, s, t, e);
    MoveHatches(c, s, s.tasks[t], e);
    NextReachable(c, s, Step(t, e));
    IdsView(c, Next(c, s, Step(t, e)));
  }

  function QueueSize(s: State): nat {
    |QueuedIds(s.jobs)| + Count(s.tasks, InWindow)
  }

  lemma EventKeepsQueueBound(c: EngineConfig, s: State, ev: Event)
    requires Reachable(c, s) && Can(c, s, ev)
    ensures var s' := Next(c, s, ev);
      QueueSize(s') <= QueueSize(s) || QueueSize(s') <= c.maxQueued + Count(s'.tasks, IdlessInWindow)
  {
    match ev
    case Submit(request, source) =>
      CountAppend(s.tasks, Checker(request, source, RequestId(request), Arrived), InWindow);
    case View => CountAppend(s.tasks, Viewer(WaitView), InWindow);
    case Step(t, e) =>
      StepView(c, s, t, e);
      QueueAfterMove(s.jobs, c.maxJobs, s.tasks, t, NextMove(c, s, s.tasks[t], e), c.maxQueued,
                     Next(c, s, ev).locks.idOwner);
    case Drop(t) => CountAfter(s.tasks, t, DropMove(s.tasks[t]), InWindow);
    case Restart(_, _, _) =>
  }

  /**
   * Queued jobs and submissions between admission check and insertion never exceed the limit by more
   * than the largest number of submissions without a request id that were ever there at once.
   */
  lemma {:induction false} QueueStaysBounded(c: EngineConfig, run: seq<State>, events: seq<Event>, i: nat, racing: nat)
    requires IsRun(c, run, events) && i < |run|
    requires forall j :: 0 <= j <= i ==> Count(run[j].tasks, IdlessInWindow) <= racing
    ensures |QueuedIds(run[i].jobs)| + Count(run[i].tasks, InWindow) <= c.maxQueued + racing
  {
    if i > 0 {
      QueueStaysBounded(c, run, events, i - 1, racing);
      PrefixIsReachable(c, run, events, i - 1);
      assert run[i - 1 + 1] == Next(c, run[i - 1], events[i - 1]);
      EventKeepsQueueBound(c, run[i - 1], events[i - 1]);
    }
  }

  predicate IsInsertion(s: State, ev: Event) {
    ev.Step? && ev.t < |s.tasks| && Inserts(s.tasks[ev.t])
  }

  predicate IsPruning(s: State, ev: Event) {
    ev.Step? && ev.t < |s.tasks| && Prunes(s.tasks[ev.t])
  }

  /** A handler is dropped after its insertion and before its prune. */
  predicate IsStranding(s: State, ev: Event) {
    ev.Drop? && ev.t < |s.tasks| && AwaitsPrune(s.tasks[ev.t])
  }

  /** How many events of a kind there were since the last prune, or the last restart. */
  function SincePrune(run: seq<State>, events: seq<Event>, i: nat, kind: (State, Event) -> bool): nat
    requires i <= |events| < |run|
  {
    if i == 0 || events[i - 1].Restart? || IsPruning(run[i - 1], events[i - 1]) then 0
    else SincePrune(run, events, i - 1, kind) + One(kind(run[i - 1], events[i - 1]))
  }

  lemma EventKeepsTableBound(c: EngineConfig, s: State, ev: Event)
    requires Reachable(c, s) && Can(c, s, ev)
    ensures var size := |Next(c, s, ev).jobs|;
      if ev.Restart? then size == 0
      else if IsPruning(s, ev) then size <= Max(c.maxJobs, |ActiveIds(s.jobs)|)
      else size == |s.jobs| + One(IsInsertion(s, ev))
  {
    if ev.Step? {
      StepView(c, s, ev.t, ev.choice);
      TableAfterMove(s.jobs, c.maxJobs, IsFull(c, s), s.tasks[ev.t], NextMove(c, s, s.tasks[ev.t], ev.choice));
    }
  }

  lemma {:induction false} TableGrowsByInsertions(c: EngineConfig, run: seq<State>, events: seq<Event>, i: nat,
                                                  active: nat)
    requires IsRun(c, run, events) && i < |run|
    requires forall j :: 0 <= j <= i ==> |ActiveIds(run[j].jobs)| <= active
    ensures |run[i].jobs| <= Max(c.maxJobs, active) + SincePrune(run, events, i, IsInsertion)
  {
    if i > 0 {
      TableGrowsByInsertions(c, run, events, i - 1, active);
      PrefixIsReachable(c, run, events, i - 1);
      assert run[i - 1 + 1] == Next(c, run[i - 1], events[i - 1]);
      EventKeepsTableBound(c, run[i - 1], events[i - 1]);
    }
  }

  lemma EventKeepsAwaiting(c: EngineConfig, s: State, ev: Event)
    requires Can(c, s, ev) && !ev.Restart? && !IsPruning(s, ev)
    ensures Count(Next(c, s, ev).tasks, AwaitsPrune) + One(IsStranding(s, ev))
         == Count(s.tasks, AwaitsPrune) + One(IsInsertion(s, ev))
  {
    match ev
    case Submit(request, source) =>
      CountAppend(s.tasks, Checker(request, source, RequestId(request), Arrived), AwaitsPrune);
    case View => CountAppend(s.tasks, Viewer(WaitView), AwaitsPrune);
    case Step(t, e) =>
      AwaitsAfterMove(c, s, s.tasks[t], e);
      MoveHatches(c, s, s.tasks[t], e);
      CountAfter(s.tasks, t, NextMove(c, s, s.tasks[t], e), AwaitsPrune);
    case Drop(t) => CountAfter(s.tasks, t, DropMove(s.tasks[t]), AwaitsPrune);
  }

  /** Whatever was inserted since the last prune has its prune ahead, or was dropped since then. */
  lemma {:induction false} InsertedAwaitsPrune(c: EngineConfig, run: seq<State>, events: seq<Event>, i: nat)
    requires IsRun(c, run, events) && i < |run|
    ensures SincePrune(run, events, i, IsInsertion)
         <= Count(run[i].tasks, AwaitsPrune) + SincePrune(run, events, i, IsStranding)
  {
    if i > 0 {
      InsertedAwaitsPrune(c, run, events, i - 1);
      assert run[i - 1 + 1] == Next(c, run[i - 1], events[i - 1]);
      if !events[i - 1].Restart? && !IsPruning(run[i - 1], events[i - 1]) {
        EventKeepsAwaiting(c, run[i - 1], events[i - 1]);
      }
    }
  }

  /**
   * The table outgrows its limit and its live jobs only by what was inserted since the last prune, and
   * all of that has its prune ahead or lost it since then to the drop of its handler.
   */
  lemma TableStaysBounded(c: EngineConfig, run: seq<State>, events: seq<Event>, i: nat, active: nat)
    requires IsRun(c, run, events) && i < |run|
    requires forall j :: 0 <= j <= i ==> |ActiveIds(run[j].jobs)| <= active
    ensures |run[i].jobs| <= Max(c.maxJobs, active) + SincePrune(run, events, i, IsInsertion)
    ensures SincePrune(run, events, i, IsInsertion)
         <= Count(run[i].tasks, AwaitsPrune) + SincePrune(run, events, i, IsStranding)
  {
    TableGrowsByInsertions(c, run, events, i, active);
    InsertedAwaitsPrune(c, run, events, i);
  }

  predicate IsIdentified(k: Task) {
    match k
    case Checker(_, _, rid, _) => rid.Some?
    case Adder(rid, _, _) => rid.Some?
    case _ => true
  }

  lemma MoveKeepsIdentity(c: EngineConfig, s: State, k: Task, e: Choice)
    requires IsIdentified(k)
    ensures IsIdentified(NextMove(c, s, k, e).next)
  {
  }

  lemma {:induction false} RunKeepsIdentity(c: EngineConfig, run: seq<State>, events: seq<Event>, i: nat)
    requires IsRun(c, run, events) && i < |run|
    requires forall j :: 0 <= j < |events| && events[j].Submit? ==> RequestId(events[j].request).Some?
    ensures forall t :: 0 <= t < |run[i].tasks| ==> IsIdentified(run[i].tasks[t])
  {
    if i > 0 {
      RunKeepsIdentity(c, run, events, i - 1);
      assert run[i - 1 + 1] == Next(c, run[i - 1], events[i - 1]);
      match events[i - 1]
      case Step(t, e) =>
        var m := NextMove(c, run[i - 1], run[i - 1].tasks[t], e);
        MoveKeepsIdentity(c, run[i - 1], run[i - 1].tasks[t], e);
        MoveHatches(c, run[i - 1], run[i - 1].tasks[t], e);
        assert run[i].tasks == NewTasks(run[i - 1].tasks, t, m);
      case _ =>
    }
  }

  /** When every submission carries a request id, the configured limit is exact. */
  lemma IdentifiedQueueNeverExceedsLimit(c: EngineConfig, run: seq<State>, events: seq<Event>, i: nat)
    requires IsRun(c, run, events) && i < |run|
    requires forall j :: 0 <= j < |events| && events[j].Submit? ==> RequestId(events[j].request).Some?
    ensures |QueuedIds(run[i].jobs)| + Count(run[i].tasks, InWindow) <= c.maxQueued
  {
    forall j | 0 <= j <= i ensures Count(run[j].tasks, IdlessInWindow) <= 0 {
      RunKeepsIdentity(c, run, events, j);
      CountNone(run[j].tasks, IdlessInWindow);
    }
    QueueStaysBounded(c, run, events, i, 0);
  }

  /**
   * A prune removes only finished jobs, each no newer than any finished job that stays, and brings an
   * oversized table down to the limit or to its live jobs; afterwards the request ids are exactly
   * those of the jobs that stay.
   */
  lemma PruneIsExact(c: EngineConfig, s: State, t: nat, e: Choice)
    requires Reachable(c, s) && CanStep(c, s, t, e) && s.tasks[t].Adder? && s.tasks[t].ap.Prune?
    ensures var s' := Next(c, s, Step(t, e));
      && IsPruned(s.jobs, s'.jobs, c.maxJobs)
      && s'.ids == ClaimedIds(s'.jobs) && s'.locks.idOwner.None?
      && (|s.jobs| <= c.maxJobs ==> s'.jobs == s.jobs && s'.ids == s.ids)
  {
    PruneStep(c, s, t, e);
    NextReachable(c, s, Step(t, e));
    RequestIdsMatchRetainedJobs(c, Next(c, s, Step(t, e)));
    if |s.jobs| <= c.maxJobs {
      PrunerSeesAllClaims(c, s, t);
      SameSizeSubtable(s.jobs, e.kept);
    }
  }

  lemma PruneStep(c: EngineConfig, s: State, t: nat, e: Choice)
    requires CanStep(c, s, t, e) && s.tasks[t].Adder? && s.tasks[t].ap.Prune?
    ensures var s' := Next(c, s, Step(t, e));
      && s'.jobs == e.kept && IsPruned(s.jobs, e.kept, c.maxJobs)
      && s'.ids == s.ids * ClaimedIds(e.kept) && s'.locks.idOwner.None?
  {
  }

  lemma PrunerSeesAllClaims(c: EngineConfig, s: State, t: nat)
    requires Reachable(c, s) && t < |s.tasks| && s.tasks[t].Adder? && s.tasks[t].ap.Prune?
    ensures s.ids == ClaimedIds(s.jobs)
  {
    ReachableInv(c, s);
    assert HoldsIds(s.tasks[t]) <==> s.locks.idOwner == Some(t);
  }

  lemma SameSizeSubtable(jobs: Table, kept: Table)
    requires kept.Keys <= jobs.Keys && |kept| == |jobs| && forall id :: id in kept ==> kept[id] == jobs[id]
    ensures kept == jobs
  {
    SameSizeSubset(kept.Keys, jobs.Keys);
  }

  lemma SameSizeSubset<T>(a: set<T>, b: set<T>)
    requires a <= b && |a| == |b|
    ensures a == b
  {
    if x :| x in b && x !in a {
      SubsetSize(a, b - {x});
    }
  }
}
