/** Which distributed lock a job of the engine executes under. */
module EngineCoordination {
  import opened Wrappers
  import opened Types
  import opened JobTable
  import opened Engine
  import opened EngineInvariants
  import opened EngineOwners
  import opened EngineSafety

  /** Where a runner is in the use of its grant. */
  datatype Stage = Before | During | After

  datatype Seat = Seat(grant: LockGrant, stage: Stage)

  /** The grant a task uses: from the reply of the lock service until it sends the release. */
  function SeatOf(k: Task): Option<Seat> {
    match k
    case Worker(_, Some(grant), wp) => Some(Seat(grant, if wp.Execute? then During else Before))
    case Winder(_, Some(grant), _, Release) => Some(Seat(grant, After))
    case _ => None
  }

  /** The grant of a job is for its own key; with coordination enabled and required there is one. */
  predicate GrantFact(c: EngineConfig, grant: Option<LockGrant>, first: JobRecord) {
    && (grant.Some? ==> c.coordinationEnabled && grant.value.key == c.lockKey(first.request))
    && (c.coordinationEnabled && c.coordinationRequired ==> grant.Some?)
  }

  predicate Keyed(c: EngineConfig, k: Task, first: JobRecord) {
    match k
    case Starter(_, CallLock(Some(key))) => key == c.lockKey(first.request)
    case Worker(_, grant, _) => GrantFact(c, grant, first)
    case Winder(_, grant, _, _) => GrantFact(c, grant, first)
    case Closer(_, Ran(grant, _), _) => GrantFact(c, grant, first)
    case _ => true
  }

  ghost predicate KeyedOk(c: EngineConfig, tasks: seq<Task>, book: map<JobId, Entry>) {
    forall id :: id in book ==> book[id].owner < |tasks| && Keyed(c, tasks[book[id].owner], book[id].first)
  }

  lemma StartKeepsKeyed(c: EngineConfig, s: State, k: Task, e: Choice, first: JobRecord)
    requires k.Starter? && Keyed(c, k, first) && OwnJob(s.jobs, k.id, k, first) && Allowed(c, s, k, e)
    ensures Keyed(c, StartMove(c, s, k, e).next, first)
  {
  }

  lemma MoveKeepsKeyed(c: EngineConfig, s: State, k: Task, e: Choice, m: Move, id: JobId, first: JobRecord)
    requires m == NextMove(c, s, k, e) && Keyed(c, k, first) && OwnJob(s.jobs, id, k, first) && Allowed(c, s, k, e)
    ensures Keyed(c, if m.change.Hatch? then m.change.runner else m.next, first)
  {
    match k
    case Starter(_, _) => StartKeepsKeyed(c, s, k, e, first);
    case _ =>
  }

  lemma EnrolledIsKeyed(c: EngineConfig, s: State, k: Task, e: Choice)
    ensures var m := NextMove(c, s, k, e); m.change.Enroll? ==> m.next.Adder?
  {
  }

  lemma MoveKeepsKeyedOk(c: EngineConfig, tasks: seq<Task>, book: map<JobId, Entry>, t: nat, m: Move)
    requires t < |tasks| && OwnersOk(tasks, book) && KeyedOk(c, tasks, book) && OwnerRule(tasks[t], m)
    requires m.change.Enroll? ==> m.change.rec.id !in book && m.next.Adder?
    requires Owned(tasks[t]).Some? ==>
      Keyed(c, if m.change.Hatch? then m.change.runner else m.next, book[Owned(tasks[t]).value].first)
    ensures KeyedOk(c, NewTasks(tasks, t, m), NewBook(book, t, |tasks|, m.change))
  {
    var book' := NewBook(book, t, |tasks|, m.change);
    forall id | id in book'
      ensures book'[id].owner < |NewTasks(tasks, t, m)|
      ensures Keyed(c, NewTasks(tasks, t, m)[book'[id].owner], book'[id].first)
    {
      if id in book && Owned(tasks[t]) != Some(id) {
        assert book[id].owner != t;
      }
    }
  }

  lemma OwnerView(c: EngineConfig, s: State, t: nat, e: Choice)
    requires Reachable(c, s) && CanStep(c, s, t, e)
    ensures OwnersOk(s.tasks, s.past.book) && OwnerRule(s.tasks[t], NextMove(c, s, s.tasks[t], e))
    ensures var m := NextMove(c, s, s.tasks[t], e); m.change.Enroll? ==> m.change.rec.id !in s.past.book
    ensures Owned(s.tasks[t]).Some? ==>
      var id := Owned(s.tasks[t]).value; OwnJob(s.jobs, id, s.tasks[t], s.past.book[id].first)
  {
    ReachableInv(c, s);
    StepFollowsRules(c, s, t, e);
  }

  lemma StepKeepsKeyed(c: EngineConfig, s: State, t: nat, e: Choice)
    requires Reachable(c, s) && CanStep(c, s, t, e) && KeyedOk(c, s.tasks, s.past.book)
    ensures var m := NextMove(c, s, s.tasks[t], e);
      KeyedOk(c, NewTasks(s.tasks, t, m), NewBook(s.past.book, t, |s.tasks|, m.change))
  {
    var k := s.tasks[t];
    var m := NextMove(c, s, k, e);
    OwnerView(c, s, t, e);
    EnrolledIsKeyed(c, s, k, e);
    if Owned(k).Some? {
      MoveKeepsKeyed(c, s, k, e, m, Owned(k).value, s.past.book[Owned(k).value].first);
    }
    MoveKeepsKeyedOk(c, s.tasks, s.past.book, t, m);
  }

  lemma AppendKeepsKeyed(c: EngineConfig, tasks: seq<Task>, book: map<JobId, Entry>, k: Task)
    requires KeyedOk(c, tasks, book)
    ensures KeyedOk(c, tasks + [k], book)
  {
  }

  lemma BookView(c: EngineConfig, s: State)
    requires Reachable(c, s)
    ensures OwnersOk(s.tasks, s.past.book)
  {
    ReachableInv(c, s);
  }

  lemma DropIsKeyed(c: EngineConfig, k: Task, first: JobRecord)
    requires CanDrop(k)
    ensures OwnerRule(k, DropMove(k)) && Keyed(c, DropMove(k).next, first) && DropMove(k).change.Nothing?
  {
  }

  lemma DropKeepsKeyed(c: EngineConfig, s: State, t: nat)
    requires Reachable(c, s) && Can(c, s, Drop(t)) && KeyedOk(c, s.tasks, s.past.book)
    ensures KeyedOk(c, Next(c, s, Drop(t)).tasks, Next(c, s, Drop(t)).past.book)
  {
    BookView(c, s);
    var k := s.tasks[t];
    if Owned(k).Some? {
      DropIsKeyed(c, k, s.past.book[Owned(k).value].first);
    }
    MoveKeepsKeyedOk(c, s.tasks, s.past.book, t, DropMove(k));
  }

  lemma EventKeepsKeyed(c: EngineConfig, s: State, ev: Event)
    requires Reachable(c, s) && Can(c, s, ev) && KeyedOk(c, s.tasks, s.past.book)
    ensures KeyedOk(c, Next(c, s, ev).tasks, Next(c, s, ev).past.book)
  {
    match ev
    case Submit(request, source) =>
      AppendKeepsKeyed(c, s.tasks, s.past.book, Checker(request, source, RequestId(request), Arrived));
    case View => AppendKeepsKeyed(c, s.tasks, s.past.book, Viewer(WaitView));
    case Step(t, e) => StepKeepsKeyed(c, s, t, e);
    case Drop(t) => DropKeepsKeyed(c, s, t);
    case Restart(_, _, _) =>
  }

  lemma {:induction false} RunKeepsKeyed(c: EngineConfig, run: seq<State>, events: seq<Event>, i: nat)
    requires IsRun(c, run, events) && i < |run|
    ensures KeyedOk(c, run[i].tasks, run[i].past.book)
  {
    if i > 0 {
      RunKeepsKeyed(c, run, events, i - 1);
      assert run[i - 1 + 1] == Next(c, run[i - 1], events[i - 1]);
      PrefixIsReachable(c, run, events, i - 1);
      EventKeepsKeyed(c, run[i - 1], events[i - 1]);
    }
  }

  lemma KeyedTask(c: EngineConfig, s: State, t: nat) returns (first: JobRecord)
    requires Reachable(c, s) && t < |s.tasks| && Owned(s.tasks[t]).Some?
    ensures Keyed(c, s.tasks[t], first) && OwnJob(s.jobs, Owned(s.tasks[t]).value, s.tasks[t], first)
  {
    ReachableInv(c, s);
    var run, events :| IsRun(c, run, events) && run[|run| - 1] == s;
    RunKeepsKeyed(c, run, events, |run| - 1);
    first := s.past.book[Owned(s.tasks[t]).value].first;
  }

  /**
   * With coordination enabled and required every job inside its executor holds the distributed lock
   * of its own key, under the token that its record shows.
   */
  lemma ExecutingJobsHoldTheirLock(c: EngineConfig, s: State, t: nat)
    requires Reachable(c, s) && c.coordinationEnabled && c.coordinationRequired
    requires t < |s.tasks| && s.tasks[t].Worker? && s.tasks[t].wp.Execute?
    ensures HoldsGrant(s.tasks[t]) && s.tasks[t].id in s.jobs
    ensures var rec, grant := s.jobs[s.tasks[t].id], s.tasks[t].grant.value;
      && grant.key == c.lockKey(rec.request)
      && rec.lockKey == Some(grant.key) && rec.fencingToken == Some(grant.fencingToken)
  {
    var first := KeyedTask(c, s, t);
    WorkerHolds(c, s.jobs, s.tasks[t], first);
  }

  lemma WorkerHolds(c: EngineConfig, jobs: Table, k: Task, first: JobRecord)
    requires k.Worker? && k.wp.Execute? && Keyed(c, k, first) && OwnJob(jobs, k.id, k, first)
    ensures k.id in jobs && SameSubmission(jobs[k.id], first) && HasGrant(jobs[k.id], k.grant)
    ensures c.coordinationEnabled && c.coordinationRequired ==>
      k.grant.Some? && k.grant.value.key == c.lockKey(jobs[k.id].request)
  {
  }
}
