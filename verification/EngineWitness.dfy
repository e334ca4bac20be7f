/** Runs that reach the places other theorems speak about, built for any configuration that allows them. */
module EngineWitness {
  import opened Wrappers
  import opened Types
  import opened JobTable
  import opened Counting
  import opened Engine
  import opened EngineInvariants
  import opened EngineSafety
  import opened EngineProgress
  import opened EngineCompletion
  import opened EngineCoordination
  import opened EngineHistory
  import opened RequestMap

  /** An event that writes no row and concerns no distributed lock in use. */
  predicate IsQuiet(c: EngineConfig, s: State, ev: Event) {
    match ev
    case Submit(_, _) => true
    case Step(t, e) => t < |s.tasks| && !e.applied && SeatOf(NextMove(c, s, s.tasks[t], e).next) == SeatOf(s.tasks[t])
    case _ => false
  }

  /** `p` is kept by every quiet event; the runs built here can be replayed wherever that is so. */
  ghost predicate IsKept(c: EngineConfig, p: State -> bool) {
    forall s, ev :: Reachable(c, s) && p(s) && Can(c, s, ev) && IsQuiet(c, s, ev) ==> p(Next(c, s, ev))
  }

  ghost predicate AloneAt(s: State, t: nat) {
    t < |s.tasks| && !IsDone(s.tasks[t]) && forall u :: 0 <= u < |s.tasks| && u != t ==> IsDone(s.tasks[u])
  }

  /** A task that is alone finds every guard it waits for free. */
  lemma AloneIsGranted(c: EngineConfig, s: State, t: nat)
    requires Reachable(c, s) && AloneAt(s, t) && c.maxConcurrent > 0
    ensures Granted(s.locks, s.tasks[t])
  {
    LockView(c, s);
    forall u: nat | u < |s.tasks| && u != t
      ensures !HoldsIds(s.tasks[u]) && !HoldsRead(s.tasks[u]) && !HoldsWrite(s.tasks[u]) && !HoldsPermit(s.tasks[u])
    {
      HoldersWaitInOrder(s.tasks[u]);
    }
    HoldersWaitInOrder(s.tasks[t]);
    if WantsPermit(s.tasks[t]) && s.locks.free == 0 {
      var holder := CountWitness(s.tasks, HoldsPermit);
    }
  }

  /** So it can move, whatever the environment may choose. */
  lemma AloneSteps(c: EngineConfig, p: State -> bool, s: State, t: nat, e: Choice) returns (s': State)
    requires Reachable(c, s) && AloneAt(s, t) && c.maxConcurrent > 0 && Allowed(c, s, s.tasks[t], e)
    requires IsKept(c, p) && p(s)
    ensures Can(c, s, Step(t, e)) && s' == Next(c, s, Step(t, e)) && Reachable(c, s')
    ensures var m := NextMove(c, s, s.tasks[t], e);
      && s'.tasks == NewTasks(s.tasks, t, m)
      && s'.jobs == NewJobs(s.jobs, m.change) && s'.ids == NewIds(s.ids, m.change)
      && s'.rows == NewRows(s.rows, m.change, e.applied)
      && (!e.applied && SeatOf(m.next) == SeatOf(s.tasks[t]) ==> p(s'))
  {
    AloneIsGranted(c, s, t);
    TaskView(c, s, t);
    MoveNeeds(c, s, s.tasks[t], e);
    NextReachable(c, s, Step(t, e));
    s' := Next(c, s, Step(t, e));
    assert !e.applied && SeatOf(NextMove(c, s, s.tasks[t], e).next) == SeatOf(s.tasks[t]) ==>
      IsQuiet(c, s, Step(t, e));
  }

  /** The same with an answer of the environment that is always possible. */
  lemma AloneMoves(c: EngineConfig, p: State -> bool, s: State, t: nat) returns (s': State, e: Choice)
    requires Reachable(c, s) && AloneAt(s, t) && c.maxConcurrent > 0 && IsKept(c, p) && p(s)
    ensures Reachable(c, s') && Allowed(c, s, s.tasks[t], e) && e.error.None?
    ensures var m := NextMove(c, s, s.tasks[t], e);
      && s'.tasks == NewTasks(s.tasks, t, m)
      && s'.jobs == NewJobs(s.jobs, m.change) && s'.ids == NewIds(s.ids, m.change) && s'.rows == s.rows
      && (SeatOf(m.next) == SeatOf(s.tasks[t]) ==> p(s'))
  {
    e := ChoiceExists(c, s, s.tasks[t]);
    s' := AloneSteps(c, p, s, t, e);
  }

  predicate IsFirst(s: State, k: Task) {
    s.tasks == [k] && s.jobs == map[] && s.ids == {}
  }

  /** What the runs start from: a fresh process, a request it admits, and places. */
  ghost predicate CanServe(c: EngineConfig, p: State -> bool, request: BuildRequest) {
    && c.admits(request) && c.maxQueued > 0 && c.maxConcurrent > 0
    && IsKept(c, p) && p(Boot(c, map[], map[], 0))
  }

  lemma BootIsReachable(c: EngineConfig)
    ensures Reachable(c, Boot(c, map[], map[], 0))
  {
    var boot := Boot(c, map[], map[], 0);
    assert IsRun(c, [boot], []) && [boot][|[boot]| - 1] == boot;
  }

  /** The first submission of a process: its client has connected, nothing else has happened. */
  lemma FirstArrives(c: EngineConfig, p: State -> bool, request: BuildRequest, source: string) returns (s: State)
    requires CanServe(c, p, request)
    ensures Reachable(c, s) && p(s) && IsFirst(s, Checker(request, source, RequestId(request), Arrived))
  {
    var boot := Boot(c, map[], map[], 0);
    BootIsReachable(c);
    NextReachable(c, boot, Submit(request, source));
    s := Next(c, boot, Submit(request, source));
    assert IsQuiet(c, boot, Submit(request, source));
  }

  /** Admitted, it comes to ask for a place. */
  lemma FirstAsksForPlace(c: EngineConfig, p: State -> bool, request: BuildRequest, source: string) returns (s: State)
    requires CanServe(c, p, request)
    ensures Reachable(c, s) && p(s) && IsFirst(s, Checker(request, source, RequestId(request), WaitAdmit))
  {
    var k := Checker(request, source, RequestId(request), Arrived);
    s := FirstArrives(c, p, request, source);
    var e;
    s, e := AloneMoves(c, p, s, 0);
    if k.rid.Some? {
      assert IsFirst(s, k.(cp := WaitIds));
      s, e := AloneMoves(c, p, s, 0);
    }
  }

  /** With places free, it comes to its number. */
  lemma FirstIsNumbered(c: EngineConfig, p: State -> bool, request: BuildRequest, source: string)
    returns (s: State, rec: JobRecord)
    requires CanServe(c, p, request)
    ensures Reachable(c, s) && p(s) && IsFirst(s, Adder(RequestId(request), rec, WaitInsert))
    ensures rec.request == request && rec.source == source && IsFresh(rec)
  {
    var k := Checker(request, source, RequestId(request), WaitAdmit);
    s := FirstAsksForPlace(c, p, request, source);
    var e;
    s, e := AloneMoves(c, p, s, 0);
    assert IsFirst(s, k.(cp := Admit)) && QueuedIds(map[]) == {};
    s, e := AloneMoves(c, p, s, 0);
    assert IsFirst(s, k.(cp := Admitted));
    s, e := AloneMoves(c, p, s, 0);
    rec := s.tasks[0].rec;
  }

  predicate IsInserted(s: State, rec: JobRecord, ap: AddPc) {
    s.tasks == [Adder(RequestId(rec.request), rec, ap)] && rec.id in s.jobs && s.jobs[rec.id] == rec
  }

  lemma FirstIsInserted(c: EngineConfig, p: State -> bool, request: BuildRequest, source: string)
    returns (s: State, rec: JobRecord)
    requires CanServe(c, p, request)
    ensures Reachable(c, s) && p(s) && IsInserted(s, rec, PersistNew)
    ensures rec.request == request && rec.source == source && IsFresh(rec)
  {
    s, rec := FirstIsNumbered(c, p, request, source);
    var e;
    s, e := AloneMoves(c, p, s, 0);
    assert IsFirst(s, Adder(RequestId(request), rec, Insert));
    s, e := AloneMoves(c, p, s, 0);
    assert IsInserted(s, rec, Inserted);
    s, e := AloneMoves(c, p, s, 0);
  }

  function Anything(): State -> bool {
    s => true
  }

  lemma AnythingIsKept(c: EngineConfig)
    ensures IsKept(c, Anything())
  {
  }

  lemma AnythingServes(c: EngineConfig, request: BuildRequest)
    requires c.admits(request) && c.maxQueued > 0 && c.maxConcurrent > 0
    ensures CanServe(c, Anything(), request)
  {
  }

  /**
   * A disconnect is enough: for every configuration with a place and every admitted request there is a
   * state in which nothing can ever move on, and the job of that request is queued.
   */
  lemma DisconnectStrandsJob(c: EngineConfig, request: BuildRequest, source: string) returns (s: State, id: JobId)
    requires c.admits(request) && c.maxQueued > 0 && c.maxConcurrent > 0 && source != NATS_SOURCE
    ensures Reachable(c, s) && (forall t, e :: !CanStep(c, s, t, e))
    ensures id in s.jobs && s.jobs[id].request == request && s.jobs[id].status.Queued?
    ensures Count(s.tasks, IsStranded) == 1
  {
    AnythingServes(c, request);
    var rec;
    s, rec := FirstIsInserted(c, Anything(), request, source);
    NextReachable(c, s, Drop(0));
    s := Next(c, s, Drop(0));
    id := rec.id;
    assert s.tasks == [Orphan(rec, PersistNew)];
    QuietMeansDone(c, s);
  }

  predicate IsRunner(s: State, k: Task) {
    |s.tasks| == 2 && IsDone(s.tasks[0]) && s.tasks[1] == k
  }

  lemma PersistedIsPruned(c: EngineConfig, p: State -> bool, s0: State, rec: JobRecord) returns (s: State)
    requires Reachable(c, s0) && c.maxConcurrent > 0 && IsKept(c, p) && p(s0)
    requires s0.tasks == [Adder(RequestId(rec.request), rec, WaitPruneIds)]
    ensures Reachable(c, s) && p(s) && s.tasks == [Adder(RequestId(rec.request), rec, Spawn)]
  {
    var e;
    s, e := AloneMoves(c, p, s0, 0);
    assert s.tasks == [Adder(RequestId(rec.request), rec, WaitPruneJobs)];
    s, e := AloneMoves(c, p, s, 0);
    assert s.tasks == [Adder(RequestId(rec.request), rec, Prune)];
    s, e := AloneMoves(c, p, s, 0);
  }

  /** A submission whose client stays sees its job handed to a runner. */
  lemma PersistedIsSpawned(c: EngineConfig, p: State -> bool, s0: State, rec: JobRecord) returns (s: State)
    requires Reachable(c, s0) && c.maxConcurrent > 0 && IsKept(c, p) && p(s0)
    requires s0.tasks == [Adder(RequestId(rec.request), rec, WaitPruneIds)]
    ensures Reachable(c, s) && p(s) && IsRunner(s, Starter(rec.id, WaitPermit))
    ensures rec.id in s.jobs && s.jobs[rec.id] == rec
  {
    var e;
    s := PersistedIsPruned(c, p, s0, rec);
    AdderSeesItsJob(c, s);
    s, e := AloneMoves(c, p, s, 0);
  }

  lemma FirstIsSpawned(c: EngineConfig, p: State -> bool, request: BuildRequest, source: string)
    returns (s: State, id: JobId)
    requires CanServe(c, p, request)
    ensures Reachable(c, s) && p(s) && IsRunner(s, Starter(id, WaitPermit))
    ensures id in s.jobs && s.jobs[id].request == request
  {
    var rec, e;
    s, rec := FirstIsInserted(c, p, request, source);
    s, e := AloneMoves(c, p, s, 0);
    s := PersistedIsSpawned(c, p, s, rec);
    id := rec.id;
  }

  lemma AdderSeesItsJob(c: EngineConfig, s: State)
    requires Reachable(c, s) && |s.tasks| == 1 && s.tasks[0].Adder? && s.tasks[0].ap.Spawn?
    ensures s.tasks[0].rec.id in s.jobs && s.jobs[s.tasks[0].rec.id] == s.tasks[0].rec
  {
    var first := TaskJob(c, s, 0);
  }

  /** It comes to ask for the lock that its request names. */
  lemma SpawnedAsks(c: EngineConfig, p: State -> bool, s0: State, id: JobId) returns (s: State)
    requires Reachable(c, s0) && IsRunner(s0, Starter(id, WaitPermit)) && id in s0.jobs
    requires c.maxConcurrent > 0 && IsKept(c, p) && p(s0)
    ensures Reachable(c, s) && p(s) && IsRunner(s, Starter(id, CallLock(Some(c.lockKey(s0.jobs[id].request)))))
  {
    var e;
    s, e := AloneMoves(c, p, s0, 1);
    assert IsRunner(s, Starter(id, WaitKey));
    s, e := AloneMoves(c, p, s, 1);
    assert IsRunner(s, Starter(id, ReadKey));
    s, e := AloneMoves(c, p, s, 1);
  }

  lemma FirstAsksForLock(c: EngineConfig, p: State -> bool, request: BuildRequest, source: string)
    returns (s: State, id: JobId)
    requires CanServe(c, p, request)
    ensures Reachable(c, s) && p(s) && IsRunner(s, Starter(id, CallLock(Some(c.lockKey(request)))))
  {
    s, id := FirstIsSpawned(c, p, request, source);
    s := SpawnedAsks(c, p, s, id);
  }

  lemma WorkerIsCounted(c: EngineConfig, p: State -> bool, s0: State, id: JobId, grant: Option<LockGrant>)
    returns (s: State)
    requires Reachable(c, s0) && IsRunner(s0, Worker(id, grant, Begin)) && c.maxConcurrent > 0 && IsKept(c, p) && p(s0)
    ensures Reachable(c, s) && p(s) && IsRunner(s, Worker(id, grant, SetRun))
  {
    var e;
    s, e := AloneMoves(c, p, s0, 1);
    assert IsRunner(s, Worker(id, grant, WaitRun));
    s, e := AloneMoves(c, p, s, 1);
  }

  lemma WorkerIsMarked(c: EngineConfig, p: State -> bool, s0: State, id: JobId, grant: Option<LockGrant>)
    returns (s: State, snap: JobRecord)
    requires Reachable(c, s0) && IsRunner(s0, Worker(id, grant, Begin)) && c.maxConcurrent > 0 && IsKept(c, p) && p(s0)
    ensures Reachable(c, s) && p(s) && IsRunner(s, Worker(id, grant, PersistRun(snap)))
  {
    var e;
    s := WorkerIsCounted(c, p, s0, id, grant);
    LiveJobIsRetained(c, s, 1);
    s, e := AloneMoves(c, p, s, 1);
    snap := s.tasks[1].wp.snap;
  }

  lemma WorkerIsAnnounced(c: EngineConfig, p: State -> bool, s0: State, id: JobId, grant: Option<LockGrant>)
    returns (s: State)
    requires Reachable(c, s0) && IsRunner(s0, Worker(id, grant, Begin)) && c.maxConcurrent > 0 && IsKept(c, p) && p(s0)
    ensures Reachable(c, s) && p(s) && IsRunner(s, Worker(id, grant, WaitJob))
  {
    var snap, e;
    s, snap := WorkerIsMarked(c, p, s0, id, grant);
    s, e := AloneMoves(c, p, s, 1);
    assert IsRunner(s, Worker(id, grant, PublishRun(snap)));
    s, e := AloneMoves(c, p, s, 1);
  }

  /** Whatever it was granted, it comes to the door of its executor, with its record at hand. */
  lemma WorkerIsReady(c: EngineConfig, p: State -> bool, s0: State, id: JobId, grant: Option<LockGrant>)
    returns (s: State)
    requires Reachable(c, s0) && IsRunner(s0, Worker(id, grant, Begin)) && c.maxConcurrent > 0 && IsKept(c, p) && p(s0)
    ensures Reachable(c, s) && p(s) && IsRunner(s, Worker(id, grant, GetJob)) && id in s.jobs
  {
    var e;
    s := WorkerIsAnnounced(c, p, s0, id, grant);
    s, e := AloneMoves(c, p, s, 1);
    LiveJobIsRetained(c, s, 1);
  }

  ghost predicate Executes(c: EngineConfig, s: State, t: nat) {
    Reachable(c, s) && t < |s.tasks| && s.tasks[t].Worker? && s.tasks[t].wp.Execute?
  }

  lemma UnlockedWorker(c: EngineConfig, request: BuildRequest, source: string) returns (s: State, id: JobId)
    requires c.admits(request) && c.maxQueued > 0 && c.maxConcurrent > 0
    requires !(c.coordinationEnabled && c.coordinationRequired)
    ensures Reachable(c, s) && IsRunner(s, Worker(id, None, Begin))
  {
    AnythingServes(c, request);
    s, id := FirstAsksForLock(c, Anything(), request, source);
    var e := ChoiceExists(c, s, s.tasks[1]);
    e := e.(lock := if c.coordinationEnabled then Unavailable("") else Disabled);
    s := AloneSteps(c, Anything(), s, 1, e);
  }

  /** Unless coordination is both enabled and required, a job can be executed without any lock. */
  lemma UnlockedExecution(c: EngineConfig, request: BuildRequest, source: string) returns (s: State)
    requires c.admits(request) && c.maxQueued > 0 && c.maxConcurrent > 0
    requires !(c.coordinationEnabled && c.coordinationRequired)
    ensures Executes(c, s, 1) && !HoldsGrant(s.tasks[1])
  {
    AnythingServes(c, request);
    var id, e;
    s, id := UnlockedWorker(c, request, source);
    s := WorkerIsReady(c, Anything(), s, id, None);
    s, e := AloneMoves(c, Anything(), s, 1);
  }

  /**
   * Every job inside its executor holds its distributed lock, in every reachable state, if and only if
   * coordination is enabled as well as required.
   */
  lemma ExecutionIsLockedIff(c: EngineConfig, request: BuildRequest)
    requires c.admits(request) && c.maxQueued > 0 && c.maxConcurrent > 0
    ensures (forall s, t: nat :: Executes(c, s, t) ==> HoldsGrant(s.tasks[t])) <==>
      c.coordinationEnabled && c.coordinationRequired
  {
    if c.coordinationEnabled && c.coordinationRequired {
      forall s, t: nat | Executes(c, s, t) ensures HoldsGrant(s.tasks[t]) {
        ExecutingJobsHoldTheirLock(c, s, t);
      }
    } else {
      var s := UnlockedExecution(c, request, "http");
      assert Executes(c, s, 1);
    }
  }

  predicate IsRunnerTask(k: Task) {
    k.Starter? || k.Worker? || k.Winder? || k.Closer?
  }

  lemma RunnerStaysRunner(c: EngineConfig, s: State, k: Task, e: Choice)
    requires IsRunnerTask(k) && !IsDone(k)
    ensures var m := NextMove(c, s, k, e); IsRunnerTask(m.next) && !m.change.Hatch? && !m.change.Retain?
  {
  }

  /** The executor of job `id` has succeeded. */
  predicate EndsWell(k: Task, id: JobId) {
    match k
    case Winder(i, _, error, dp) => i == id && error.None? && !dp.CountCommand?
    case Closer(i, verdict, _) => i == id && verdict.Ran? && verdict.error.None?
    case _ => false
  }

  lemma EndsWellStays(c: EngineConfig, s: State, k: Task, e: Choice, id: JobId)
    requires EndsWell(k, id)
    ensures EndsWell(NextMove(c, s, k, e).next, id)
  {
  }

  /** A runner left alone finishes, whether or not any of its rows get through. */
  lemma {:induction false} RunnerFinishes(c: EngineConfig, s0: State, id: JobId) returns (s: State)
    requires Reachable(c, s0) && c.maxConcurrent > 0
    requires |s0.tasks| == 2 && IsDone(s0.tasks[0]) && IsRunnerTask(s0.tasks[1])
    ensures Reachable(c, s) && |s.tasks| == 2 && IsDone(s.tasks[0]) && s.tasks[1].Closer? && s.tasks[1].ep.Finished?
    ensures s.rows == s0.rows && s0.jobs.Keys <= s.jobs.Keys
    ensures EndsWell(s0.tasks[1], id) ==> EndsWell(s.tasks[1], id)
    decreases Rank(s0.tasks[1])
  {
    s := s0;
    if !IsDone(s0.tasks[1]) {
      var e;
      s, e := AloneMoves(c, Anything(), s0, 1);
      RunnerStaysRunner(c, s0, s0.tasks[1], e);
      if EndsWell(s0.tasks[1], id) {
        EndsWellStays(c, s0, s0.tasks[1], e, id);
      }
      MoveLowersRank(c, s0, s0.tasks[1], e);
      s := RunnerFinishes(c, s, id);
    }
  }

  /** Jobs do get finished: for every configuration with a place and every admitted request one can be. */
  lemma JobsFinish(c: EngineConfig, request: BuildRequest, source: string) returns (s: State)
    requires c.admits(request) && c.maxQueued > 0 && c.maxConcurrent > 0
    ensures Finishes(c, s, 1)
  {
    AnythingServes(c, request);
    var id;
    s, id := FirstIsSpawned(c, Anything(), request, source);
    s := RunnerFinishes(c, s, id);
  }
}
