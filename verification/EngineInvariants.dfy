/** The facts that hold in every reachable state of the engine, grouped by what they are about. */
module EngineInvariants {
  import opened Wrappers
  import opened Types
  import opened JobTable
  import opened Persistence
  import opened Counting
  import opened Engine
  import opened Holding

  /** Between the increment and the decrement of the `running` counter. */
  predicate IsRunning(k: Task) {
    (k.Worker? && !k.wp.Begin?) || (k.Winder? && (k.dp.Release? || k.dp.StopRunning?))
  }

  /** Holds a distributed lock that it has not released yet. */
  predicate HoldsGrant(k: Task) {
    (k.Worker? && k.grant.Some?) || (k.Winder? && k.dp.Release? && k.grant.Some?)
  }

  /** Numbered, not yet counted as succeeded or failed, and still at work. */
  predicate InFlight(k: Task) {
    k.Adder? || k.Starter? || k.Worker? || (k.Winder? && !k.dp.CountCommand?)
  }

  /** Numbered, but the handler was dropped before it had spawned the runner. */
  predicate IsOrphan(k: Task) {
    k.Orphan?
  }

  /** Counted as submitted and not yet as succeeded or failed. */
  predicate Unsettled(k: Task) {
    InFlight(k) || IsOrphan(k)
  }

  /** An orphan whose job is in the table, where nothing will ever run it. */
  predicate IsStranded(k: Task) {
    k.Orphan? && !k.stop.WaitInsert? && !k.stop.Insert?
  }

  predicate AtLockFailed(k: Task) {
    k.Starter? && k.sp.LockFailed?
  }

  predicate AtCountCommand(k: Task) {
    k.Winder? && k.dp.CountCommand?
  }

  /** The lock variables agree with the program counters. */
  ghost predicate LocksOk(s: State) {
    && OwnerAgrees(s.tasks, s.locks.idOwner, HoldsIds)
    && MembersAgree(s.tasks, s.locks.readers, HoldsRead)
    && OwnerAgrees(s.tasks, s.locks.writer, HoldsWrite)
    && (s.locks.writer.Some? ==> s.locks.readers == {})
  }

  /** What the holder of the request-id lock may rely on; `None` when the lock is free. */
  ghost predicate HolderFact(jobs: Table, ids: set<string>, holder: Option<Task>) {
    match holder
    case Some(Checker(_, _, Some(rid), cp)) =>
      ids == ClaimedIds(jobs) && (rid in ids <==> cp.WaitLookup? || cp.Lookup?)
    case Some(Adder(Some(rid), _, Inserted)) =>
      rid !in ids && ClaimedIds(jobs) == ids + {rid}
    case Some(Adder(Some(rid), _, ap)) =>
      ids == ClaimedIds(jobs) && (ap.WaitInsert? || ap.Insert? ==> rid !in ids)
    case _ => ids == ClaimedIds(jobs)
  }

  function Holder(s: State): Option<Task> {
    if s.locks.idOwner.Some? && s.locks.idOwner.value < |s.tasks| then Some(s.tasks[s.locks.idOwner.value]) else None
  }

  ghost predicate ClaimsOk(s: State) {
    UniqueClaims(s.jobs) && HolderFact(s.jobs, s.ids, Holder(s))
  }

  /** The record of job `id`, as the program counter of the task `k` that works for it demands. */
  predicate JobFact(jobs: Table, id: JobId, k: Task, first: JobRecord) {
    match k
    case Adder(_, rec, ap) => rec == first && Added(jobs, id, ap, first)
    case Orphan(job, stop) => job == first && Added(jobs, id, stop, first)
    case Starter(_, sp) => Waits(jobs, id) && (sp.CallLock? ==> sp.key.Some?)
    case Worker(_, grant, wp) =>
      if wp.Begin? || wp.WaitRun? || wp.SetRun? then Waits(jobs, id)
      else Works(jobs, id, grant)
           && (wp.PersistRun? || wp.PublishRun? ==> wp.snap == jobs[id]) && (wp.Execute? ==> wp.job == jobs[id])
    case Winder(_, grant, _, _) => Works(jobs, id, grant)
    case Closer(_, verdict, ep) =>
      if ep.WaitEnd? || ep.SetEnd? then
        if verdict.Denied? then Waits(jobs, id) else Works(jobs, id, verdict.grant)
      else
        && (id in jobs ==> IsConcluded(jobs[id], verdict))
        && (ep.PersistEnd? || ep.PublishEnd? ==> IsConcluded(ep.snap, verdict) && SameSubmission(ep.snap, first))
    case _ => true
  }

  predicate Added(jobs: Table, id: JobId, ap: AddPc, first: JobRecord) {
    if ap.WaitInsert? || ap.Insert? then id !in jobs else id in jobs && jobs[id] == first
  }

  predicate Waits(jobs: Table, id: JobId) {
    id in jobs && IsFresh(jobs[id])
  }

  predicate Works(jobs: Table, id: JobId, grant: Option<LockGrant>) {
    id in jobs && IsStarted(jobs[id], grant)
  }

  /** Every job has exactly one owner. */
  ghost predicate OwnersOk(tasks: seq<Task>, book: map<JobId, Entry>) {
    && (forall t :: 0 <= t < |tasks| && Owned(tasks[t]).Some? ==>
          Owned(tasks[t]).value in book && book[Owned(tasks[t]).value].owner == t)
    && (forall id :: id in book ==> book[id].owner < |tasks| && Owned(tasks[book[id].owner]) == Some(id))
  }

  /** Every number was given to one job, in this process, for an admitted request. */
  ghost predicate NumbersOk(c: EngineConfig, book: map<JobId, Entry>, submitted: nat, floor: nat) {
    && (forall id :: id in book ==> EntryFact(c, id, book[id].first, submitted, floor))
    && (forall a, b :: a in book && b in book && a.counter == b.counter ==> a == b)
  }

  predicate EntryFact(c: EngineConfig, id: JobId, first: JobRecord, submitted: nat, floor: nat) {
    1 <= id.counter <= submitted && floor <= id.atMs && first.id == id && IsFresh(first) && c.admits(first.request)
  }

  ghost predicate BookOk(c: EngineConfig, s: State) {
    && OwnersOk(s.tasks, s.past.book)
    && NumbersOk(c, s.past.book, s.ctr.submitted, s.past.floor)
    && s.jobs.Keys <= s.past.book.Keys
  }

  /** All that is known about job `id` whose owner stands at `k`. */
  predicate OwnJob(jobs: Table, id: JobId, k: Task, first: JobRecord) {
    && Owned(k) == Some(id) && first.id == id && IsFresh(first)
    && JobFact(jobs, id, k, first)
    && (id in jobs ==> SameSubmission(jobs[id], first))
  }

  /** Every record is what its owner's progress says. */
  ghost predicate JobsOk(jobs: Table, tasks: seq<Task>, book: map<JobId, Entry>) {
    forall id :: id in book ==> book[id].owner < |tasks| && OwnJob(jobs, id, tasks[book[id].owner], book[id].first)
  }

  /** What a task knows about itself. */
  predicate TaskFact(c: EngineConfig, k: Task) {
    match k
    case Checker(request, _, rid, cp) =>
      && rid == RequestId(request)
      && (cp.WaitIds? || cp.WaitLookup? || cp.Lookup? ==> rid.Some?)
      && (!cp.Arrived? ==> c.admits(request))
    case Adder(rid, rec, _) => rid == RequestId(rec.request)
    case Orphan(job, stop) => AddAwaits(stop) && job.source != NATS_SOURCE
    case Winder(_, _, error, dp) => dp.CountCommand? ==> error.Some?
    case Closer(_, verdict, ep) => ep.ReturnPermit? ==> verdict.Denied?
    case _ => true
  }

  ghost predicate TasksOk(c: EngineConfig, s: State) {
    forall t :: 0 <= t < |s.tasks| ==> TaskFact(c, s.tasks[t])
  }

  // The effects of a job so far, as a function of its owner's program counter.

  function FxSubmitted(): seq<Effect> { [Entered(Queued)] }

  function FxSaved(): seq<Effect> { FxSubmitted() + [SentToDatabase(Queued)] }

  function FxPermit(): seq<Effect> { FxSaved() + [PermitTaken] }

  function FxGranted(grant: Option<LockGrant>): seq<Effect> { FxPermit() + GrantEffects(grant) }

  function FxRunning(grant: Option<LockGrant>): seq<Effect> { FxGranted(grant) + [Entered(Running)] }

  function FxRunSaved(grant: Option<LockGrant>): seq<Effect> { FxRunning(grant) + [SentToDatabase(Running)] }

  function FxRunPublished(grant: Option<LockGrant>): seq<Effect> { FxRunSaved(grant) + Publishing(Running) }

  function FxBegan(grant: Option<LockGrant>): seq<Effect> { FxRunPublished(grant) + [Began] }

  function FxReleased(grant: Option<LockGrant>): seq<Effect> { FxBegan(grant) + ReleaseEffects(grant) }

  function FxReturned(grant: Option<LockGrant>): seq<Effect> { FxReleased(grant) + [PermitReturned] }

  function StatusOf(verdict: Verdict): BuildStatus {
    match verdict
    case Denied(_) => Failed
    case Ran(_, error) => if error.None? then Succeeded else Failed
  }

  function FxBefore(verdict: Verdict): seq<Effect> {
    match verdict
    case Denied(_) => FxPermit()
    case Ran(grant, _) => FxReturned(grant)
  }

  function FxEnded(verdict: Verdict): seq<Effect> { FxBefore(verdict) + [Entered(StatusOf(verdict))] }

  function FxEndSaved(verdict: Verdict): seq<Effect> { FxEnded(verdict) + [SentToDatabase(StatusOf(verdict))] }

  function FxEndPublished(verdict: Verdict): seq<Effect> { FxEndSaved(verdict) + Publishing(StatusOf(verdict)) }

  function FxDone(verdict: Verdict): seq<Effect> {
    if verdict.Denied? then FxEndPublished(verdict) + [PermitReturned] else FxEndPublished(verdict)
  }

  function FxAdded(ap: AddPc): seq<Effect> {
    if ap.WaitInsert? || ap.Insert? then [] else if ap.Inserted? || ap.PersistNew? then FxSubmitted() else FxSaved()
  }

  function Expected(k: Task): seq<Effect> {
    match k
    case Adder(_, _, ap) => FxAdded(ap)
    case Orphan(_, stop) => FxAdded(stop)
    case Starter(_, sp) => if sp.WaitPermit? then FxSaved() else FxPermit()
    case Worker(_, grant, wp) =>
      (match wp
       case PersistRun(_) => FxRunning(grant)
       case PublishRun(_) => FxRunSaved(grant)
       case WaitJob => FxRunPublished(grant)
       case GetJob => FxRunPublished(grant)
       case Execute(_) => FxBegan(grant)
       case _ => FxGranted(grant))
    case Winder(_, grant, _, dp) =>
      if dp.Release? then FxBegan(grant)
      else if dp.StopRunning? || dp.DropPermit? then FxReleased(grant) else FxReturned(grant)
    case Closer(_, verdict, ep) =>
      (match ep
       case PersistEnd(_) => FxEnded(verdict)
       case PublishEnd(_) => FxEndSaved(verdict)
       case ReturnPermit => FxEndPublished(verdict)
       case Finished => FxDone(verdict)
       case _ => FxBefore(verdict))
    case _ => []
  }

  ghost predicate TraceOk(tasks: seq<Task>, book: map<JobId, Entry>, trace: map<JobId, seq<Effect>>) {
    forall id :: id in book ==>
      book[id].owner < |tasks| && id in trace && trace[id] == Expected(tasks[book[id].owner])
  }

  /** The last snapshot of a job that reached the database, given how far its owner has come. */
  predicate SavedFact(rec: JobRecord, k: Task) {
    match k
    case Adder(_, _, ap) => WasSent(ap) && IsFresh(rec)
    case Orphan(_, stop) => WasSent(stop) && IsFresh(rec)
    case Starter(_, _) => IsFresh(rec)
    case Worker(_, grant, wp) =>
      if wp.Begin? || wp.WaitRun? || wp.SetRun? || wp.PersistRun? then IsFresh(rec) else SavedRunning(rec, grant)
    case Winder(_, grant, _, _) => SavedRunning(rec, grant)
    case Closer(_, verdict, ep) =>
      SavedBefore(rec, verdict) || (!ep.WaitEnd? && !ep.SetEnd? && !ep.PersistEnd? && IsConcluded(rec, verdict))
    case _ => true
  }

  predicate WasSent(ap: AddPc) {
    ap.WaitPruneIds? || ap.WaitPruneJobs? || ap.Prune? || ap.Spawn?
  }

  predicate SavedRunning(rec: JobRecord, grant: Option<LockGrant>) {
    IsFresh(rec) || IsStarted(rec, grant)
  }

  predicate SavedBefore(rec: JobRecord, verdict: Verdict) {
    if verdict.Denied? then IsFresh(rec) else SavedRunning(rec, verdict.grant)
  }

  /** The database holds the last snapshot that reached it; unowned rows are from earlier processes. */
  ghost predicate SavedOk(saved: Table, tasks: seq<Task>, book: map<JobId, Entry>, floor: nat) {
    && (forall id :: id in saved ==> saved[id].id == id)
    && (forall id :: id in saved && id !in book ==> id.atMs < floor)
    && (forall id :: id in book ==> book[id].owner < |tasks|)
    && (forall id :: id in saved && id in book ==>
          SameSubmission(saved[id], book[id].first) && SavedFact(saved[id], tasks[book[id].owner]))
  }

  /** Where every submission and every failure went, counting tasks by stage. */
  predicate OutcomesOk(c: EngineConfig, s: State) {
    && s.ctr.submitted == Count(s.tasks, Unsettled) + s.ctr.succeeded + s.ctr.failed
    && s.ctr.failed + s.past.tolerated + Count(s.tasks, AtLockFailed)
       == s.ctr.commandFailures + s.ctr.lockFailures + Count(s.tasks, AtCountCommand)
    && (c.coordinationRequired ==> s.past.tolerated == 0)
  }

  /** Where every permit, every running job and every distributed lock is. */
  predicate ResourcesOk(c: EngineConfig, s: State) {
    && s.locks.free + Count(s.tasks, HoldsPermit) == c.maxConcurrent
    && s.ctr.running == Count(s.tasks, IsRunning)
    && s.ctr.locksAcquired == s.past.released + Count(s.tasks, HoldsGrant)
  }

  ghost predicate Inv(c: EngineConfig, s: State) {
    && TasksOk(c, s) && LocksOk(s) && ClaimsOk(s) && BookOk(c, s)
    && JobsOk(s.jobs, s.tasks, s.past.book) && TraceOk(s.tasks, s.past.book, s.past.trace)
    && Mirrors(s.rows, s.past.saved) && SavedOk(s.past.saved, s.tasks, s.past.book, s.past.floor)
    && OutcomesOk(c, s) && ResourcesOk(c, s)
  }
}
