/**
 * The build-job engine as an interleaved state machine.
 *
 * Every submission, every accepted job and every HTTP handler that looks at the job table is a task
 * with a program counter. Each program counter says which guards are in scope there: the request-id
 * write guard, a read or write guard of the job table, an owned permit. Moving to a program counter
 * with a guard in scope acquires it, and is possible only when it is free; moving out of its scope
 * drops it. One move is one lock acquisition, one critical section with the release that ends it,
 * one counter update, or one external call, and any task may make the next move.
 */
module Engine {
  import opened Wrappers
  import opened Types
  import opened JobTable
  import opened Persistence

  /** The fixed configuration; `admits` is request validation and `lockKey` the lock naming rule. */
  datatype EngineConfig = EngineConfig(
    admits: BuildRequest -> bool,
    lockKey: BuildRequest -> string,
    logPath: JobId -> string,
    holder: string,
    maxJobs: nat,
    maxQueued: nat,
    maxConcurrent: nat,
    coordinationEnabled: bool,
    coordinationRequired: bool,
    hasDatabase: bool)

  datatype Answer =
    | Accepted(rec: JobRecord)
    | Reattached(rec: JobRecord)
    | Conflict
    | QueueFull
    | Invalid

  /** Where `enqueue_build` stands before the submission has a number. */
  datatype CheckPc = Arrived | WaitIds | WaitLookup | Lookup | WaitAdmit | Admit | Admitted

  /** Where it stands after that, up to spawning the runner. */
  datatype AddPc = WaitInsert | Insert | Inserted | PersistNew | WaitPruneIds | WaitPruneJobs | Prune | Spawn

  /** Where `run_job` stands until the distributed lock is decided. */
  datatype StartPc = WaitPermit | WaitKey | ReadKey | CallLock(key: Option<string>) | LockFailed(reason: string)

  /** Where it stands from the `running` increment to the executor. */
  datatype WorkPc =
    | Begin
    | WaitRun
    | SetRun
    | PersistRun(snap: JobRecord)
    | PublishRun(snap: JobRecord)
    | WaitJob
    | GetJob
    | Execute(job: JobRecord)

  /** Where it stands from the executor's result to the outcome counters. */
  datatype WindPc = Release | StopRunning | DropPermit | CountResult | CountCommand

  /** Where it stands while it writes the terminal status. */
  datatype ClosePc =
    | WaitEnd
    | SetEnd
    | PersistEnd(snap: JobRecord)
    | PublishEnd(snap: JobRecord)
    | ReturnPermit
    | Finished

  datatype ViewPc = WaitView | Viewing | Viewed

  /**
   * A task, by phase. A submission is a Checker, then an Adder, then Answered; the job it leaves
   * behind is run by a Starter, then a Worker and a Winder, then a Closer. A submission whose client
   * disconnects is dropped at the await it has reached: before it has a number it is Gone, after that
   * it is an Orphan, which keeps its record and the place where it stopped.
   */
  datatype Task =
    | Checker(request: BuildRequest, source: string, rid: Option<string>, cp: CheckPc)
    | Adder(rid: Option<string>, rec: JobRecord, ap: AddPc)
    | Answered(request: BuildRequest, answer: Answer)
    | Gone
    | Orphan(job: JobRecord, stop: AddPc)
    | Starter(id: JobId, sp: StartPc)
    | Worker(id: JobId, grant: Option<LockGrant>, wp: WorkPc)
    | Winder(id: JobId, grant: Option<LockGrant>, error: Option<string>, dp: WindPc)
    | Closer(id: JobId, verdict: Verdict, ep: ClosePc)
    | Viewer(vp: ViewPc)

  /** `running` is an integer so that a decrement below zero would be seen. */
  datatype Counters = Counters(
    submitted: nat,
    running: int,
    succeeded: nat,
    failed: nat,
    rejected: nat,
    commandFailures: nat,
    locksAcquired: nat,
    lockFailures: nat)

  datatype Subject = Events | Results | Critical

  /** What one job has done so far, in order. */
  datatype Effect =
    | Entered(status: BuildStatus)
    | SentToDatabase(status: BuildStatus)
    | Published(subject: Subject, status: BuildStatus)
    | PermitTaken
    | PermitReturned
    | LockGranted(token: nat)
    | LockReleased(token: nat)
    | Began

  /** The task that works for a job, and its record as first submitted. */
  datatype Entry = Entry(owner: nat, first: JobRecord)

  /** The two RwLocks (writer of the request ids; readers and writer of the jobs) and the semaphore. */
  datatype Locks = Locks(idOwner: Option<nat>, readers: set<nat>, writer: Option<nat>, free: nat)

  /** History, read by no step of the server. */
  datatype History = History(
    book: map<JobId, Entry>,
    trace: map<JobId, seq<Effect>>,
    saved: Table,
    floor: nat,
    tolerated: nat,
    released: nat)

  datatype State = State(
    jobs: Table,
    ids: set<string>,
    locks: Locks,
    ctr: Counters,
    tasks: seq<Task>,
    rows: Rows,
    past: History)

  const ZERO := Counters(0, 0, 0, 0, 0, 0, 0, 0)

  /** A process that has just started, with whatever rows the database holds. */
  function Boot(c: EngineConfig, rows: Rows, saved: Table, floor: nat): State {
    State(map[], {}, Locks(None, {}, None, c.maxConcurrent), ZERO, [], rows,
          History(map[], map[], saved, floor, 0, 0))
  }

  // The guards in scope at each program counter.

  predicate HoldsIds(k: Task) {
    match k
    case Checker(_, _, rid, cp) =>
      cp.WaitLookup? || cp.Lookup? || (rid.Some? && (cp.WaitAdmit? || cp.Admit? || cp.Admitted?))
    case Adder(rid, _, ap) =>
      ap.WaitPruneJobs? || ap.Prune? || (rid.Some? && (ap.WaitInsert? || ap.Insert? || ap.Inserted?))
    case _ => false
  }

  predicate HoldsRead(k: Task) {
    match k
    case Checker(_, _, _, cp) => cp.Lookup? || cp.Admit?
    case Starter(_, sp) => sp.ReadKey?
    case Worker(_, _, wp) => wp.GetJob?
    case Viewer(vp) => vp.Viewing?
    case _ => false
  }

  predicate HoldsWrite(k: Task) {
    match k
    case Adder(_, _, ap) => ap.Insert? || ap.Prune?
    case Worker(_, _, wp) => wp.SetRun?
    case Closer(_, _, ep) => ep.SetEnd?
    case _ => false
  }

  predicate HoldsPermit(k: Task) {
    match k
    case Starter(_, sp) => !sp.WaitPermit?
    case Worker(_, _, _) => true
    case Winder(_, _, _, dp) => dp.Release? || dp.StopRunning? || dp.DropPermit?
    case Closer(_, verdict, ep) => verdict.Denied? && !ep.Finished?
    case _ => false
  }

  predicate IsDone(k: Task) {
    match k
    case Answered(_, _) => true
    case Gone => true
    case Orphan(_, _) => true
    case Closer(_, _, ep) => ep.Finished?
    case Viewer(vp) => vp.Viewed?
    case _ => false
  }

  /** The guards that come into scope as `k` moves to `next` are free. */
  predicate Available(locks: Locks, k: Task, next: Task) {
    && (HoldsIds(next) && !HoldsIds(k) ==> locks.idOwner.None?)
    && (HoldsRead(next) && !HoldsRead(k) ==> locks.writer.None?)
    && (HoldsWrite(next) && !HoldsWrite(k) ==> locks.writer.None? && locks.readers == {})
    && (HoldsPermit(next) && !HoldsPermit(k) ==> locks.free > 0)
  }

  /** Task `t` acquires and drops guards as it moves from `k` to `next`. */
  function Relock(locks: Locks, t: nat, k: Task, next: Task): Locks
    requires Available(locks, k, next)
  {
    Locks(
      if HoldsIds(next) then Some(t) else if HoldsIds(k) then None else locks.idOwner,
      if HoldsRead(next) then locks.readers + {t} else locks.readers - {t},
      if HoldsWrite(next) then Some(t) else if HoldsWrite(k) then None else locks.writer,
      if HoldsPermit(next) && !HoldsPermit(k) then locks.free - 1
      else if HoldsPermit(k) && !HoldsPermit(next) then locks.free + 1 else locks.free)
  }

  /** What the environment decides in one step: clock readings, call results, hash-map order. */
  datatype Choice = Choice(
    idMs: nat,
    nowMs: nat,
    applied: bool,
    kept: Table,
    found: Option<JobRecord>,
    lock: LockOutcome,
    error: Option<string>)

  /** What one move does to the shared tables. */
  datatype Change =
    | Nothing
    | Enroll(rec: JobRecord)
    | Store(rec: JobRecord)
    | Claim(requestId: string)
    | Forget(requestId: string)
    | Retain(kept: Table)
    | Save(rec: JobRecord)
    | Hatch(runner: Task)

  /** The atomic counter a move updates. */
  datatype Bump =
    | Same
    | Submitted
    | Running1
    | Running0
    | Succeeded1
    | Failed1
    | Rejected
    | CommandFailed
    | LockAcquired
    | LockFailed1
    | LockTolerated
    | LockReturned

  /** One move of one task: where it goes, what it changes, and what it does for its job. */
  datatype Move = Move(next: Task, change: Change, bump: Bump, fx: seq<Effect>)

  function To(next: Task): Move { Move(next, Nothing, Same, []) }

  /** The messages of one `publish_lifecycle` call, in the order they are sent. */
  function Publishing(status: BuildStatus): seq<Effect> {
    match status
    case Succeeded => [Published(Events, status), Published(Results, status)]
    case Failed => [Published(Events, status), Published(Results, status), Published(Critical, status)]
    case _ => [Published(Events, status)]
  }

  function GrantEffects(grant: Option<LockGrant>): seq<Effect> {
    if grant.Some? then [LockGranted(grant.value.fencingToken)] else []
  }

  function ReleaseEffects(grant: Option<LockGrant>): seq<Effect> {
    if grant.Some? then [LockReleased(grant.value.fencingToken)] else []
  }

  function NewRecord(c: EngineConfig, request: BuildRequest, source: string, id: JobId, nowMs: nat): JobRecord {
    JobRecord(id, Queued, request, source, request.executor.GetOr("local"), nowMs,
              None, None, c.logPath(id), None, None, None)
  }

  /** `enqueue_build` up to the admission check: validation, deduplication, backpressure. */
  function CheckMove(c: EngineConfig, s: State, k: Task, e: Choice): Move
    requires k.Checker?
  {
    match k.cp
    case Arrived =>
      if !c.admits(k.request) then Move(Answered(k.request, Invalid), Nothing, Rejected, [])
      else To(k.(cp := if k.rid.Some? then WaitIds else WaitAdmit))
    case WaitIds =>
      To(k.(cp := if k.rid.Some? && k.rid.value in s.ids then WaitLookup else WaitAdmit))
    case WaitLookup => To(k.(cp := Lookup))
    case Lookup =>
      (match e.found
       case Some(existing) =>
         if existing.request == k.request then To(Answered(k.request, Reattached(existing)))
         else Move(Answered(k.request, Conflict), Nothing, Rejected, [])
       case None =>
         Move(k.(cp := WaitAdmit), if k.rid.Some? then Forget(k.rid.value) else Nothing, Same, []))
    case WaitAdmit => To(k.(cp := Admit))
    case Admit =>
      if |QueuedIds(s.jobs)| >= c.maxQueued then Move(Answered(k.request, QueueFull), Nothing, Rejected, [])
      else To(k.(cp := Admitted))
    case Admitted =>
      var rec := NewRecord(c, k.request, k.source, JobId(e.idMs, s.ctr.submitted + 1), e.nowMs);
      Move(Adder(k.rid, rec, WaitInsert), Enroll(rec), Submitted, [])
  }

  /** The rest of `enqueue_build`: insertion, persistence, pruning, spawning. */
  function AddMove(k: Task, e: Choice): Move
    requires k.Adder?
  {
    match k.ap
    case WaitInsert => To(k.(ap := Insert))
    case Insert => Move(k.(ap := Inserted), Store(k.rec), Same, [Entered(Queued)])
    case Inserted => Move(k.(ap := PersistNew), if k.rid.Some? then Claim(k.rid.value) else Nothing, Same, [])
    case PersistNew => Move(k.(ap := WaitPruneIds), Save(k.rec), Same, [SentToDatabase(k.rec.status)])
    case WaitPruneIds => To(k.(ap := WaitPruneJobs))
    case WaitPruneJobs => To(k.(ap := Prune))
    case Prune => Move(k.(ap := Spawn), Retain(e.kept), Same, [])
    case Spawn => Move(Answered(k.rec.request, Accepted(k.rec)), Hatch(Starter(k.rec.id, WaitPermit)), Same, [])
  }

  /** `run_job` up to the decision of the distributed lock. */
  function StartMove(c: EngineConfig, s: State, k: Task, e: Choice): Move
    requires k.Starter?
  {
    match k.sp
    case WaitPermit => Move(k.(sp := WaitKey), Nothing, Same, [PermitTaken])
    case WaitKey => To(k.(sp := ReadKey))
    case ReadKey =>
      To(k.(sp := CallLock(if k.id in s.jobs then Some(c.lockKey(s.jobs[k.id].request)) else None)))
    case CallLock(None) => To(Worker(k.id, None, Begin))
    case CallLock(Some(_)) =>
      (match e.lock
       case Disabled => To(Worker(k.id, None, Begin))
       case Acquired(grant) =>
         Move(Worker(k.id, Some(grant), Begin), Nothing, LockAcquired, GrantEffects(Some(grant)))
       case Busy(key) => Move(k.(sp := LockFailed(BusyError(key))), Nothing, LockFailed1, [])
       case Unavailable(reason) =>
         if c.coordinationRequired then Move(k.(sp := LockFailed(UnavailableError(reason))), Nothing, LockFailed1, [])
         else Move(Worker(k.id, None, Begin), Nothing, LockTolerated, []))
    case LockFailed(reason) => Move(Closer(k.id, Denied(reason), WaitEnd), Nothing, Failed1, [])
  }

  /** `run_job` from the `running` increment to the end of the executor. */
  function WorkMove(s: State, k: Task, e: Choice): Move
    requires k.Worker?
  {
    match k.wp
    case Begin => Move(k.(wp := WaitRun), Nothing, Running1, [])
    case WaitRun => To(k.(wp := SetRun))
    case SetRun =>
      if k.id in s.jobs then
        var snap := MarkRunning(s.jobs[k.id], e.nowMs, k.grant);
        Move(k.(wp := PersistRun(snap)), Store(snap), Same, [Entered(snap.status)])
      else
        To(k.(wp := WaitJob))
    case PersistRun(snap) => Move(k.(wp := PublishRun(snap)), Save(snap), Same, [SentToDatabase(snap.status)])
    case PublishRun(snap) => Move(k.(wp := WaitJob), Nothing, Same, Publishing(snap.status))
    case WaitJob => To(k.(wp := GetJob))
    case GetJob =>
      if k.id in s.jobs then Move(k.(wp := Execute(s.jobs[k.id])), Nothing, Same, [Began])
      else To(Winder(k.id, k.grant, Some("job disappeared before execution"), Release))
    case Execute(_) => To(Winder(k.id, k.grant, e.error, Release))
  }

  /** `run_job` from the executor's result to the outcome counters. */
  function WindMove(k: Task): Move
    requires k.Winder?
  {
    match k.dp
    case Release =>
      Move(k.(dp := StopRunning), Nothing, if k.grant.Some? then LockReturned else Same, ReleaseEffects(k.grant))
    case StopRunning => Move(k.(dp := DropPermit), Nothing, Running0, [])
    case DropPermit => Move(k.(dp := CountResult), Nothing, Same, [PermitReturned])
    case CountResult =>
      if k.error.None? then Move(Closer(k.id, Ran(k.grant, None), WaitEnd), Nothing, Succeeded1, [])
      else Move(k.(dp := CountCommand), Nothing, Failed1, [])
    case CountCommand => Move(Closer(k.id, Ran(k.grant, k.error), WaitEnd), Nothing, CommandFailed, [])
  }

  /** The terminal `update_job`; a job refused at the lock stage drops its permit only afterwards. */
  function CloseMove(s: State, k: Task, e: Choice): Move
    requires k.Closer?
  {
    var last := if k.verdict.Denied? then ReturnPermit else Finished;
    match k.ep
    case WaitEnd => To(k.(ep := SetEnd))
    case SetEnd =>
      if k.id in s.jobs then
        var snap := Conclude(s.jobs[k.id], e.nowMs, k.verdict);
        Move(k.(ep := PersistEnd(snap)), Store(snap), Same, [Entered(snap.status)])
      else
        To(k.(ep := last))
    case PersistEnd(snap) => Move(k.(ep := PublishEnd(snap)), Save(snap), Same, [SentToDatabase(snap.status)])
    case PublishEnd(snap) => Move(k.(ep := last), Nothing, Same, Publishing(snap.status))
    case ReturnPermit => Move(k.(ep := Finished), Nothing, Same, [PermitReturned])
    case Finished => To(k)
  }

  /** The next move of task `k` when the environment chooses `e`. */
  function NextMove(c: EngineConfig, s: State, k: Task, e: Choice): Move {
    match k
    case Checker(_, _, _, _) => CheckMove(c, s, k, e)
    case Adder(_, _, _) => AddMove(k, e)
    case Answered(_, _) => To(k)
    case Gone => To(k)
    case Orphan(_, _) => To(k)
    case Starter(_, _) => StartMove(c, s, k, e)
    case Worker(_, _, _) => WorkMove(s, k, e)
    case Winder(_, _, _, _) => WindMove(k)
    case Closer(_, _, _) => CloseMove(s, k, e)
    // HTTP handlers that read the job table.
    case Viewer(vp) => To(Viewer(if vp.WaitView? then Viewing else Viewed))
  }

  /** What the environment may choose for a task standing at `k`. */
  ghost predicate Allowed(c: EngineConfig, s: State, k: Task, e: Choice) {
    && (e.applied ==> c.hasDatabase)
    && match k
       case Checker(_, _, rid, Lookup) => rid.Some? ==> IsLookup(s.jobs, rid.value, e.found)
       case Checker(_, _, _, Admitted) => e.idMs >= s.past.floor
       case Adder(_, _, Prune) => IsPruned(s.jobs, e.kept, c.maxJobs)
       case Starter(_, CallLock(Some(key))) => LockAnswerFits(c, key, e.lock)
       case _ => true
  }

  predicate LockAnswerFits(c: EngineConfig, key: string, outcome: LockOutcome) {
    match outcome
    case Disabled => !c.coordinationEnabled
    case Acquired(grant) => c.coordinationEnabled && grant.key == key && grant.holder == c.holder
    case Busy(k) => c.coordinationEnabled && k == key
    case Unavailable(_) => c.coordinationEnabled
  }

  /** Task `t` may move now, and the environment may choose `e`. */
  ghost predicate CanStep(c: EngineConfig, s: State, t: nat, e: Choice) {
    && t < |s.tasks| && !IsDone(s.tasks[t])
    && Allowed(c, s, s.tasks[t], e)
    && Available(s.locks, s.tasks[t], NextMove(c, s, s.tasks[t], e).next)
  }

  function Tally(ctr: Counters, bump: Bump): Counters {
    match bump
    case Submitted => ctr.(submitted := ctr.submitted + 1)
    case Running1 => ctr.(running := ctr.running + 1)
    case Running0 => ctr.(running := ctr.running - 1)
    case Succeeded1 => ctr.(succeeded := ctr.succeeded + 1)
    case Failed1 => ctr.(failed := ctr.failed + 1)
    case Rejected => ctr.(rejected := ctr.rejected + 1)
    case CommandFailed => ctr.(commandFailures := ctr.commandFailures + 1)
    case LockAcquired => ctr.(locksAcquired := ctr.locksAcquired + 1)
    case LockFailed1 => ctr.(lockFailures := ctr.lockFailures + 1)
    case LockTolerated => ctr.(lockFailures := ctr.lockFailures + 1)
    case _ => ctr
  }

  function NewTasks(tasks: seq<Task>, t: nat, m: Move): seq<Task>
    requires t < |tasks|
  {
    if m.change.Hatch? then tasks[t := m.next] + [m.change.runner] else tasks[t := m.next]
  }

  function NewJobs(jobs: Table, change: Change): Table {
    match change
    case Store(rec) => jobs[rec.id := rec]
    case Retain(kept) => kept
    case _ => jobs
  }

  function NewIds(ids: set<string>, change: Change): set<string> {
    match change
    case Claim(requestId) => ids + {requestId}
    case Forget(requestId) => ids - {requestId}
    case Retain(kept) => ids * ClaimedIds(kept)
    case _ => ids
  }

  /** `persist_job`: the write may be applied or not, and the caller never learns which. */
  function NewRows(rows: Rows, change: Change, applied: bool): Rows {
    if change.Save? && applied then Upsert(rows, change.rec) else rows
  }

  function NewSaved(saved: Table, change: Change, applied: bool): Table {
    if change.Save? && applied then saved[change.rec.id := change.rec] else saved
  }

  /** A numbered submission is entered; the runner it spawns takes its job over. */
  function NewBook(book: map<JobId, Entry>, t: nat, size: nat, change: Change): map<JobId, Entry> {
    match change
    case Enroll(rec) => book[rec.id := Entry(t, rec)]
    case Hatch(Starter(id, _)) => if id in book then book[id := book[id].(owner := size)] else book
    case _ => book
  }

  function NewTrace(trace: map<JobId, seq<Effect>>, k: Task, m: Move): map<JobId, seq<Effect>> {
    if m.change.Enroll? then
      trace[m.change.rec.id := []]
    else
      match Owned(k)
      case Some(id) => trace[id := (if id in trace then trace[id] else []) + m.fx]
      case None => trace
  }

  /** The job a task works for. */
  function Owned(k: Task): Option<JobId> {
    match k
    case Adder(_, rec, _) => Some(rec.id)
    case Orphan(rec, _) => Some(rec.id)
    case Starter(id, _) => Some(id)
    case Worker(id, _, _) => Some(id)
    case Winder(id, _, _, _) => Some(id)
    case Closer(id, _, _) => Some(id)
    case _ => None
  }

  function NewPast(s: State, t: nat, m: Move, applied: bool): History
    requires t < |s.tasks|
  {
    History(
      NewBook(s.past.book, t, |s.tasks|, m.change),
      NewTrace(s.past.trace, s.tasks[t], m),
      NewSaved(s.past.saved, m.change, applied),
      s.past.floor,
      s.past.tolerated + (if m.bump.LockTolerated? then 1 else 0),
      s.past.released + (if m.bump.LockReturned? then 1 else 0))
  }

  /** The state after task `t` has made move `m`. */
  function Apply(s: State, t: nat, m: Move, applied: bool): State
    requires t < |s.tasks| && Available(s.locks, s.tasks[t], m.next)
  {
    State(
      NewJobs(s.jobs, m.change),
      NewIds(s.ids, m.change),
      Relock(s.locks, t, s.tasks[t], m.next),
      Tally(s.ctr, m.bump),
      NewTasks(s.tasks, t, m),
      NewRows(s.rows, m.change, applied),
      NewPast(s, t, m, applied))
  }

  const NATS_SOURCE := "nats"

  /** The places where a submission before its number waits: for one of the two locks. */
  predicate CheckAwaits(cp: CheckPc) {
    cp.WaitIds? || cp.WaitLookup? || cp.WaitAdmit?
  }

  /** The places where it waits after that: for a lock or for the database. */
  predicate AddAwaits(ap: AddPc) {
    ap.WaitInsert? || ap.PersistNew? || ap.WaitPruneIds? || ap.WaitPruneJobs?
  }

  /**
   * HTTP and webhook submissions run inside the handler's future, which the web server drops when the
   * client disconnects; the NATS intake runs in a task of its own.
   */
  predicate CanDrop(k: Task) {
    match k
    case Checker(_, source, _, cp) => source != NATS_SOURCE && CheckAwaits(cp)
    case Adder(_, rec, ap) => rec.source != NATS_SOURCE && AddAwaits(ap)
    case Viewer(vp) => vp.WaitView?
    case _ => false
  }

  /** Dropping a future drops the guards in its scope and does nothing else. */
  function DropMove(k: Task): Move {
    match k
    case Adder(_, rec, ap) => To(Orphan(rec, ap))
    case Viewer(_) => To(Viewer(Viewed))
    case _ => To(Gone)
  }

  /**
   * What may happen next: a new arrival, a move of a task, the drop of a handler, or the end of the
   * process and a new boot.
   */
  datatype Event =
    | Submit(request: BuildRequest, source: string)
    | View
    | Step(t: nat, choice: Choice)
    | Drop(t: nat)
    | Restart(floor: nat, recovered: bool, atMs: nat)

  ghost predicate Can(c: EngineConfig, s: State, ev: Event) {
    match ev
    case Submit(_, _) => true
    case View => true
    case Step(t, e) => CanStep(c, s, t, e)
    case Drop(t) => t < |s.tasks| && CanDrop(s.tasks[t])
    // One process at a time, and a clock that has advanced past every id handed out so far.
    case Restart(floor, recovered, _) =>
      && floor >= s.past.floor && (forall id :: id in s.past.book ==> id.atMs < floor)
      && (recovered ==> c.hasDatabase)
  }

  ghost function Next(c: EngineConfig, s: State, ev: Event): State
    requires Can(c, s, ev)
  {
    match ev
    case Submit(request, source) =>
      s.(tasks := s.tasks + [Checker(request, source, RequestId(request), Arrived)])
    case View => s.(tasks := s.tasks + [Viewer(WaitView)])
    case Step(t, e) => Apply(s, t, NextMove(c, s, s.tasks[t], e), e.applied)
    case Drop(t) => Apply(s, t, DropMove(s.tasks[t]), false)
    case Restart(floor, recovered, atMs) =>
      if recovered then Boot(c, Recover(s.rows, atMs), RecoverRecords(s.past.saved, atMs), floor)
      else Boot(c, s.rows, s.past.saved, floor)
  }

  /** The first process starts with an empty database. */
  ghost predicate Init(c: EngineConfig, s: State) {
    s == Boot(c, map[], map[], 0)
  }

  /** A finite run: every state follows from the one before by an event that may happen there. */
  ghost predicate IsRun(c: EngineConfig, run: seq<State>, events: seq<Event>) {
    && |run| == |events| + 1
    && Init(c, run[0])
    && forall i :: 0 <= i < |events| ==> Can(c, run[i], events[i]) && run[i + 1] == Next(c, run[i], events[i])
  }
}
