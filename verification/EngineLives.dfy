/** What the world answered about each job, read off the events, and what became of the job by it. */
module EngineLives {
  import opened Wrappers
  import opened Types
  import opened JobTable
  import opened Engine
  import opened EngineInvariants
  import opened EngineJobs
  import opened EngineOwners
  import opened EngineSafety

  datatype Submission = Submission(request: BuildRequest, source: string, atMs: nat)

  /** The submission, the answer of the lock service, the executor's result, and two clock readings. */
  datatype Life = Life(
    submission: Option<Submission>,
    lock: Option<LockOutcome>,
    startedAt: Option<nat>,
    answer: Option<Option<string>>,
    endedAt: Option<nat>)

  const UNBORN := Life(None, None, None, None, None)

  /** What a step of task `k` adds to the life of job `id`: the answer that its program counter waits for. */
  function Heard(life: Life, k: Task, e: Choice, submitted: nat, id: JobId): Life {
    match k
    case Checker(request, source, _, Admitted) =>
      if id == JobId(e.idMs, submitted + 1) then UNBORN.(submission := Some(Submission(request, source, e.nowMs)))
      else life
    case Starter(owner, CallLock(Some(_))) => if owner == id then life.(lock := Some(e.lock)) else life
    case Worker(owner, _, SetRun) => if owner == id then life.(startedAt := Some(e.nowMs)) else life
    case Worker(owner, _, Execute(_)) => if owner == id then life.(answer := Some(e.error)) else life
    case Closer(owner, _, SetEnd) => if owner == id then life.(endedAt := Some(e.nowMs)) else life
    case _ => life
  }

  /** The life of job `id` in this process after the first `i` events. */
  ghost function LifeOf(run: seq<State>, events: seq<Event>, i: nat, id: JobId): Life
    requires i <= |events| < |run|
  {
    if i == 0 || events[i - 1].Restart? then UNBORN
    else if events[i - 1].Step? && events[i - 1].t < |run[i - 1].tasks| then
      Heard(LifeOf(run, events, i - 1, id), run[i - 1].tasks[events[i - 1].t], events[i - 1].choice,
            run[i - 1].ctr.submitted, id)
    else LifeOf(run, events, i - 1, id)
  }

  /** Why the lock stage refuses a job, if it does. */
  function Refusal(required: bool, lock: LockOutcome): Option<string> {
    match lock
    case Busy(key) => Some("another build holds the fiducia lock for " + key + "; retry later")
    case Unavailable(error) =>
      if required then Some("fiducia coordination is required but unavailable: " + error) else None
    case _ => None
  }

  function GrantIn(lock: LockOutcome): Option<LockGrant> {
    if lock.Acquired? then Some(lock.grant) else None
  }

  predicate IsRefused(c: EngineConfig, life: Life) {
    life.lock.Some? && Refusal(c.coordinationRequired, life.lock.value).Some?
  }

  /** The record that such a life leaves, field by field. */
  function RecordOf(c: EngineConfig, id: JobId, life: Life): JobRecord
    requires life.submission.Some?
  {
    var submission := life.submission.value;
    var grant := if life.startedAt.Some? && life.lock.Some? then GrantIn(life.lock.value) else None;
    var error :=
      if life.endedAt.None? then None
      else if IsRefused(c, life) then Refusal(c.coordinationRequired, life.lock.value)
      else life.answer.GetOr(None);
    JobRecord(
      id,
      if life.endedAt.Some? then (if error.None? then Succeeded else Failed)
      else if life.startedAt.Some? then Running else Queued,
      submission.request,
      submission.source,
      match submission.request.executor { case Some(executor) => executor case None => "local" },
      submission.atMs,
      life.startedAt,
      life.endedAt,
      c.logPath(id),
      error,
      if grant.Some? then Some(grant.value.key) else None,
      if grant.Some? then Some(grant.value.fencingToken) else None)
  }

  // How far a life has come, given where the owner of the job stands.

  predicate Passed(c: EngineConfig, life: Life, grant: Option<LockGrant>) {
    life.lock.Some? && !IsRefused(c, life) && grant == GrantIn(life.lock.value)
  }

  predicate StageFits(c: EngineConfig, k: Task, life: Life) {
    match k
    case Adder(_, _, _) => life.lock.None? && life.startedAt.None? && life.answer.None? && life.endedAt.None?
    case Orphan(_, _) => life.lock.None? && life.startedAt.None? && life.answer.None? && life.endedAt.None?
    case Starter(_, sp) =>
      && life.startedAt.None? && life.answer.None? && life.endedAt.None?
      && if sp.LockFailed? then
           life.lock.Some? && Refusal(c.coordinationRequired, life.lock.value) == Some(sp.reason)
         else life.lock.None?
    case Worker(_, grant, wp) =>
      && Passed(c, life, grant) && life.answer.None? && life.endedAt.None?
      && (life.startedAt.None? <==> wp.Begin? || wp.WaitRun? || wp.SetRun?)
    case Winder(_, grant, error, _) =>
      Passed(c, life, grant) && life.answer == Some(error) && life.startedAt.Some? && life.endedAt.None?
    case Closer(_, verdict, ep) =>
      && (life.endedAt.None? <==> ep.WaitEnd? || ep.SetEnd?)
      && (match verdict
          case Denied(reason) =>
            && life.lock.Some? && Refusal(c.coordinationRequired, life.lock.value) == Some(reason)
            && life.startedAt.None? && life.answer.None?
          case Ran(grant, error) => Passed(c, life, grant) && life.answer == Some(error) && life.startedAt.Some?)
    case _ => true
  }

  predicate SubmissionFits(c: EngineConfig, id: JobId, first: JobRecord, life: Life) {
    life.submission.Some? && first == RecordOf(c, id, UNBORN.(submission := life.submission))
  }

  predicate TimesFit(jobs: Table, id: JobId, life: Life) {
    id in jobs ==> jobs[id].startedAtMs == life.startedAt && jobs[id].finishedAtMs == life.endedAt
  }

  /** The snapshot that a task has taken of its job, to be written and published. */
  function Snapshot(k: Task): Option<JobRecord> {
    match k
    case Adder(_, rec, _) => Some(rec)
    case Worker(_, _, PersistRun(snap)) => Some(snap)
    case Worker(_, _, PublishRun(snap)) => Some(snap)
    case Closer(_, _, PersistEnd(snap)) => Some(snap)
    case Closer(_, _, PublishEnd(snap)) => Some(snap)
    case _ => None
  }

  predicate SnapshotFits(c: EngineConfig, id: JobId, k: Task, life: Life) {
    Snapshot(k).Some? && life.submission.Some? ==> Snapshot(k).value == RecordOf(c, id, life)
  }

  predicate LifeFits(c: EngineConfig, jobs: Table, id: JobId, k: Task, first: JobRecord, life: Life) {
    && StageFits(c, k, life) && SubmissionFits(c, id, first, life) && TimesFit(jobs, id, life)
    && SnapshotFits(c, id, k, life)
  }

  // Every step of an owner keeps the fit.

  lemma EnrolledLife(c: EngineConfig, s: State, k: Task, e: Choice, life: Life)
    requires k.Checker? && CheckMove(c, s, k, e).change.Enroll?
    ensures var m := CheckMove(c, s, k, e);
      var life' := Heard(life, k, e, s.ctr.submitted, m.change.rec.id);
      StageFits(c, m.next, life') && SubmissionFits(c, m.change.rec.id, m.change.rec, life')
      && SnapshotFits(c, m.change.rec.id, m.next, life') && life'.startedAt.None? && life'.endedAt.None?
  {
  }

  lemma AddLife(c: EngineConfig, s: State, k: Task, e: Choice, first: JobRecord, life: Life)
    requires k.Adder? && OwnJob(s.jobs, k.rec.id, k, first) && LifeFits(c, s.jobs, k.rec.id, k, first, life)
    ensures var m := AddMove(k, e);
      && Heard(life, k, e, s.ctr.submitted, k.rec.id) == life
      && StageFits(c, if m.change.Hatch? then m.change.runner else m.next, life)
      && SnapshotFits(c, k.rec.id, if m.change.Hatch? then m.change.runner else m.next, life)
      && (m.change.Store? ==> TimesFit(NewJobs(s.jobs, m.change), k.rec.id, life))
  {
  }

  lemma StartLife(c: EngineConfig, s: State, k: Task, e: Choice, first: JobRecord, life: Life)
    requires k.Starter? && OwnJob(s.jobs, k.id, k, first) && LifeFits(c, s.jobs, k.id, k, first, life)
    ensures var m := StartMove(c, s, k, e); var life' := Heard(life, k, e, s.ctr.submitted, k.id);
      && StageFits(c, m.next, life') && TimesFit(s.jobs, k.id, life') && life'.submission == life.submission
      && m.change.Nothing? && Snapshot(m.next).None?
  {
  }

  lemma WorkLife(c: EngineConfig, s: State, k: Task, e: Choice, first: JobRecord, life: Life)
    requires k.Worker? && OwnJob(s.jobs, k.id, k, first) && LifeFits(c, s.jobs, k.id, k, first, life)
    ensures var m := WorkMove(s, k, e); var life' := Heard(life, k, e, s.ctr.submitted, k.id);
      && StageFits(c, m.next, life') && TimesFit(NewJobs(s.jobs, m.change), k.id, life')
      && SnapshotFits(c, k.id, m.next, life') && life'.submission == life.submission
  {
  }

  lemma WindLife(c: EngineConfig, s: State, k: Task, e: Choice, first: JobRecord, life: Life)
    requires k.Winder? && TaskFact(c, k) && LifeFits(c, s.jobs, k.id, k, first, life)
    ensures StageFits(c, WindMove(k).next, life) && Heard(life, k, e, s.ctr.submitted, k.id) == life
    ensures WindMove(k).change.Nothing? && Snapshot(WindMove(k).next).None?
  {
  }

  lemma CloseLife(c: EngineConfig, s: State, k: Task, e: Choice, first: JobRecord, life: Life)
    requires k.Closer? && !IsDone(k) && OwnJob(s.jobs, k.id, k, first) && LifeFits(c, s.jobs, k.id, k, first, life)
    ensures var m := CloseMove(s, k, e); var life' := Heard(life, k, e, s.ctr.submitted, k.id);
      && StageFits(c, m.next, life') && TimesFit(NewJobs(s.jobs, m.change), k.id, life')
      && life'.submission == life.submission
  {
  }

  /** The last snapshot is the record as its life leaves it. */
  lemma CloseSnapshot(c: EngineConfig, s: State, k: Task, e: Choice, first: JobRecord, life: Life)
    requires k.Closer? && !IsDone(k) && OwnJob(s.jobs, k.id, k, first) && LifeFits(c, s.jobs, k.id, k, first, life)
    ensures SnapshotFits(c, k.id, CloseMove(s, k, e).next, Heard(life, k, e, s.ctr.submitted, k.id))
  {
    if k.ep.SetEnd? {
      assert k.id in s.jobs && SameSubmission(s.jobs[k.id], first);
    }
  }

  lemma OwnerLife(c: EngineConfig, s: State, k: Task, e: Choice, id: JobId, first: JobRecord, life: Life)
    requires Owned(k) == Some(id) && TaskFact(c, k) && !IsDone(k) && Allowed(c, s, k, e)
    requires OwnJob(s.jobs, id, k, first) && LifeFits(c, s.jobs, id, k, first, life)
    ensures var m := NextMove(c, s, k, e);
      LifeFits(c, NewJobs(s.jobs, m.change), id, if m.change.Hatch? then m.change.runner else m.next, first,
               Heard(life, k, e, s.ctr.submitted, id))
  {
    match k
    case Adder(_, _, _) => AddLife(c, s, k, e, first, life);
    case Starter(_, _) => StartLife(c, s, k, e, first, life);
    case Worker(_, _, _) => WorkLife(c, s, k, e, first, life);
    case Winder(_, _, _, _) => WindLife(c, s, k, e, first, life);
    case Closer(_, _, _) =>
      CloseLife(c, s, k, e, first, life);
      CloseSnapshot(c, s, k, e, first, life);
  }

  /** A step of another task says nothing about job `id`. */
  lemma OthersLife(c: EngineConfig, s: State, k: Task, e: Choice, id: JobId, life: Life)
    requires Owned(k) != Some(id)
    requires NextMove(c, s, k, e).change.Enroll? ==> NextMove(c, s, k, e).change.rec.id != id
    ensures Heard(life, k, e, s.ctr.submitted, id) == life
  {
  }

  /** What the invariant says about a step: its owner, its task, and that new numbers are new. */
  lemma StepFacts(c: EngineConfig, s: State, t: nat, e: Choice)
    requires Reachable(c, s) && CanStep(c, s, t, e)
    ensures TaskFact(c, s.tasks[t]) && OwnerRule(s.tasks[t], NextMove(c, s, s.tasks[t], e))
    ensures var change := NextMove(c, s, s.tasks[t], e).change;
      change.Enroll? ==> change.rec.id !in s.past.book && change.rec.id !in s.jobs
  {
    ReachableInv(c, s);
    StepFollowsRules(c, s, t, e);
  }

  lemma JobFacts(c: EngineConfig, s: State, id: JobId)
    requires Reachable(c, s) && id in s.past.book
    ensures s.past.book[id].owner < |s.tasks| && Owned(s.tasks[s.past.book[id].owner]) == Some(id)
    ensures OwnJob(s.jobs, id, s.tasks[s.past.book[id].owner], s.past.book[id].first)
    ensures forall t :: 0 <= t < |s.tasks| && Owned(s.tasks[t]) == Some(id) ==> t == s.past.book[id].owner
  {
    JobsView(c, s);
  }

  /** The fit of one job, whoever makes the next move. */
  ghost predicate JobFits(c: EngineConfig, s: State, id: JobId, life: Life) {
    id in s.past.book ==>
      && s.past.book[id].owner < |s.tasks|
      && LifeFits(c, s.jobs, id, s.tasks[s.past.book[id].owner], s.past.book[id].first, life)
  }

  lemma OwnStepKeepsFit(c: EngineConfig, s: State, t: nat, e: Choice, id: JobId, life: Life)
    requires Reachable(c, s) && CanStep(c, s, t, e) && id in s.past.book && Owned(s.tasks[t]) == Some(id)
    requires JobFits(c, s, id, life)
    ensures JobFits(c, Next(c, s, Step(t, e)), id, Heard(life, s.tasks[t], e, s.ctr.submitted, id))
  {
    StepFacts(c, s, t, e);
    JobFacts(c, s, id);
    OwnerLife(c, s, s.tasks[t], e, id, s.past.book[id].first, life);
    OwnerMoves(s.tasks, s.past.book, t, NextMove(c, s, s.tasks[t], e), id);
  }

  /** Where the owner of the moving job stands afterwards, and what the book says about others. */
  lemma OwnerMoves(tasks: seq<Task>, book: map<JobId, Entry>, t: nat, m: Move, id: JobId)
    requires t < |tasks| && OwnerRule(tasks[t], m) && id in book && book[id].owner < |tasks|
    requires m.change.Enroll? ==> m.change.rec.id != id
    requires Owned(tasks[t]) == Some(id) <==> book[id].owner == t
    ensures var book' := NewBook(book, t, |tasks|, m.change);
      && id in book' && book'[id].first == book[id].first && book'[id].owner < |NewTasks(tasks, t, m)|
      && NewTasks(tasks, t, m)[book'[id].owner] ==
           if book[id].owner != t then tasks[book[id].owner]
           else if m.change.Hatch? then m.change.runner else m.next
  {
  }

  lemma OtherStepKeepsFit(c: EngineConfig, s: State, t: nat, e: Choice, id: JobId, life: Life)
    requires Reachable(c, s) && CanStep(c, s, t, e) && id in s.past.book && Owned(s.tasks[t]) != Some(id)
    requires JobFits(c, s, id, life)
    ensures JobFits(c, Next(c, s, Step(t, e)), id, Heard(life, s.tasks[t], e, s.ctr.submitted, id))
  {
    OtherStepFacts(c, s, t, e, id, life);
    OwnerMoves(s.tasks, s.past.book, t, NextMove(c, s, s.tasks[t], e), id);
  }

  lemma OtherStepFacts(c: EngineConfig, s: State, t: nat, e: Choice, id: JobId, life: Life)
    requires Reachable(c, s) && CanStep(c, s, t, e) && id in s.past.book && Owned(s.tasks[t]) != Some(id)
    ensures var m := NextMove(c, s, s.tasks[t], e);
      && Heard(life, s.tasks[t], e, s.ctr.submitted, id) == life
      && OwnerRule(s.tasks[t], m) && (m.change.Enroll? ==> m.change.rec.id != id)
      && s.past.book[id].owner < |s.tasks| && s.past.book[id].owner != t
      && (id in NewJobs(s.jobs, m.change) ==> id in s.jobs && NewJobs(s.jobs, m.change)[id] == s.jobs[id])
  {
    var m := NextMove(c, s, s.tasks[t], e);
    StepFacts(c, s, t, e);
    JobFacts(c, s, id);
    OthersLife(c, s, s.tasks[t], e, id, life);
    MoveRetains(c, s, s.tasks[t], e);
    if id in NewJobs(s.jobs, m.change) {
      OthersTable(s.jobs, s.tasks[t], m, id);
    }
  }

  lemma OthersTable(jobs: Table, k: Task, m: Move, id: JobId)
    requires OwnerRule(k, m) && Owned(k) != Some(id) && id in NewJobs(jobs, m.change)
    requires m.change.Retain? ==> forall x :: x in m.change.kept ==> x in jobs && m.change.kept[x] == jobs[x]
    ensures id in jobs && NewJobs(jobs, m.change)[id] == jobs[id]
  {
  }

  lemma EnrollmentFits(c: EngineConfig, s: State, t: nat, e: Choice, id: JobId, life: Life)
    requires Reachable(c, s) && CanStep(c, s, t, e) && id !in s.past.book
    ensures JobFits(c, Next(c, s, Step(t, e)), id, Heard(life, s.tasks[t], e, s.ctr.submitted, id))
  {
    StepFacts(c, s, t, e);
    if NextMove(c, s, s.tasks[t], e).change.Enroll? {
      OnlyCheckersEnroll(c, s, s.tasks[t], e);
      EnrolledLife(c, s, s.tasks[t], e, life);
    }
  }

  lemma OnlyCheckersEnroll(c: EngineConfig, s: State, k: Task, e: Choice)
    ensures NextMove(c, s, k, e).change.Enroll? ==> k.Checker?
  {
  }

  lemma DropKeepsFit(c: EngineConfig, s: State, t: nat, id: JobId, life: Life)
    requires Reachable(c, s) && Can(c, s, Drop(t)) && JobFits(c, s, id, life)
    ensures JobFits(c, Next(c, s, Drop(t)), id, life)
  {
    if id in s.past.book {
      JobFacts(c, s, id);
    }
  }

  lemma EventKeepsFit(c: EngineConfig, s: State, ev: Event, id: JobId, life: Life)
    requires Reachable(c, s) && Can(c, s, ev) && JobFits(c, s, id, life)
    ensures var life' := if ev.Step? then Heard(life, s.tasks[ev.t], ev.choice, s.ctr.submitted, id) else life;
      JobFits(c, Next(c, s, ev), id, life')
  {
    match ev
    case Step(t, e) =>
      if id !in s.past.book { EnrollmentFits(c, s, t, e, id, life); }
      else if Owned(s.tasks[t]) == Some(id) { OwnStepKeepsFit(c, s, t, e, id, life); }
      else { OtherStepKeepsFit(c, s, t, e, id, life); }
    case Drop(t) => DropKeepsFit(c, s, t, id, life);
    case _ =>
  }

  lemma {:induction false} RunFits(c: EngineConfig, run: seq<State>, events: seq<Event>, i: nat, id: JobId)
    requires IsRun(c, run, events) && i <= |events|
    ensures JobFits(c, run[i], id, LifeOf(run, events, i, id))
  {
    if i > 0 {
      RunFits(c, run, events, i - 1, id);
      PrefixIsReachable(c, run, events, i - 1);
      assert run[i - 1 + 1] == Next(c, run[i - 1], events[i - 1]);
      EventKeepsFit(c, run[i - 1], events[i - 1], id, LifeOf(run, events, i - 1, id));
    }
  }

  lemma FitTellsRecord(c: EngineConfig, jobs: Table, id: JobId, k: Task, first: JobRecord, life: Life)
    requires OwnJob(jobs, id, k, first) && LifeFits(c, jobs, id, k, first, life) && id in jobs
    ensures life.submission.Some? && jobs[id] == RecordOf(c, id, life)
  {
  }

  /**
   * In every state of every run the record of a job is the one its life leaves: request, source and
   * executor of its submission, the clock readings of its numbering, start and end, the grant it was
   * given, and the outcome and error that the lock service or the executor answered.
   */
  lemma RecordTellsLife(c: EngineConfig, run: seq<State>, events: seq<Event>, i: nat, id: JobId)
    requires IsRun(c, run, events) && i <= |events| && id in run[i].jobs
    ensures var life := LifeOf(run, events, i, id);
      life.submission.Some? && run[i].jobs[id] == RecordOf(c, id, life)
  {
    RunFits(c, run, events, i, id);
    PrefixIsReachable(c, run, events, i);
    BookHasJobs(c, run[i], id);
    JobFacts(c, run[i], id);
    FitTellsRecord(c, run[i].jobs, id, run[i].tasks[run[i].past.book[id].owner], run[i].past.book[id].first,
                   LifeOf(run, events, i, id));
  }

  lemma BookHasJobs(c: EngineConfig, s: State, id: JobId)
    requires Reachable(c, s) && id in s.jobs
    ensures id in s.past.book
  {
    ReachableInv(c, s);
  }

  predicate NoRestart(events: seq<Event>, i: nat, j: nat)
    requires i <= j <= |events|
  {
    forall n :: i <= n < j ==> !events[n].Restart?
  }

  predicate KeepsAnswers(before: Life, after: Life) {
    && (before.lock.Some? ==> after.lock == before.lock)
    && (before.answer.Some? ==> after.answer == before.answer)
  }

  /** Once answered, a question is not asked again in the same process. */
  lemma OwnerKeepsAnswers(c: EngineConfig, k: Task, e: Choice, submitted: nat, id: JobId, life: Life)
    requires Owned(k) == Some(id) && StageFits(c, k, life)
    ensures KeepsAnswers(life, Heard(life, k, e, submitted, id))
  {
  }

  lemma StepKeepsAnswers(c: EngineConfig, s: State, t: nat, e: Choice, id: JobId, life: Life)
    requires Reachable(c, s) && CanStep(c, s, t, e) && id in s.past.book && JobFits(c, s, id, life)
    ensures id in Next(c, s, Step(t, e)).past.book
    ensures KeepsAnswers(life, Heard(life, s.tasks[t], e, s.ctr.submitted, id))
  {
    JobFacts(c, s, id);
    if Owned(s.tasks[t]) == Some(id) {
      OwnerKeepsAnswers(c, s.tasks[t], e, s.ctr.submitted, id, life);
    } else {
      StepFacts(c, s, t, e);
      OthersLife(c, s, s.tasks[t], e, id, life);
    }
  }

  lemma EventKeepsAnswers(c: EngineConfig, run: seq<State>, events: seq<Event>, i: nat, id: JobId)
    requires IsRun(c, run, events) && i < |events| && !events[i].Restart? && id in run[i].past.book
    ensures id in run[i + 1].past.book
    ensures KeepsAnswers(LifeOf(run, events, i, id), LifeOf(run, events, i + 1, id))
  {
    PrefixIsReachable(c, run, events, i);
    RunFits(c, run, events, i, id);
    if events[i].Step? {
      StepKeepsAnswers(c, run[i], events[i].t, events[i].choice, id, LifeOf(run, events, i, id));
    }
  }

  /** The job is numbered, and the answers of `before` are still those of its life. */
  ghost predicate StillHas(run: seq<State>, events: seq<Event>, i: nat, id: JobId, before: Life)
    requires i <= |events| < |run|
  {
    id in run[i].past.book && KeepsAnswers(before, LifeOf(run, events, i, id))
  }

  lemma EventStillHas(c: EngineConfig, run: seq<State>, events: seq<Event>, i: nat, id: JobId, before: Life)
    requires IsRun(c, run, events) && i < |events| && !events[i].Restart? && StillHas(run, events, i, id, before)
    ensures StillHas(run, events, i + 1, id, before)
  {
    EventKeepsAnswers(c, run, events, i, id);
  }

  lemma {:induction false} AnswersStay(c: EngineConfig, run: seq<State>, events: seq<Event>, i: nat, j: nat, id: JobId,
                                       before: Life)
    requires IsRun(c, run, events) && i <= j <= |events| && NoRestart(events, i, j)
    requires StillHas(run, events, i, id, before)
    ensures StillHas(run, events, j, id, before)
    decreases j - i
  {
    if i < j {
      EventStillHas(c, run, events, i, id, before);
      AnswersStay(c, run, events, i + 1, j, id, before);
    }
  }

  /** The task that hears an answer is the owner, and the life after the step has the answer. */
  lemma AnswerIsHeard(c: EngineConfig, run: seq<State>, events: seq<Event>, i: nat, id: JobId)
    requires IsRun(c, run, events) && i < |events| && events[i].Step? && Owned(run[i].tasks[events[i].t]) == Some(id)
    ensures id in run[i + 1].past.book
    ensures LifeOf(run, events, i + 1, id) ==
      Heard(LifeOf(run, events, i, id), run[i].tasks[events[i].t], events[i].choice, run[i].ctr.submitted, id)
  {
    PrefixIsReachable(c, run, events, i);
    JobsView(c, run[i]);
    EventKeepsAnswers(c, run, events, i, id);
  }

  lemma AnsweredEnd(c: EngineConfig, id: JobId, k: Task, life: Life)
    requires StageFits(c, k, life) && Owned(k) == Some(id) && life.submission.Some? && life.answer.Some?
    ensures var rec := RecordOf(c, id, life);
      IsTerminal(rec.status) ==> rec.error == life.answer.value && (rec.status.Succeeded? <==> rec.error.None?)
  {
  }

  lemma RefusedEnd(c: EngineConfig, id: JobId, k: Task, life: Life)
    requires StageFits(c, k, life) && Owned(k) == Some(id) && life.submission.Some? && IsRefused(c, life)
    ensures !k.Worker? && life.startedAt.None?
    ensures var rec := RecordOf(c, id, life);
      IsTerminal(rec.status) ==>
        rec.status.Failed? && rec.error == Refusal(c.coordinationRequired, life.lock.value)
  {
  }

  /** A life's owner, at any time. */
  lemma OwnerFits(c: EngineConfig, run: seq<State>, events: seq<Event>, i: nat, id: JobId) returns (owner: nat)
    requires IsRun(c, run, events) && i <= |events| && id in run[i].past.book
    ensures owner < |run[i].tasks| && Owned(run[i].tasks[owner]) == Some(id)
    ensures StageFits(c, run[i].tasks[owner], LifeOf(run, events, i, id)) && LifeOf(run, events, i, id).submission.Some?
    ensures forall t :: 0 <= t < |run[i].tasks| && Owned(run[i].tasks[t]) == Some(id) ==> t == owner
  {
    RunFits(c, run, events, i, id);
    PrefixIsReachable(c, run, events, i);
    JobFacts(c, run[i], id);
    owner := run[i].past.book[id].owner;
  }

  lemma ExecutorAnswerStays(c: EngineConfig, run: seq<State>, events: seq<Event>, i: nat, j: nat)
    requires IsRun(c, run, events) && i < j <= |events| && NoRestart(events, i, j) && events[i].Step?
    requires run[i].tasks[events[i].t].Worker? && run[i].tasks[events[i].t].wp.Execute?
    ensures var id := run[i].tasks[events[i].t].id;
      id in run[j].past.book && LifeOf(run, events, j, id).answer == Some(events[i].choice.error)
  {
    var id := run[i].tasks[events[i].t].id;
    AnswerIsHeard(c, run, events, i, id);
    AnswersStay(c, run, events, i + 1, j, id, LifeOf(run, events, i + 1, id));
  }

  /**
   * The executor's result decides: whatever happens afterwards, a job that it was given for ends as
   * succeeded if and only if the result was no error, and shows exactly that error otherwise.
   */
  lemma ExecutorDecides(c: EngineConfig, run: seq<State>, events: seq<Event>, i: nat, j: nat)
    requires IsRun(c, run, events) && i < j <= |events| && NoRestart(events, i, j)
    requires events[i].Step? && run[i].tasks[events[i].t].Worker? && run[i].tasks[events[i].t].wp.Execute?
    ensures var id, error := run[i].tasks[events[i].t].id, events[i].choice.error;
      id in run[j].jobs && IsTerminal(run[j].jobs[id].status) ==>
        && (run[j].jobs[id].status.Succeeded? <==> error.None?)
        && run[j].jobs[id].error == error
  {
    var id := run[i].tasks[events[i].t].id;
    ExecutorAnswerStays(c, run, events, i, j);
    var owner := OwnerFits(c, run, events, j, id);
    AnsweredEnd(c, id, run[j].tasks[owner], LifeOf(run, events, j, id));
    if id in run[j].jobs {
      RecordTellsLife(c, run, events, j, id);
    }
  }

  /** Whoever asks for a lock knows its key. */
  lemma AskerHasKey(c: EngineConfig, run: seq<State>, events: seq<Event>, i: nat, t: nat)
    requires IsRun(c, run, events) && i <= |events| && t < |run[i].tasks|
    requires run[i].tasks[t].Starter? && run[i].tasks[t].sp.CallLock?
    ensures run[i].tasks[t].sp.key.Some?
  {
    PrefixIsReachable(c, run, events, i);
    JobsView(c, run[i]);
    var first := OwnedJob(c, run[i], t);
  }

  lemma LockAnswerIsHeard(c: EngineConfig, run: seq<State>, events: seq<Event>, i: nat)
    requires IsRun(c, run, events) && i < |events| && events[i].Step?
    requires run[i].tasks[events[i].t].Starter? && run[i].tasks[events[i].t].sp.CallLock?
    ensures var id := run[i].tasks[events[i].t].id;
      id in run[i + 1].past.book && LifeOf(run, events, i + 1, id).lock == Some(events[i].choice.lock)
  {
    AskerHasKey(c, run, events, i, events[i].t);
    AnswerIsHeard(c, run, events, i, run[i].tasks[events[i].t].id);
  }

  lemma LockAnswerStays(c: EngineConfig, run: seq<State>, events: seq<Event>, i: nat, j: nat)
    requires IsRun(c, run, events) && i < j <= |events| && NoRestart(events, i, j) && events[i].Step?
    requires run[i].tasks[events[i].t].Starter? && run[i].tasks[events[i].t].sp.CallLock?
    ensures var id := run[i].tasks[events[i].t].id;
      id in run[j].past.book && LifeOf(run, events, j, id).lock == Some(events[i].choice.lock)
  {
    var id := run[i].tasks[events[i].t].id;
    LockAnswerIsHeard(c, run, events, i);
    AnswersStay(c, run, events, i + 1, j, id, LifeOf(run, events, i + 1, id));
  }

  lemma RefusedEndsSo(c: EngineConfig, run: seq<State>, events: seq<Event>, j: nat, id: JobId, lock: LockOutcome)
    requires IsRun(c, run, events) && j <= |events| && id in run[j].past.book
    requires LifeOf(run, events, j, id).lock == Some(lock) && Refusal(c.coordinationRequired, lock).Some?
    ensures forall u :: 0 <= u < |run[j].tasks| && Owned(run[j].tasks[u]) == Some(id) ==> !run[j].tasks[u].Worker?
    ensures id in run[j].jobs && IsTerminal(run[j].jobs[id].status) ==>
      && run[j].jobs[id].status.Failed? && run[j].jobs[id].startedAtMs.None?
      && run[j].jobs[id].error == Refusal(c.coordinationRequired, lock)
  {
    var owner := OwnerFits(c, run, events, j, id);
    RefusedEnd(c, id, run[j].tasks[owner], LifeOf(run, events, j, id));
    if id in run[j].jobs {
      RecordTellsLife(c, run, events, j, id);
    }
  }

  /**
   * So does the lock service: a job that it refuses, by holding the lock elsewhere or, where a lock is
   * required, by being unavailable, never gets into its executor and ends as failed with that reason.
   */
  lemma LockRefusalDecides(c: EngineConfig, run: seq<State>, events: seq<Event>, i: nat, j: nat, u: nat)
    requires IsRun(c, run, events) && i < j <= |events| && NoRestart(events, i, j)
    requires events[i].Step? && run[i].tasks[events[i].t].Starter? && run[i].tasks[events[i].t].sp.CallLock?
    requires events[i].choice.lock.Busy? || (events[i].choice.lock.Unavailable? && c.coordinationRequired)
    ensures var id, lock := run[i].tasks[events[i].t].id, events[i].choice.lock;
      && (u < |run[j].tasks| ==> !(run[j].tasks[u].Worker? && run[j].tasks[u].id == id))
      && (id in run[j].jobs && IsTerminal(run[j].jobs[id].status) ==>
            && run[j].jobs[id].status.Failed? && run[j].jobs[id].startedAtMs.None?
            && run[j].jobs[id].error == Some(
                 if lock.Busy? then "another build holds the fiducia lock for " + lock.key + "; retry later"
                 else "fiducia coordination is required but unavailable: " + lock.error))
  {
    var id, lock := run[i].tasks[events[i].t].id, events[i].choice.lock;
    LockAnswerStays(c, run, events, i, j);
    RefusedEndsSo(c, run, events, j, id, lock);
  }
}
