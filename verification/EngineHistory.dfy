/** What one job has done when its runner has finished, and at any time before. */
module EngineHistory {
  import opened Wrappers
  import opened Types
  import opened JobTable
  import opened Engine
  import opened EngineInvariants
  import opened EngineLives
  import opened EngineSafety

  /** The concatenation of what `f` reads off each effect. */
  function Collect<T>(trace: seq<Effect>, f: Effect -> seq<T>): seq<T> {
    if trace == [] then [] else f(trace[0]) + Collect(trace[1..], f)
  }

  function AsStatus(x: Effect): seq<BuildStatus> { if x.Entered? then [x.status] else [] }

  function AsSave(x: Effect): seq<BuildStatus> { if x.SentToDatabase? then [x.status] else [] }

  function AsEvent(x: Effect): seq<BuildStatus> { if x.Published? && x.subject.Events? then [x.status] else [] }

  function AsResult(x: Effect): seq<BuildStatus> { if x.Published? && x.subject.Results? then [x.status] else [] }

  function AsCritical(x: Effect): seq<BuildStatus> { if x.Published? && x.subject.Critical? then [x.status] else [] }

  /** The calls that take and give back the permit and the distributed lock, and the executor. */
  function AsHolding(x: Effect): seq<Effect> {
    if x.PermitTaken? || x.PermitReturned? || x.LockGranted? || x.LockReleased? || x.Began? then [x] else []
  }

  lemma {:induction false} CollectConcat<T>(a: seq<Effect>, b: seq<Effect>, f: Effect -> seq<T>)
    ensures Collect(a + b, f) == Collect(a, f) + Collect(b, f)
  {
    if a == [] {
      assert a + b == b;
    } else {
      assert (a + b)[1..] == a[1..] + b;
      CollectConcat(a[1..], b, f);
    }
  }

  lemma CollectOne<T>(x: Effect, f: Effect -> seq<T>)
    ensures Collect([x], f) == f(x)
  {
    assert [x][1..] == [];
  }

  /** One stage of a history: what came before, then one more effect. */
  lemma CollectStage<T>(before: seq<Effect>, x: Effect, f: Effect -> seq<T>)
    ensures Collect(before + [x], f) == Collect(before, f) + f(x)
  {
    CollectConcat(before, [x], f);
    CollectOne(x, f);
  }

  /** The messages of one status, in order. */
  function PublishedBy<T>(status: BuildStatus, f: Effect -> seq<T>): seq<T> {
    f(Published(Events, status))
    + (if IsTerminal(status) then f(Published(Results, status)) else [])
    + (if status.Failed? then f(Published(Critical, status)) else [])
  }

  lemma CollectPublishing<T>(before: seq<Effect>, status: BuildStatus, f: Effect -> seq<T>)
    ensures Collect(before + Publishing(status), f) == Collect(before, f) + PublishedBy(status, f)
  {
    CollectConcat(before, Publishing(status), f);
    var e, r, x := Published(Events, status), Published(Results, status), Published(Critical, status);
    CollectOne(e, f);
    CollectStage([e], r, f);
    CollectStage([e, r], x, f);
    assert [e] + [r] == [e, r] && [e, r] + [x] == [e, r, x];
  }

  function PermitPart<T>(f: Effect -> seq<T>): seq<T> {
    f(Entered(Queued)) + f(SentToDatabase(Queued)) + f(PermitTaken)
  }

  function RunPart<T>(grant: Option<LockGrant>, f: Effect -> seq<T>): seq<T> {
    PermitPart(f)
    + (if grant.Some? then f(LockGranted(grant.value.fencingToken)) else [])
    + f(Entered(Running)) + f(SentToDatabase(Running)) + PublishedBy(Running, f)
    + f(Began)
    + (if grant.Some? then f(LockReleased(grant.value.fencingToken)) else [])
    + f(PermitReturned)
  }

  function EndPart<T>(status: BuildStatus, f: Effect -> seq<T>): seq<T> {
    f(Entered(status)) + f(SentToDatabase(status)) + PublishedBy(status, f)
  }

  lemma CollectPermit<T>(f: Effect -> seq<T>)
    ensures Collect(FxPermit(), f) == PermitPart(f)
  {
    CollectOne(Entered(Queued), f);
    CollectStage(FxSubmitted(), SentToDatabase(Queued), f);
    CollectStage(FxSaved(), PermitTaken, f);
  }

  lemma CollectRun<T>(grant: Option<LockGrant>, f: Effect -> seq<T>)
    ensures Collect(FxReturned(grant), f) == RunPart(grant, f)
  {
    CollectPermit(f);
    if grant.Some? {
      CollectStage(FxPermit(), LockGranted(grant.value.fencingToken), f);
      CollectStage(FxBegan(grant), LockReleased(grant.value.fencingToken), f);
    } else {
      assert FxGranted(grant) == FxPermit() && FxReleased(grant) == FxBegan(grant);
    }
    CollectStage(FxGranted(grant), Entered(Running), f);
    CollectStage(FxRunning(grant), SentToDatabase(Running), f);
    CollectPublishing(FxRunSaved(grant), Running, f);
    CollectStage(FxRunPublished(grant), Began, f);
    CollectStage(FxReleased(grant), PermitReturned, f);
  }

  lemma CollectEnd<T>(verdict: Verdict, f: Effect -> seq<T>)
    ensures Collect(FxEndPublished(verdict), f) == Collect(FxBefore(verdict), f) + EndPart(StatusOf(verdict), f)
  {
    CollectStage(FxBefore(verdict), Entered(StatusOf(verdict)), f);
    CollectStage(FxEnded(verdict), SentToDatabase(StatusOf(verdict)), f);
    CollectPublishing(FxEndSaved(verdict), StatusOf(verdict), f);
  }

  lemma CollectDone<T>(verdict: Verdict, f: Effect -> seq<T>)
    ensures Collect(FxDone(verdict), f) ==
      (if verdict.Denied? then PermitPart(f) + EndPart(Failed, f) + f(PermitReturned)
       else RunPart(verdict.grant, f) + EndPart(StatusOf(verdict), f))
  {
    CollectEnd(verdict, f);
    match verdict
    case Denied(_) =>
      CollectPermit(f);
      CollectStage(FxEndPublished(verdict), PermitReturned, f);
    case Ran(grant, _) =>
      CollectRun(grant, f);
  }

  ghost predicate Finishes(c: EngineConfig, s: State, t: nat) {
    Reachable(c, s) && t < |s.tasks| && s.tasks[t].Closer? && s.tasks[t].ep.Finished?
  }

  /** The whole history of a finished job is known from how it ended. */
  lemma FinishedJobTrace(c: EngineConfig, s: State, t: nat)
    requires Finishes(c, s, t)
    ensures s.tasks[t].id in s.past.trace && s.past.trace[s.tasks[t].id] == FxDone(s.tasks[t].verdict)
  {
    TaskTrace(c, s, t);
  }

  /** What a job has done so far is a function of where its task stands. */
  lemma TaskTrace(c: EngineConfig, s: State, t: nat)
    requires Reachable(c, s) && t < |s.tasks| && Owned(s.tasks[t]).Some?
    ensures Owned(s.tasks[t]).value in s.past.trace
    ensures s.past.trace[Owned(s.tasks[t]).value] == Expected(s.tasks[t])
  {
    ReachableInv(c, s);
    OwnerTrace(s.tasks, s.past.book, s.past.trace, t);
  }

  lemma OwnerTrace(tasks: seq<Task>, book: map<JobId, Entry>, trace: map<JobId, seq<Effect>>, t: nat)
    requires OwnersOk(tasks, book) && TraceOk(tasks, book, trace) && t < |tasks| && Owned(tasks[t]).Some?
    ensures Owned(tasks[t]).value in trace && trace[Owned(tasks[t]).value] == Expected(tasks[t])
  {
  }

  /** What a finished job did to its status, in memory and towards the database. */
  function StatusPath(verdict: Verdict): seq<BuildStatus> {
    if verdict.Denied? then [Queued, Failed] else [Queued, Running, StatusOf(verdict)]
  }

  /** What a permit, a run and an end contribute when they are read by `f`. */
  lemma StatusParts(grant: Option<LockGrant>, status: BuildStatus)
    ensures PermitPart(AsStatus) == [Queued] && RunPart(grant, AsStatus) == [Queued, Running]
    ensures EndPart(status, AsStatus) == [status]
  {
  }

  lemma SaveParts(grant: Option<LockGrant>, status: BuildStatus)
    ensures PermitPart(AsSave) == [Queued] && RunPart(grant, AsSave) == [Queued, Running]
    ensures EndPart(status, AsSave) == [status]
  {
  }

  lemma EventParts(grant: Option<LockGrant>, status: BuildStatus)
    ensures PermitPart(AsEvent) == [] && RunPart(grant, AsEvent) == [Running]
    ensures EndPart(status, AsEvent) == [status]
  {
  }

  lemma ResultParts(grant: Option<LockGrant>, status: BuildStatus)
    requires IsTerminal(status)
    ensures PermitPart(AsResult) == [] && RunPart(grant, AsResult) == []
    ensures EndPart(status, AsResult) == [status]
  {
  }

  lemma CriticalParts(grant: Option<LockGrant>, status: BuildStatus)
    ensures PermitPart(AsCritical) == [] && RunPart(grant, AsCritical) == []
    ensures EndPart(status, AsCritical) == if status.Failed? then [Failed] else []
  {
  }

  function GrantOf(verdict: Verdict): Option<LockGrant> {
    if verdict.Ran? then verdict.grant else None
  }

  lemma DoneStatuses(verdict: Verdict)
    ensures Collect(FxDone(verdict), AsStatus) == StatusPath(verdict)
  {
    CollectDone(verdict, AsStatus);
    StatusParts(GrantOf(verdict), StatusOf(verdict));
    assert AsStatus(PermitReturned) == [];
  }

  lemma DoneSaves(verdict: Verdict)
    ensures Collect(FxDone(verdict), AsSave) == StatusPath(verdict)
  {
    CollectDone(verdict, AsSave);
    SaveParts(GrantOf(verdict), StatusOf(verdict));
    assert AsSave(PermitReturned) == [];
  }

  lemma DoneEvents(verdict: Verdict)
    ensures Collect(FxDone(verdict), AsEvent) == StatusPath(verdict)[1..]
  {
    CollectDone(verdict, AsEvent);
    EventParts(GrantOf(verdict), StatusOf(verdict));
    assert AsEvent(PermitReturned) == [];
  }

  lemma DoneResults(verdict: Verdict)
    ensures Collect(FxDone(verdict), AsResult) == [StatusOf(verdict)]
  {
    CollectDone(verdict, AsResult);
    ResultParts(GrantOf(verdict), StatusOf(verdict));
    assert AsResult(PermitReturned) == [];
  }

  lemma DoneCriticals(verdict: Verdict)
    ensures Collect(FxDone(verdict), AsCritical) == if StatusOf(verdict).Failed? then [Failed] else []
  {
    CollectDone(verdict, AsCritical);
    CriticalParts(GrantOf(verdict), StatusOf(verdict));
    assert AsCritical(PermitReturned) == [];
  }

  /** The permit, the lock if there is one, and the executor, each taken and given back in turn. */
  function HoldingPath(verdict: Verdict): seq<Effect> {
    match verdict
    case Denied(_) => [PermitTaken, PermitReturned]
    case Ran(grant, _) => [PermitTaken] + GrantEffects(grant) + [Began] + ReleaseEffects(grant) + [PermitReturned]
  }

  lemma HoldingParts(grant: Option<LockGrant>, status: BuildStatus)
    ensures PermitPart(AsHolding) == [PermitTaken] && EndPart(status, AsHolding) == []
    ensures RunPart(grant, AsHolding) ==
      [PermitTaken] + GrantEffects(grant) + [Began] + ReleaseEffects(grant) + [PermitReturned]
  {
    RunHoldings(grant);
  }

  lemma RunHoldings(grant: Option<LockGrant>)
    ensures RunPart(grant, AsHolding) ==
      [PermitTaken] + GrantEffects(grant) + [Began] + ReleaseEffects(grant) + [PermitReturned]
  {
  }

  lemma DoneHoldings(verdict: Verdict)
    ensures Collect(FxDone(verdict), AsHolding) == HoldingPath(verdict)
  {
    CollectDone(verdict, AsHolding);
    HoldingParts(GrantOf(verdict), StatusOf(verdict));
    assert AsHolding(PermitReturned) == [PermitReturned];
    match verdict
    case Denied(_) =>
      assert [PermitTaken] + [] + [PermitReturned] == [PermitTaken, PermitReturned];
    case Ran(grant, _) =>
      var held := RunPart(grant, AsHolding);
      assert held + [] == held;
  }

  lemma StatusesAtEnd(c: EngineConfig, s: State, t: nat)
    requires Finishes(c, s, t)
    ensures s.tasks[t].id in s.past.trace
    ensures Collect(s.past.trace[s.tasks[t].id], AsStatus) == StatusPath(s.tasks[t].verdict)
    ensures Collect(s.past.trace[s.tasks[t].id], AsSave) == StatusPath(s.tasks[t].verdict)
  {
    FinishedJobTrace(c, s, t);
    DoneStatuses(s.tasks[t].verdict);
    DoneSaves(s.tasks[t].verdict);
  }

  lemma MessagesAtEnd(c: EngineConfig, s: State, t: nat)
    requires Finishes(c, s, t)
    ensures s.tasks[t].id in s.past.trace
    ensures var trace, verdict := s.past.trace[s.tasks[t].id], s.tasks[t].verdict;
      && Collect(trace, AsEvent) == StatusPath(verdict)[1..]
      && Collect(trace, AsResult) == [StatusOf(verdict)]
      && Collect(trace, AsCritical) == (if StatusOf(verdict).Failed? then [Failed] else [])
  {
    FinishedJobTrace(c, s, t);
    DoneEvents(s.tasks[t].verdict);
    DoneResults(s.tasks[t].verdict);
    DoneCriticals(s.tasks[t].verdict);
  }

  lemma HoldingsAtEnd(c: EngineConfig, s: State, t: nat)
    requires Finishes(c, s, t)
    ensures s.tasks[t].id in s.past.trace
    ensures Collect(s.past.trace[s.tasks[t].id], AsHolding) == HoldingPath(s.tasks[t].verdict)
  {
    FinishedJobTrace(c, s, t);
    DoneHoldings(s.tasks[t].verdict);
  }

  // The same over runs, in terms of what the lock service and the executor answered.

  /** The runner of job `id` has finished after `i` events. */
  ghost predicate HasFinished(c: EngineConfig, run: seq<State>, events: seq<Event>, i: nat, t: nat) {
    && IsRun(c, run, events) && i <= |events| && t < |run[i].tasks|
    && run[i].tasks[t].Closer? && run[i].tasks[t].ep.Finished?
  }

  /** Failed if the lock was refused or the executor answered with an error, and only then. */
  function EndOf(c: EngineConfig, life: Life): BuildStatus {
    if IsRefused(c, life) || (life.answer.Some? && life.answer.value.Some?) then Failed else Succeeded
  }

  lemma VerdictTellsLife(c: EngineConfig, run: seq<State>, events: seq<Event>, i: nat, t: nat)
    requires HasFinished(c, run, events, i, t)
    ensures Finishes(c, run[i], t)
    ensures var life, verdict := LifeOf(run, events, i, run[i].tasks[t].id), run[i].tasks[t].verdict;
      && life.lock.Some? && (verdict.Denied? <==> IsRefused(c, life)) && StatusOf(verdict) == EndOf(c, life)
      && (verdict.Ran? ==> verdict.grant == GrantIn(life.lock.value))
  {
    PrefixIsReachable(c, run, events, i);
    JobsView(c, run[i]);
    var owner := OwnerFits(c, run, events, i, run[i].tasks[t].id);
  }

  /** A finished job has gone Queued, Running, Succeeded or Failed, or straight from Queued to Failed. */
  lemma FinishedJobStatuses(c: EngineConfig, run: seq<State>, events: seq<Event>, i: nat, t: nat)
    requires HasFinished(c, run, events, i, t)
    ensures var id := run[i].tasks[t].id;
      var life := LifeOf(run, events, i, id);
      var path := if IsRefused(c, life) then [Queued, Failed] else [Queued, Running, EndOf(c, life)];
      && id in run[i].past.trace
      && Collect(run[i].past.trace[id], AsStatus) == path && Collect(run[i].past.trace[id], AsSave) == path
  {
    VerdictTellsLife(c, run, events, i, t);
    StatusesAtEnd(c, run[i], t);
  }

  /** It has published its statuses after Queued, one result, and one critical event iff it failed. */
  lemma FinishedJobMessages(c: EngineConfig, run: seq<State>, events: seq<Event>, i: nat, t: nat)
    requires HasFinished(c, run, events, i, t)
    ensures var id := run[i].tasks[t].id;
      var life := LifeOf(run, events, i, id);
      && id in run[i].past.trace
      && Collect(run[i].past.trace[id], AsEvent) ==
           (if IsRefused(c, life) then [Failed] else [Running, EndOf(c, life)])
      && Collect(run[i].past.trace[id], AsResult) == [EndOf(c, life)]
      && Collect(run[i].past.trace[id], AsCritical) == (if EndOf(c, life).Failed? then [Failed] else [])
  {
    VerdictTellsLife(c, run, events, i, t);
    MessagesAtEnd(c, run[i], t);
  }

  /** An acquired grant is released exactly once, after the executor and before the permit goes back. */
  lemma FinishedJobHoldings(c: EngineConfig, run: seq<State>, events: seq<Event>, i: nat, t: nat)
    requires HasFinished(c, run, events, i, t)
    ensures var id := run[i].tasks[t].id;
      var life := LifeOf(run, events, i, id);
      && id in run[i].past.trace && life.lock.Some?
      && Collect(run[i].past.trace[id], AsHolding) ==
           if IsRefused(c, life) then [PermitTaken, PermitReturned]
           else match life.lock.value
             case Acquired(grant) =>
               [PermitTaken, LockGranted(grant.fencingToken), Began, LockReleased(grant.fencingToken), PermitReturned]
             case _ => [PermitTaken, Began, PermitReturned]
  {
    VerdictTellsLife(c, run, events, i, t);
    HoldingsAtEnd(c, run[i], t);
  }

  /** At any time the effects of a job are the beginning of some complete history. */
  lemma EveryTraceIsAPrefix(c: EngineConfig, s: State, id: JobId) returns (verdict: Verdict)
    requires Reachable(c, s) && id in s.past.book && id in s.past.trace
    ensures s.past.trace[id] <= FxDone(verdict)
  {
    ReachableInv(c, s);
    verdict := PrefixVerdict(s.tasks[s.past.book[id].owner]);
    ExpectedIsPrefix(s.tasks[s.past.book[id].owner]);
  }

  /** A way the work of a task may end. */
  function PrefixVerdict(k: Task): Verdict {
    match k
    case Worker(_, grant, _) => Ran(grant, None)
    case Winder(_, grant, error, _) => Ran(grant, error)
    case Closer(_, verdict, _) => verdict
    case _ => Denied("")
  }

  lemma WorkIsPrefix(grant: Option<LockGrant>, wp: WorkPc, id: JobId)
    ensures Expected(Worker(id, grant, wp)) <= FxBegan(grant)
  {
  }

  lemma WindIsPrefix(grant: Option<LockGrant>, error: Option<string>, dp: WindPc, id: JobId)
    ensures FxBegan(grant) <= Expected(Winder(id, grant, error, dp)) <= FxReturned(grant)
  {
  }

  lemma CloseIsPrefix(verdict: Verdict, ep: ClosePc, id: JobId)
    ensures FxBefore(verdict) <= Expected(Closer(id, verdict, ep)) <= FxDone(verdict)
  {
  }

  lemma ExpectedIsPrefix(k: Task)
    ensures Expected(k) <= FxDone(PrefixVerdict(k))
  {
    CloseIsPrefix(PrefixVerdict(k), WaitEnd, JobId(0, 0));
    match k
    case Worker(id, grant, wp) =>
      WorkIsPrefix(grant, wp, id);
      WindIsPrefix(grant, None, Release, id);
    case Winder(id, grant, error, dp) => WindIsPrefix(grant, error, dp, id);
    case Closer(id, verdict, ep) => CloseIsPrefix(verdict, ep, id);
    case _ =>
  }

}
