/** Concurrent submissions refine one atomic map from request ids to jobs. */
module RequestMap {
  import opened Wrappers
  import opened Types
  import opened JobTable
  import opened Engine
  import opened EngineInvariants
  import opened EngineClaims
  import opened EngineJobs
  import opened EngineSafety

  /** A request id is bound to the job it was accepted as, for exactly the content it came with. */
  datatype Binding = Binding(requestId: string, id: JobId, request: BuildRequest)

  function Bindings(jobs: Table): set<Binding> {
    set id | id in jobs && RequestId(jobs[id].request).Some? ::
      Binding(RequestId(jobs[id].request).value, id, jobs[id].request)
  }

  predicate IsFunctional(m: set<Binding>) {
    forall a, b :: a in m && b in m && a.requestId == b.requestId ==> a == b
  }

  /** The operations of the atomic map; `Resolve` is the moment a submission gets its answer. */
  datatype Op =
    | Bind(binding: Binding)
    | Resolve(request: BuildRequest, answer: Answer)
    | Unbind(gone: set<Binding>)
    | Reset
    | Quiet

  predicate IsBound(m: set<Binding>, requestId: string) {
    exists b :: b in m && b.requestId == requestId
  }

  predicate Legal(m: set<Binding>, op: Op) {
    match op
    case Bind(b) => !IsBound(m, b.requestId)
    case Unbind(gone) => gone <= m
    case Resolve(request, answer) => Justified(m, RequestId(request), request, answer)
    case _ => true
  }

  /** The answers an atomic map may give to a request. */
  predicate Justified(m: set<Binding>, rid: Option<string>, request: BuildRequest, answer: Answer) {
    match answer
    case Accepted(rec) => rec.request == request && (rid.Some? ==> Binding(rid.value, rec.id, request) in m)
    case Reattached(rec) => rid.Some? && Binding(rid.value, rec.id, request) in m
    case Conflict => rid.Some? && exists b :: b in m && b.requestId == rid.value && b.request != request
    case QueueFull => rid.Some? ==> !IsBound(m, rid.value)
    case Invalid => true
  }

  function ApplyOp(m: set<Binding>, op: Op): set<Binding> {
    match op
    case Bind(b) => m + {b}
    case Unbind(gone) => m - gone
    case Reset => {}
    case _ => m
  }

  /** The map operation a move of task `k` performs. */
  function ObserveMove(jobs: Table, k: Task, m: Move): Op {
    match m.change
    case Store(rec) =>
      if rec.id !in jobs && RequestId(rec.request).Some?
      then Bind(Binding(RequestId(rec.request).value, rec.id, rec.request)) else Quiet
    case Retain(kept) => Unbind(Bindings(jobs) - Bindings(kept))
    case _ => if m.next.Answered? && !k.Answered? then Resolve(m.next.request, m.next.answer) else Quiet
  }

  ghost function Observe(c: EngineConfig, s: State, ev: Event): Op
    requires Can(c, s, ev)
  {
    match ev
    case Step(t, e) => ObserveMove(s.jobs, s.tasks[t], NextMove(c, s, s.tasks[t], e))
    case Restart(_, _, _) => Reset
    case _ => Quiet
  }

  lemma BindingsExact(jobs: Table, b: Binding)
    ensures b in Bindings(jobs) <==> Claims(jobs, b.id, b.requestId) && jobs[b.id].request == b.request
  {
  }

  lemma BoundExact(jobs: Table, requestId: string)
    ensures IsBound(Bindings(jobs), requestId) <==> requestId in ClaimedIds(jobs)
  {
    if requestId in ClaimedIds(jobs) {
      ClaimedIdsExact(jobs, requestId);
      var id :| Claims(jobs, id, requestId);
      assert Binding(requestId, id, jobs[id].request) in Bindings(jobs);
    }
  }

  lemma UniqueClaimsAreFunctional(jobs: Table)
    requires UniqueClaims(jobs)
    ensures IsFunctional(Bindings(jobs))
  {
  }

  lemma StoreOldBindings(jobs: Table, rec: JobRecord)
    requires rec.id in jobs && jobs[rec.id].request == rec.request
    ensures Bindings(jobs[rec.id := rec]) == Bindings(jobs)
  {
    forall b ensures b in Bindings(jobs[rec.id := rec]) <==> b in Bindings(jobs) {
      BindingsExact(jobs, b);
      BindingsExact(jobs[rec.id := rec], b);
    }
  }

  lemma StoreNewBindings(jobs: Table, rec: JobRecord)
    requires rec.id !in jobs
    ensures Bindings(jobs[rec.id := rec]) == Bindings(jobs) +
      if RequestId(rec.request).Some? then {Binding(RequestId(rec.request).value, rec.id, rec.request)} else {}
  {
    forall b
      ensures b in Bindings(jobs[rec.id := rec]) <==>
        || b in Bindings(jobs)
        || (RequestId(rec.request) == Some(b.requestId) && b.id == rec.id && b.request == rec.request)
    {
      BindingsExact(jobs, b);
      BindingsExact(jobs[rec.id := rec], b);
    }
  }

  lemma RetainBindings(jobs: Table, kept: Table)
    requires kept.Keys <= jobs.Keys && forall id :: id in kept ==> kept[id] == jobs[id]
    ensures Bindings(kept) <= Bindings(jobs)
  {
  }

  /** What a move does to the map, for a task whose own facts are known. */
  lemma MoveRefines(jobs: Table, k: Task, m: Move, maxJobs: nat)
    requires StoreRule(jobs, k, m)
    requires m.change.Retain? ==> IsPruned(jobs, m.change.kept, maxJobs)
    requires m.change.Store? && RequestId(m.change.rec.request).Some? && m.change.rec.id !in jobs ==>
      RequestId(m.change.rec.request).value !in ClaimedIds(jobs)
    requires m.next.Answered? && !k.Answered? ==>
      Justified(Bindings(jobs), RequestId(m.next.request), m.next.request, m.next.answer)
    ensures Legal(Bindings(jobs), ObserveMove(jobs, k, m))
    ensures Bindings(NewJobs(jobs, m.change)) == ApplyOp(Bindings(jobs), ObserveMove(jobs, k, m))
  {
    match m.change
    case Store(rec) =>
      if rec.id in jobs {
        StoreOldBindings(jobs, rec);
      } else {
        StoreNewBindings(jobs, rec);
        if RequestId(rec.request).Some? {
          BoundExact(jobs, RequestId(rec.request).value);
        }
      }
    case Retain(kept) => RetainBindings(jobs, kept);
    case _ =>
  }

  lemma CheckerAnswers(c: EngineConfig, s: State, k: Task, e: Choice)
    requires k.Checker? && TaskFact(c, k) && Allowed(c, s, k, e)
    requires HoldsIds(k) ==> HolderFact(s.jobs, s.ids, Some(k))
    requires forall id :: id in s.jobs ==> s.jobs[id].id == id
    ensures var m := CheckMove(c, s, k, e);
      m.next.Answered? ==> Justified(Bindings(s.jobs), RequestId(m.next.request), m.next.request, m.next.answer)
  {
    if k.cp.Lookup? {
      ClaimedIdsExact(s.jobs, k.rid.value);
      var id :| Claims(s.jobs, id, k.rid.value) && e.found == Some(s.jobs[id]);
      assert Binding(k.rid.value, id, s.jobs[id].request) in Bindings(s.jobs);
    } else if k.cp.Admit? && k.rid.Some? {
      BoundExact(s.jobs, k.rid.value);
    }
  }

  lemma AdderAnswers(s: State, k: Task, e: Choice, first: JobRecord)
    requires k.Adder? && OwnJob(s.jobs, k.rec.id, k, first)
    ensures var m := AddMove(k, e);
      m.next.Answered? ==> Justified(Bindings(s.jobs), RequestId(m.next.request), m.next.request, m.next.answer)
  {
  }

  lemma OthersAnswerNothing(c: EngineConfig, s: State, k: Task, e: Choice)
    requires !k.Checker? && !k.Adder?
    ensures var m := NextMove(c, s, k, e); m.next.Answered? ==> k.Answered?
    ensures var m := NextMove(c, s, k, e); StoreRule(s.jobs, k, m) && m.change.Store? ==> m.change.rec.id in s.jobs
  {
  }

  /** What task `t` may rely on in a reachable state. */
  lemma TaskView(c: EngineConfig, s: State, t: nat)
    requires Reachable(c, s) && t < |s.tasks|
    ensures TaskFact(c, s.tasks[t])
    ensures HoldsIds(s.tasks[t]) ==> HolderFact(s.jobs, s.ids, Some(s.tasks[t]))
    ensures UniqueClaims(s.jobs)
  {
    ReachableInv(c, s);
    assert HoldsIds(s.tasks[t]) <==> s.locks.idOwner == Some(t);
  }

  lemma TaskJob(c: EngineConfig, s: State, t: nat) returns (first: JobRecord)
    requires Reachable(c, s) && t < |s.tasks| && Owned(s.tasks[t]).Some?
    ensures OwnJob(s.jobs, Owned(s.tasks[t]).value, s.tasks[t], first)
  {
    ReachableInv(c, s);
    first := OwnedJob(c, s, t);
  }

  lemma StepStores(c: EngineConfig, s: State, t: nat, e: Choice)
    requires Reachable(c, s) && CanStep(c, s, t, e)
    ensures StoreRule(s.jobs, s.tasks[t], NextMove(c, s, s.tasks[t], e))
  {
    ReachableInv(c, s);
    StepKeepsJobs(c, s, t, e);
  }

  lemma AdderInsertsUnbound(s: State, k: Task, e: Choice)
    requires k.Adder? && k.rid == RequestId(k.rec.request)
    requires HoldsIds(k) ==> HolderFact(s.jobs, s.ids, Some(k))
    ensures var m := AddMove(k, e);
      m.change.Store? && RequestId(m.change.rec.request).Some? ==>
        RequestId(m.change.rec.request).value !in ClaimedIds(s.jobs)
  {
  }

  lemma CheckerStoresNothing(c: EngineConfig, s: State, k: Task, e: Choice)
    requires k.Checker?
    ensures !CheckMove(c, s, k, e).change.Store?
  {
  }

  lemma StepRefinesMap(c: EngineConfig, s: State, t: nat, e: Choice)
    requires Reachable(c, s) && CanStep(c, s, t, e)
    ensures var m := NextMove(c, s, s.tasks[t], e);
      && Legal(Bindings(s.jobs), ObserveMove(s.jobs, s.tasks[t], m))
      && Bindings(NewJobs(s.jobs, m.change)) == ApplyOp(Bindings(s.jobs), ObserveMove(s.jobs, s.tasks[t], m))
  {
    var k := s.tasks[t];
    TaskView(c, s, t);
    StepStores(c, s, t, e);
    MoveRetains(c, s, k, e);
    if k.Checker? {
      JobNumbersAreFresh(c, s);
      CheckerAnswers(c, s, k, e);
      CheckerStoresNothing(c, s, k, e);
    } else if k.Adder? {
      var first := TaskJob(c, s, t);
      AdderAnswers(s, k, e, first);
      AdderInsertsUnbound(s, k, e);
    } else {
      OthersAnswerNothing(c, s, k, e);
    }
    MoveRefines(s.jobs, k, NextMove(c, s, k, e), c.maxJobs);
  }

  /** Every event of the engine is one legal operation of the atomic map. */
  lemma EventRefinesMap(c: EngineConfig, s: State, ev: Event)
    requires Reachable(c, s) && Can(c, s, ev)
    ensures Legal(Bindings(s.jobs), Observe(c, s, ev))
    ensures Bindings(Next(c, s, ev).jobs) == ApplyOp(Bindings(s.jobs), Observe(c, s, ev))
    ensures IsFunctional(Bindings(s.jobs))
  {
    RequestIdsMatchRetainedJobs(c, s);
    UniqueClaimsAreFunctional(s.jobs);
    if ev.Step? {
      StepRefinesMap(c, s, ev.t, ev.choice);
    }
  }

  ghost function Observations(c: EngineConfig, run: seq<State>, events: seq<Event>): (ops: seq<Op>)
    requires IsRun(c, run, events)
    ensures |ops| == |events|
  {
    seq(|events|, i requires 0 <= i < |events| => Observe(c, run[i], events[i]))
  }

  /** The map after a sequence of operations, from an empty one. */
  function Replay(ops: seq<Op>): set<Binding> {
    if ops == [] then {} else ApplyOp(Replay(ops[..|ops| - 1]), ops[|ops| - 1])
  }

  /** Over any run the bindings are what the atomic map holds after the same operations, all of them legal. */
  lemma {:induction false} RunRefinesMap(c: EngineConfig, run: seq<State>, events: seq<Event>, i: nat)
    requires IsRun(c, run, events) && i <= |events|
    ensures Bindings(run[i].jobs) == Replay(Observations(c, run, events)[..i])
    ensures i < |events| ==> Legal(Replay(Observations(c, run, events)[..i]), Observations(c, run, events)[i])
  {
    var ops := Observations(c, run, events);
    if i > 0 {
      RunRefinesMap(c, run, events, i - 1);
      PrefixIsReachable(c, run, events, i - 1);
      EventRefinesMap(c, run[i - 1], events[i - 1]);
      assert run[i - 1 + 1] == Next(c, run[i - 1], events[i - 1]);
      assert ops[..i][..i - 1] == ops[..i - 1];
    }
    PrefixIsReachable(c, run, events, i);
    if i < |events| {
      EventRefinesMap(c, run[i], events[i]);
    }
  }

  /** A move that answers a submission changes no binding. */
  lemma AnsweringMove(c: EngineConfig, s: State, k: Task, e: Choice)
    requires !IsDone(k) && NextMove(c, s, k, e).next.Answered?
    ensures var change := NextMove(c, s, k, e).change; !change.Store? && !change.Retain?
  {
  }

  /** What the map may answer under an id that is bound. */
  lemma BoundAnswers(m: set<Binding>, b: Binding, request: BuildRequest, answer: Answer)
    requires IsFunctional(m) && b in m && Justified(m, Some(b.requestId), request, answer)
    ensures Agrees(b.id, b.request, request, answer)
  {
    if answer.Accepted? || answer.Reattached? {
      assert Binding(b.requestId, answer.rec.id, request) == b;
    }
  }

  /** The answer to `request` that fits an id under which job `id` was taken for `first`. */
  predicate Agrees(id: JobId, first: BuildRequest, request: BuildRequest, answer: Answer) {
    || answer.Invalid?
    || (request == first && (answer.Reattached? || answer.Accepted?) && answer.rec.id == id)
    || (request != first && answer.Conflict?)
  }

  /** So in the engine, while a job is retained, its request id gets the answer that fits it. */
  lemma BoundIdAnswers(c: EngineConfig, s: State, t: nat, e: Choice, b: Binding)
    requires Reachable(c, s) && CanStep(c, s, t, e) && b in Bindings(s.jobs)
    requires var next := NextMove(c, s, s.tasks[t], e).next;
      next.Answered? && RequestId(next.request) == Some(b.requestId)
    ensures var next := NextMove(c, s, s.tasks[t], e).next; Agrees(b.id, b.request, next.request, next.answer)
  {
    var m := NextMove(c, s, s.tasks[t], e);
    StepRefinesMap(c, s, t, e);
    AnsweringMove(c, s, s.tasks[t], e);
    RequestIdsMatchRetainedJobs(c, s);
    UniqueClaimsAreFunctional(s.jobs);
    BoundAnswers(Bindings(s.jobs), b, m.next.request, m.next.answer);
  }
}
