/** Repeated submissions under one request id, over whole runs. */
module Retries {
  import opened Wrappers
  import opened Types
  import opened JobTable
  import opened Engine
  import opened EngineInvariants
  import opened EngineOwners
  import opened EngineSafety
  import opened RequestMap

  /** A submission of `request` gets its answer now. */
  ghost predicate Answers(c: EngineConfig, s: State, ev: Event, request: BuildRequest, answer: Answer) {
    ev.Step? && CanStep(c, s, ev.t, ev.choice)
    && NextMove(c, s, s.tasks[ev.t], ev.choice).next == Answered(request, answer)
  }

  /** If this process numbered job `id`, it came with `request`; otherwise an earlier process did. */
  predicate CameWith(s: State, id: JobId, request: BuildRequest) {
    if id in s.past.book then s.past.book[id].first.request == request else id.atMs < s.past.floor
  }

  lemma RulesView(c: EngineConfig, s: State, t: nat, e: Choice)
    requires Reachable(c, s) && CanStep(c, s, t, e)
    ensures var m := NextMove(c, s, s.tasks[t], e);
      m.change.Enroll? ==> m.change.rec.id !in s.past.book && m.change.rec.id.atMs >= s.past.floor
  {
    ReachableInv(c, s);
    StepFollowsRules(c, s, t, e);
  }

  lemma EventKeepsRequest(c: EngineConfig, s: State, ev: Event, id: JobId, request: BuildRequest)
    requires Reachable(c, s) && Can(c, s, ev) && CameWith(s, id, request)
    ensures CameWith(Next(c, s, ev), id, request)
  {
    if ev.Step? {
      RulesView(c, s, ev.t, ev.choice);
    }
  }

  lemma {:induction false} RequestIsKept(c: EngineConfig, run: seq<State>, events: seq<Event>, i: nat, j: nat,
                                         id: JobId, request: BuildRequest)
    requires IsRun(c, run, events) && i <= j < |run| && CameWith(run[i], id, request)
    ensures CameWith(run[j], id, request)
  {
    if i < j {
      RequestIsKept(c, run, events, i, j - 1, id, request);
      PrefixIsReachable(c, run, events, j - 1);
      assert run[j - 1 + 1] == Next(c, run[j - 1], events[j - 1]);
      EventKeepsRequest(c, run[j - 1], events[j - 1], id, request);
    }
  }

  /** A retained job is of this process, and its record has the request it came with. */
  lemma RetainedRequest(c: EngineConfig, s: State, id: JobId)
    requires Reachable(c, s) && id in s.jobs
    ensures id in s.past.book && s.past.book[id].first.request == s.jobs[id].request
  {
    ReachableInv(c, s);
    assert OwnJob(s.jobs, id, s.tasks[s.past.book[id].owner], s.past.book[id].first);
  }

  /** An answer that names a job names one that is retained under this id, with this content. */
  lemma AnswerBinds(c: EngineConfig, s: State, ev: Event, request: BuildRequest, answer: Answer, rid: string)
    requires Reachable(c, s) && Answers(c, s, ev, request, answer) && RequestId(request) == Some(rid)
    requires answer.Accepted? || answer.Reattached?
    ensures CameWith(s, answer.rec.id, request)
  {
    StepRefinesMap(c, s, ev.t, ev.choice);
    AnsweringMove(c, s, s.tasks[ev.t], ev.choice);
    BindingsExact(s.jobs, Binding(rid, answer.rec.id, request));
    RetainedRequest(c, s, answer.rec.id);
  }

  lemma InvalidMeansInadmissible(c: EngineConfig, s: State, k: Task, e: Choice)
    requires !IsDone(k) && NextMove(c, s, k, e).next.Answered?
    ensures var next := NextMove(c, s, k, e).next; next.answer.Invalid? ==> !c.admits(next.request)
  {
  }

  /**
   * Submitting again is safe: once a submission under a request id was accepted or reattached, then,
   * whatever happens in between, as long as its job is retained every submission under that id is
   * answered with the same job if the content is the same, and refused otherwise, as a conflict unless
   * it is not even admissible.
   */
  lemma RetriesAgree(c: EngineConfig, run: seq<State>, events: seq<Event>, i: nat, j: nat, rid: string,
                     first: BuildRequest, a: Answer, again: BuildRequest, b: Answer)
    requires IsRun(c, run, events) && i < j < |events|
    requires Answers(c, run[i], events[i], first, a) && Answers(c, run[j], events[j], again, b)
    requires RequestId(first) == Some(rid) && RequestId(again) == Some(rid)
    requires (a.Accepted? || a.Reattached?) && a.rec.id in run[j].jobs
    ensures if again == first then (b.Reattached? || b.Accepted?) && b.rec.id == a.rec.id
            else b.Conflict? || (b.Invalid? && !c.admits(again))
  {
    PrefixIsReachable(c, run, events, i);
    PrefixIsReachable(c, run, events, j);
    AnswerBinds(c, run[i], events[i], first, a, rid);
    RequestIsKept(c, run, events, i, j, a.rec.id, first);
    RetainedRequest(c, run[j], a.rec.id);
    BindingsExact(run[j].jobs, Binding(rid, a.rec.id, first));
    BoundIdAnswers(c, run[j], events[j].t, events[j].choice, Binding(rid, a.rec.id, first));
    JobNumbersAreFresh(c, run[j]);
    InvalidMeansInadmissible(c, run[j], run[j].tasks[events[j].t], events[j].choice);
  }
}
