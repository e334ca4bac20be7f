/** Every step extends the effects of a job exactly as the progress of its owner says. */
module EngineTrace {
  import opened Wrappers
  import opened Types
  import opened Engine
  import opened EngineInvariants
  import opened EngineOwners

  lemma AddTrace(c: EngineConfig, s: State, k: Task, e: Choice, first: JobRecord)
    requires k.Adder? && TaskFact(c, k) && !IsDone(k) && OwnJob(s.jobs, k.rec.id, k, first)
    ensures var m := AddMove(k, e); Expected(if m.change.Hatch? then m.change.runner else m.next) == Expected(k) + m.fx
  {
  }

  lemma StartTrace(c: EngineConfig, s: State, k: Task, e: Choice, first: JobRecord)
    requires k.Starter? && TaskFact(c, k) && !IsDone(k) && OwnJob(s.jobs, k.id, k, first)
    ensures var m := StartMove(c, s, k, e); Expected(m.next) == Expected(k) + m.fx
  {
  }

  lemma WorkTrace(c: EngineConfig, s: State, k: Task, e: Choice, first: JobRecord)
    requires k.Worker? && TaskFact(c, k) && !IsDone(k) && OwnJob(s.jobs, k.id, k, first)
    ensures var m := WorkMove(s, k, e); Expected(m.next) == Expected(k) + m.fx
  {
  }

  lemma WindTrace(c: EngineConfig, s: State, k: Task, e: Choice, first: JobRecord)
    requires k.Winder? && TaskFact(c, k) && !IsDone(k) && OwnJob(s.jobs, k.id, k, first)
    ensures var m := WindMove(k); Expected(m.next) == Expected(k) + m.fx
  {
  }

  lemma CloseTrace(c: EngineConfig, s: State, k: Task, e: Choice, first: JobRecord)
    requires k.Closer? && TaskFact(c, k) && !IsDone(k) && OwnJob(s.jobs, k.id, k, first)
    ensures var m := CloseMove(s, k, e); Expected(m.next) == Expected(k) + m.fx
  {
  }

  lemma MoveTrace(c: EngineConfig, s: State, k: Task, e: Choice, m: Move, id: JobId, first: JobRecord)
    requires m == NextMove(c, s, k, e) && TaskFact(c, k) && !IsDone(k) && OwnJob(s.jobs, id, k, first)
    ensures Expected(if m.change.Hatch? then m.change.runner else m.next) == Expected(k) + m.fx
  {
    match k
    case Adder(_, _, _) => AddTrace(c, s, k, e, first);
    case Starter(_, _) => StartTrace(c, s, k, e, first);
    case Worker(_, _, _) => WorkTrace(c, s, k, e, first);
    case Winder(_, _, _, _) => WindTrace(c, s, k, e, first);
    case Closer(_, _, _) => CloseTrace(c, s, k, e, first);
  }

  lemma MoveKeepsTrace(tasks: seq<Task>, book: map<JobId, Entry>, trace: map<JobId, seq<Effect>>, t: nat, m: Move)
    requires t < |tasks| && OwnersOk(tasks, book) && TraceOk(tasks, book, trace)
    requires OwnerRule(tasks[t], m) && (m.change.Enroll? ==> m.change.rec.id !in book)
    requires Owned(tasks[t]).Some? ==>
      Expected(if m.change.Hatch? then m.change.runner else m.next) == Expected(tasks[t]) + m.fx
    ensures TraceOk(NewTasks(tasks, t, m), NewBook(book, t, |tasks|, m.change), NewTrace(trace, tasks[t], m))
  {
    var book' := NewBook(book, t, |tasks|, m.change);
    forall id | id in book'
      ensures book'[id].owner < |NewTasks(tasks, t, m)| && id in NewTrace(trace, tasks[t], m)
      ensures NewTrace(trace, tasks[t], m)[id] == Expected(NewTasks(tasks, t, m)[book'[id].owner])
    {
      if id in book && Owned(tasks[t]) != Some(id) {
        assert book[id].owner != t;
      }
    }
  }

  lemma StepKeepsTrace(c: EngineConfig, s: State, t: nat, e: Choice)
    requires TasksOk(c, s) && BookOk(c, s) && JobsOk(s.jobs, s.tasks, s.past.book) && CanStep(c, s, t, e)
    requires TraceOk(s.tasks, s.past.book, s.past.trace)
    ensures var s' := Apply(s, t, NextMove(c, s, s.tasks[t], e), e.applied);
      TraceOk(s'.tasks, s'.past.book, s'.past.trace)
  {
    var k := s.tasks[t];
    var m := NextMove(c, s, k, e);
    var own := Owned(k);
    if own.Some? {
      assert OwnJob(s.jobs, own.value, k, s.past.book[own.value].first);
      MoveTrace(c, s, k, e, m, own.value, s.past.book[own.value].first);
    }
    StepFollowsRules(c, s, t, e);
    MoveKeepsTrace(s.tasks, s.past.book, s.past.trace, t, m);
  }
}
