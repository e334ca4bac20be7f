/** Every step keeps each job with one owner, and each record in line with its owner's progress. */
module EngineOwners {
  import opened Wrappers
  import opened Types
  import opened Engine
  import opened EngineInvariants

  /** Who owns which job before and after a move. */
  predicate OwnerRule(k: Task, m: Move) {
    match m.change
    case Enroll(rec) => Owned(k).None? && Owned(m.next) == Some(rec.id) && m.next.Adder? && m.next.ap.WaitInsert?
    case Hatch(runner) => Owned(k).Some? && runner == Starter(Owned(k).value, WaitPermit) && Owned(m.next).None?
    case Store(rec) => Owned(k) == Some(rec.id) && Owned(m.next) == Owned(k)
    case Save(rec) => Owned(k).Some? && Owned(m.next) == Owned(k)
    case _ => Owned(m.next) == Owned(k)
  }

  /** Numbers are handed out in order, in this process, to admitted requests. */
  predicate NumberRule(c: EngineConfig, s: State, m: Move) {
    && (m.bump.Submitted? <==> m.change.Enroll?)
    && (m.change.Enroll? ==>
          EntryFact(c, m.change.rec.id, m.change.rec, s.ctr.submitted + 1, s.past.floor)
          && m.change.rec.id.counter == s.ctr.submitted + 1)
  }

  lemma CheckKeepsOwnerRule(c: EngineConfig, s: State, k: Task, e: Choice)
    requires k.Checker?
    ensures OwnerRule(k, CheckMove(c, s, k, e))
  {
  }

  lemma StartKeepsOwnerRule(c: EngineConfig, s: State, k: Task, e: Choice)
    requires k.Starter?
    ensures OwnerRule(k, StartMove(c, s, k, e))
  {
  }

  lemma WorkKeepsOwnerRule(s: State, k: Task, e: Choice)
    requires k.Worker? && (k.id in s.jobs ==> s.jobs[k.id].id == k.id)
    ensures OwnerRule(k, WorkMove(s, k, e))
  {
  }

  lemma CloseKeepsOwnerRule(s: State, k: Task, e: Choice)
    requires k.Closer? && (k.id in s.jobs ==> s.jobs[k.id].id == k.id)
    ensures OwnerRule(k, CloseMove(s, k, e))
  {
  }

  lemma MoveKeepsOwnerRule(c: EngineConfig, s: State, k: Task, e: Choice)
    requires Owned(k).Some? && Owned(k).value in s.jobs ==> s.jobs[Owned(k).value].id == Owned(k).value
    ensures OwnerRule(k, NextMove(c, s, k, e))
  {
    match k
    case Checker(_, _, _, _) => CheckKeepsOwnerRule(c, s, k, e);
    case Starter(_, _) => StartKeepsOwnerRule(c, s, k, e);
    case Worker(_, _, _) => WorkKeepsOwnerRule(s, k, e);
    case Closer(_, _, _) => CloseKeepsOwnerRule(s, k, e);
    case _ =>
  }

  lemma MoveKeepsNumberRule(c: EngineConfig, s: State, k: Task, e: Choice)
    requires TaskFact(c, k) && Allowed(c, s, k, e)
    ensures NumberRule(c, s, NextMove(c, s, k, e))
  {
  }

  /** Enrolment and hand-over give one job a new owner; every other move leaves owners where they are. */
  lemma EnrollKeepsOwners(tasks: seq<Task>, book: map<JobId, Entry>, t: nat, next: Task, rec: JobRecord)
    requires OwnersOk(tasks, book) && t < |tasks| && Owned(tasks[t]).None? && Owned(next) == Some(rec.id)
    requires rec.id !in book
    ensures OwnersOk(tasks[t := next], book[rec.id := Entry(t, rec)])
  {
  }

  lemma HatchKeepsOwners(tasks: seq<Task>, book: map<JobId, Entry>, t: nat, next: Task, runner: Task, id: JobId)
    requires OwnersOk(tasks, book) && t < |tasks| && Owned(tasks[t]) == Some(id)
    requires Owned(next).None? && Owned(runner) == Some(id)
    ensures id in book && OwnersOk(tasks[t := next] + [runner], book[id := book[id].(owner := |tasks|)])
  {
  }

  lemma MoveKeepsOwners(tasks: seq<Task>, book: map<JobId, Entry>, t: nat, m: Move)
    requires OwnersOk(tasks, book) && t < |tasks| && OwnerRule(tasks[t], m)
    requires m.change.Enroll? ==> m.change.rec.id !in book
    ensures OwnersOk(NewTasks(tasks, t, m), NewBook(book, t, |tasks|, m.change))
  {
    match m.change
    case Enroll(rec) => EnrollKeepsOwners(tasks, book, t, m.next, rec);
    case Hatch(runner) => HatchKeepsOwners(tasks, book, t, m.next, runner, runner.id);
    case _ =>
  }

  lemma MoveKeepsNumbers(c: EngineConfig, s: State, t: nat, m: Move)
    requires t < |s.tasks| && NumbersOk(c, s.past.book, s.ctr.submitted, s.past.floor)
    requires OwnerRule(s.tasks[t], m) && NumberRule(c, s, m)
    ensures NumbersOk(c, NewBook(s.past.book, t, |s.tasks|, m.change), Tally(s.ctr, m.bump).submitted, s.past.floor)
    ensures m.change.Enroll? ==> m.change.rec.id !in s.past.book
  {
    match m.change
    case Enroll(rec) =>
    case Hatch(runner) =>
    case _ =>
  }

  lemma ApplyKeepsBook(c: EngineConfig, s: State, t: nat, m: Move, applied: bool)
    requires BookOk(c, s) && t < |s.tasks| && Available(s.locks, s.tasks[t], m.next)
    requires OwnerRule(s.tasks[t], m) && NumberRule(c, s, m)
    requires m.change.Retain? ==> m.change.kept.Keys <= s.jobs.Keys
    ensures BookOk(c, Apply(s, t, m, applied))
  {
    MoveKeepsNumbers(c, s, t, m);
    MoveKeepsOwners(s.tasks, s.past.book, t, m);
  }

  lemma StepFollowsRules(c: EngineConfig, s: State, t: nat, e: Choice)
    requires TasksOk(c, s) && BookOk(c, s) && JobsOk(s.jobs, s.tasks, s.past.book) && CanStep(c, s, t, e)
    ensures var m := NextMove(c, s, s.tasks[t], e);
      && OwnerRule(s.tasks[t], m) && NumberRule(c, s, m)
      && (m.change.Enroll? ==> m.change.rec.id !in s.past.book)
  {
    var k := s.tasks[t];
    if Owned(k).Some? {
      assert OwnJob(s.jobs, Owned(k).value, k, s.past.book[Owned(k).value].first);
    }
    MoveKeepsOwnerRule(c, s, k, e);
    MoveKeepsNumberRule(c, s, k, e);
    MoveKeepsNumbers(c, s, t, NextMove(c, s, k, e));
  }
}
