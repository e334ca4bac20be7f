/** Every step keeps the request-id set equal to the claims of the retained jobs. */
module EngineClaims {
  import opened Wrappers
  import opened JobTable
  import opened Engine
  import opened EngineInvariants

  /** A stored record is the first of a new job, or replaces one for the same request. */
  predicate StoreRule(jobs: Table, k: Task, m: Move) {
    m.change.Store? ==>
      if k.Adder? then
        k.ap.Insert? && m.change.rec == k.rec && k.rec.id !in jobs && k.rid == RequestId(k.rec.request)
      else
        m.change.rec.id in jobs && m.change.rec.request == jobs[m.change.rec.id].request
  }

  /** What the other tasks may assume after a move of a task that does not touch the id lock. */
  lemma OutsiderKeepsClaims(s: State, k: Task, m: Move)
    requires !HoldsIds(k) && !HoldsIds(m.next) && UniqueClaims(s.jobs) && StoreRule(s.jobs, k, m)
    requires !m.change.Claim? && !m.change.Forget? && !m.change.Retain?
    ensures UniqueClaims(NewJobs(s.jobs, m.change))
    ensures ClaimedIds(NewJobs(s.jobs, m.change)) == ClaimedIds(s.jobs) && NewIds(s.ids, m.change) == s.ids
  {
    if m.change.Store? {
      if k.Adder? {
        StoreAddsClaim(s.jobs, m.change.rec);
      } else {
        StoreKeepsClaims(s.jobs, m.change.rec);
      }
    }
  }

  lemma CheckerKeepsClaims(c: EngineConfig, s: State, k: Task, e: Choice)
    requires k.Checker? && TaskFact(c, k) && Allowed(c, s, k, e)
    requires HolderFact(s.jobs, s.ids, if HoldsIds(k) then Some(k) else None)
    ensures var m := CheckMove(c, s, k, e);
      && !m.change.Store? && !m.change.Retain? && !m.change.Claim? && !m.change.Forget?
      && HolderFact(s.jobs, s.ids, if HoldsIds(m.next) then Some(m.next) else None)
  {
    if k.cp.Lookup? {
      ClaimedIdsExact(s.jobs, k.rid.value);
    }
  }

  /** The claims after a move that ends at `next`, in terms of what the next holder may rely on. */
  ghost predicate ClaimsAfter(jobs: Table, ids: set<string>, next: Task) {
    UniqueClaims(jobs) && HolderFact(jobs, ids, if HoldsIds(next) then Some(next) else None)
  }

  lemma InserterKeepsClaims(jobs: Table, ids: set<string>, k: Task)
    requires k.Adder? && k.ap.Insert? && k.rid == RequestId(k.rec.request) && k.rec.id !in jobs
    requires ClaimsAfter(jobs, ids, k)
    ensures ClaimsAfter(jobs[k.rec.id := k.rec], ids, k.(ap := Inserted))
  {
    StoreAddsClaim(jobs, k.rec);
  }

  lemma PrunerKeepsClaims(jobs: Table, ids: set<string>, k: Task, kept: Table, maxJobs: nat)
    requires k.Adder? && k.ap.Prune? && IsPruned(jobs, kept, maxJobs) && ClaimsAfter(jobs, ids, k)
    ensures ClaimsAfter(kept, ids * ClaimedIds(kept), k.(ap := Spawn))
  {
    SubtableClaims(jobs, kept);
  }

  /** Everywhere else the table stays, and at most the inserted job's id is claimed. */
  lemma WaiterKeepsClaims(jobs: Table, ids: set<string>, k: Task, e: Choice)
    requires k.Adder? && !k.ap.Insert? && !k.ap.Prune? && ClaimsAfter(jobs, ids, k)
    ensures var m := AddMove(k, e);
      NewJobs(jobs, m.change) == jobs && ClaimsAfter(jobs, NewIds(ids, m.change), m.next)
  {
  }

  lemma AdderKeepsClaims(jobs: Table, ids: set<string>, k: Task, e: Choice, maxJobs: nat)
    requires k.Adder? && k.rid == RequestId(k.rec.request) && ClaimsAfter(jobs, ids, k)
    requires (k.ap.Insert? ==> k.rec.id !in jobs) && (k.ap.Prune? ==> IsPruned(jobs, e.kept, maxJobs))
    ensures var m := AddMove(k, e); ClaimsAfter(NewJobs(jobs, m.change), NewIds(ids, m.change), m.next)
  {
    match k.ap
    case Insert =>
      InserterKeepsClaims(jobs, ids, k);
      assert AddMove(k, e).change == Store(k.rec);
    case Prune =>
      PrunerKeepsClaims(jobs, ids, k, e.kept, maxJobs);
      assert AddMove(k, e).change == Retain(e.kept);
    case _ =>
      WaiterKeepsClaims(jobs, ids, k, e);
  }

  /** Only the holder of the request-id lock touches the request ids, and only through these moves. */
  lemma OutsiderMoves(c: EngineConfig, s: State, k: Task, e: Choice)
    requires TaskFact(c, k) && !HoldsIds(k)
    ensures var m := NextMove(c, s, k, e); !m.change.Claim? && !m.change.Forget? && !m.change.Retain?
    ensures var m := NextMove(c, s, k, e); HoldsIds(m.next) ==> k.Checker? || k.Adder?
  {
  }

  lemma HolderAfter(s: State, t: nat, m: Move, applied: bool)
    requires LocksOk(s) && t < |s.tasks| && Available(s.locks, s.tasks[t], m.next)
    ensures var s' := Apply(s, t, m, applied);
      if HoldsIds(s.tasks[t]) || HoldsIds(m.next) then
        && Holder(s) == (if HoldsIds(s.tasks[t]) then Some(s.tasks[t]) else None)
        && Holder(s') == (if HoldsIds(m.next) then Some(m.next) else None)
      else
        Holder(s') == Holder(s)
  {
    assert HoldsIds(s.tasks[t]) <==> s.locks.idOwner == Some(t);
  }

  /** The step of a task that holds the id lock before or after it. */
  lemma HolderStepKeepsClaims(c: EngineConfig, s: State, k: Task, e: Choice)
    requires TaskFact(c, k) && Allowed(c, s, k, e) && StoreRule(s.jobs, k, NextMove(c, s, k, e))
    requires HoldsIds(k) || HoldsIds(NextMove(c, s, k, e).next)
    requires ClaimsAfter(s.jobs, s.ids, k)
    ensures var m := NextMove(c, s, k, e); ClaimsAfter(NewJobs(s.jobs, m.change), NewIds(s.ids, m.change), m.next)
  {
    if !HoldsIds(k) {
      OutsiderMoves(c, s, k, e);
    }
    if k.Checker? {
      CheckerKeepsClaims(c, s, k, e);
    } else {
      AdderKeepsClaims(s.jobs, s.ids, k, e, c.maxJobs);
    }
  }

  lemma StepKeepsClaims(c: EngineConfig, s: State, t: nat, e: Choice)
    requires TasksOk(c, s) && LocksOk(s) && ClaimsOk(s) && CanStep(c, s, t, e)
    requires StoreRule(s.jobs, s.tasks[t], NextMove(c, s, s.tasks[t], e))
    ensures ClaimsOk(Apply(s, t, NextMove(c, s, s.tasks[t], e), e.applied))
  {
    var k := s.tasks[t];
    var m := NextMove(c, s, k, e);
    HolderAfter(s, t, m, e.applied);
    if HoldsIds(k) || HoldsIds(m.next) {
      HolderStepKeepsClaims(c, s, k, e);
    } else {
      OutsiderMoves(c, s, k, e);
      OutsiderKeepsClaims(s, k, m);
    }
  }
}
