/** What the in-memory job table means, and the changes the server makes to its records. */
module JobTable {
  import opened Wrappers
  import opened Types
  import opened Text

  type Table = map<JobId, JobRecord>

  /** The cleaned idempotency id of a request. */
  function RequestId(request: BuildRequest): Option<string> {
    CleanOptional(request.requestId)
  }

  ghost predicate Claims(jobs: Table, id: JobId, requestId: string) {
    id in jobs && RequestId(jobs[id].request) == Some(requestId)
  }

  /** The request ids bound to a retained job. */
  function ClaimedIds(jobs: Table): set<string> {
    set id | id in jobs && RequestId(jobs[id].request).Some? :: RequestId(jobs[id].request).value
  }

  /** No two retained jobs share a request id. */
  ghost predicate UniqueClaims(jobs: Table) {
    forall a, b :: (a in jobs && b in jobs && RequestId(jobs[a].request).Some?
                    && RequestId(jobs[a].request) == RequestId(jobs[b].request)) ==> a == b
  }

  function QueuedIds(jobs: Table): set<JobId> {
    set id | id in jobs && jobs[id].status.Queued?
  }

  function ActiveIds(jobs: Table): set<JobId> {
    set id | id in jobs && !IsTerminal(jobs[id].status)
  }

  /** The job with this request id, when there is one. */
  ghost predicate IsLookup(jobs: Table, requestId: string, found: Option<JobRecord>) {
    match found
    case Some(rec) => exists id :: Claims(jobs, id, requestId) && jobs[id] == rec
    case None => forall id :: !Claims(jobs, id, requestId)
  }

  /**
   * `kept` is what may remain of `jobs` after pruning: only terminal jobs go, each no newer than
   * any terminal job that stays, and an oversized table comes down to the limit or to its active
   * jobs, whichever is more. Jobs created at the same time may be chosen between freely, because
   * the candidates come from a hash map.
   */
  ghost predicate IsPruned(jobs: Table, kept: Table, maxJobs: nat) {
    && kept.Keys <= jobs.Keys
    && (forall id :: id in kept ==> kept[id] == jobs[id])
    && (forall id :: id in jobs && id !in kept ==> IsTerminal(jobs[id].status))
    && (forall gone, stays :: gone in jobs && gone !in kept && stays in kept && IsTerminal(jobs[stays].status)
          ==> jobs[gone].createdAtMs <= jobs[stays].createdAtMs)
    && |kept| ==
         if |jobs| <= maxJobs then |jobs| else if |ActiveIds(jobs)| < maxJobs then maxJobs else |ActiveIds(jobs)|
  }

  /** The three record changes made through `update_job`. */
  function MarkRunning(rec: JobRecord, nowMs: nat, grant: Option<LockGrant>): JobRecord {
    rec.(status := Running, startedAtMs := Some(nowMs),
         lockKey := if grant.Some? then Some(grant.value.key) else None,
         fencingToken := if grant.Some? then Some(grant.value.fencingToken) else None)
  }

  function MarkSucceeded(rec: JobRecord, nowMs: nat): JobRecord {
    rec.(status := Succeeded, finishedAtMs := Some(nowMs), error := None)
  }

  function MarkFailed(rec: JobRecord, nowMs: nat, error: string): JobRecord {
    rec.(status := Failed, finishedAtMs := Some(nowMs), error := Some(error))
  }

  /** The two records come from the same submission: everything `update_job` never touches. */
  predicate SameSubmission(a: JobRecord, b: JobRecord) {
    && a.id == b.id && a.request == b.request && a.source == b.source
    && a.executor == b.executor && a.createdAtMs == b.createdAtMs && a.logPath == b.logPath
  }

  // The lifecycle fields of a record in each phase of its life.
  predicate IsFresh(rec: JobRecord) {
    rec.status.Queued? && rec.startedAtMs.None? && rec.finishedAtMs.None? && rec.error.None?
    && rec.lockKey.None? && rec.fencingToken.None?
  }

  predicate HasGrant(rec: JobRecord, grant: Option<LockGrant>) {
    match grant
    case Some(g) => rec.lockKey == Some(g.key) && rec.fencingToken == Some(g.fencingToken)
    case None => rec.lockKey.None? && rec.fencingToken.None?
  }

  predicate IsStarted(rec: JobRecord, grant: Option<LockGrant>) {
    rec.status.Running? && rec.startedAtMs.Some? && rec.finishedAtMs.None? && rec.error.None?
    && HasGrant(rec, grant)
  }

  /** How a job ended: refused at the lock stage, or executed with or without an error. */
  datatype Verdict =
    | Denied(reason: string)
    | Ran(grant: Option<LockGrant>, error: Option<string>)

  function Conclude(rec: JobRecord, nowMs: nat, verdict: Verdict): JobRecord {
    match verdict
    case Denied(reason) => MarkFailed(rec, nowMs, reason)
    case Ran(_, None) => MarkSucceeded(rec, nowMs)
    case Ran(_, Some(error)) => MarkFailed(rec, nowMs, error)
  }

  predicate IsConcluded(rec: JobRecord, verdict: Verdict) {
    && rec.finishedAtMs.Some?
    && match verdict
       case Denied(reason) =>
         rec.status.Failed? && rec.error == Some(reason) && rec.startedAtMs.None? && HasGrant(rec, None)
       case Ran(grant, error) =>
         rec.status == (if error.None? then Succeeded else Failed) && rec.error == error
         && rec.startedAtMs.Some? && HasGrant(rec, grant)
  }

  lemma ClaimedIdsExact(jobs: Table, requestId: string)
    ensures requestId in ClaimedIds(jobs) <==> exists id :: Claims(jobs, id, requestId)
  {
    if requestId in ClaimedIds(jobs) {
      var id :| id in jobs && RequestId(jobs[id].request).Some? && RequestId(jobs[id].request).value == requestId;
      assert Claims(jobs, id, requestId);
    }
  }

  /** Overwriting a record with one for the same request changes no claim. */
  lemma StoreKeepsClaims(jobs: Table, rec: JobRecord)
    requires rec.id in jobs && jobs[rec.id].request == rec.request
    ensures ClaimedIds(jobs[rec.id := rec]) == ClaimedIds(jobs)
    ensures UniqueClaims(jobs) ==> UniqueClaims(jobs[rec.id := rec])
  {
    forall requestId
      ensures requestId in ClaimedIds(jobs[rec.id := rec]) <==> requestId in ClaimedIds(jobs)
    {
      ClaimedIdsExact(jobs, requestId);
      ClaimedIdsExact(jobs[rec.id := rec], requestId);
      assert forall id :: Claims(jobs[rec.id := rec], id, requestId) <==> Claims(jobs, id, requestId);
    }
  }

  /** Inserting a new job adds its claim, if it makes one. */
  lemma StoreAddsClaim(jobs: Table, rec: JobRecord)
    requires rec.id !in jobs
    ensures RequestId(rec.request).None? ==> ClaimedIds(jobs[rec.id := rec]) == ClaimedIds(jobs)
    ensures RequestId(rec.request).Some? ==>
      ClaimedIds(jobs[rec.id := rec]) == ClaimedIds(jobs) + {RequestId(rec.request).value}
    ensures UniqueClaims(jobs) && (RequestId(rec.request).Some? ==> RequestId(rec.request).value !in ClaimedIds(jobs))
      ==> UniqueClaims(jobs[rec.id := rec])
  {
    var jobs' := jobs[rec.id := rec];
    forall requestId
      ensures requestId in ClaimedIds(jobs') <==>
        requestId in ClaimedIds(jobs) || RequestId(rec.request) == Some(requestId)
    {
      ClaimedIdsExact(jobs, requestId);
      ClaimedIdsExact(jobs', requestId);
      assert forall id :: Claims(jobs, id, requestId) ==> Claims(jobs', id, requestId);
      assert RequestId(rec.request) == Some(requestId) ==> Claims(jobs', rec.id, requestId);
    }
  }

  lemma SubtableClaims(jobs: Table, kept: Table)
    requires kept.Keys <= jobs.Keys && forall id :: id in kept ==> kept[id] == jobs[id]
    ensures ClaimedIds(kept) <= ClaimedIds(jobs)
    ensures UniqueClaims(jobs) ==> UniqueClaims(kept)
  {
    forall requestId | requestId in ClaimedIds(kept) ensures requestId in ClaimedIds(jobs) {
      ClaimedIdsExact(kept, requestId);
      ClaimedIdsExact(jobs, requestId);
      var id :| Claims(kept, id, requestId);
      assert Claims(jobs, id, requestId);
    }
  }

  lemma StoreNewSizes(jobs: Table, rec: JobRecord)
    requires rec.id !in jobs && rec.status.Queued?
    ensures |jobs[rec.id := rec]| == |jobs| + 1
    ensures |QueuedIds(jobs[rec.id := rec])| == |QueuedIds(jobs)| + 1
  {
    assert QueuedIds(jobs[rec.id := rec]) == QueuedIds(jobs) + {rec.id};
    assert jobs[rec.id := rec].Keys == jobs.Keys + {rec.id};
    assert |jobs[rec.id := rec].Keys| == |jobs.Keys| + 1;
  }

  lemma StoreOldSizes(jobs: Table, rec: JobRecord)
    requires rec.id in jobs && !rec.status.Queued?
    ensures |jobs[rec.id := rec]| == |jobs|
    ensures |QueuedIds(jobs[rec.id := rec])| <= |QueuedIds(jobs)|
  {
    assert QueuedIds(jobs[rec.id := rec]) == QueuedIds(jobs) - {rec.id};
    assert jobs[rec.id := rec].Keys == jobs.Keys;
    SubsetSize(QueuedIds(jobs) - {rec.id}, QueuedIds(jobs));
  }

  lemma PrunedSizes(jobs: Table, kept: Table, maxJobs: nat)
    requires IsPruned(jobs, kept, maxJobs)
    ensures |kept| <= maxJobs || |kept| <= |ActiveIds(jobs)|
    ensures QueuedIds(kept) == QueuedIds(jobs) && ActiveIds(kept) == ActiveIds(jobs)
  {
    forall id | id in ActiveIds(jobs) ensures id in kept && kept[id] == jobs[id] {
    }
  }

  /** Some job among these is no newer than any of them. */
  lemma {:induction false} OldestAmong(jobs: Table, among: set<JobId>) returns (oldest: JobId)
    requires among != {} && forall id :: id in among ==> id in jobs
    ensures oldest in among && forall id :: id in among ==> jobs[oldest].createdAtMs <= jobs[id].createdAtMs
    decreases |among|
  {
    oldest :| oldest in among;
    if x :| x in among && x != oldest {
      var other := OldestAmong(jobs, among - {oldest});
      if jobs[other].createdAtMs < jobs[oldest].createdAtMs {
        oldest := other;
      }
    }
  }

  function FinishedIds(jobs: Table): set<JobId> {
    set id | id in jobs && IsTerminal(jobs[id].status)
  }

  /** Removing the oldest finished job of an oversized table first is a way to start pruning it. */
  lemma PruneOldestFirst(jobs: Table, oldest: JobId, kept: Table, maxJobs: nat)
    requires |jobs| > maxJobs && oldest in FinishedIds(jobs)
    requires forall id :: id in FinishedIds(jobs) ==> jobs[oldest].createdAtMs <= jobs[id].createdAtMs
    requires IsPruned(jobs - {oldest}, kept, maxJobs)
    ensures IsPruned(jobs, kept, maxJobs)
  {
    var rest := jobs - {oldest};
    assert ActiveIds(rest) == ActiveIds(jobs);
    assert rest.Keys == jobs.Keys - {oldest} && |rest.Keys| == |rest| && |jobs.Keys| == |jobs|;
    SubsetSize(ActiveIds(rest), rest.Keys);
    forall gone, stays | gone in jobs && gone !in kept && stays in kept && IsTerminal(jobs[stays].status)
      ensures jobs[gone].createdAtMs <= jobs[stays].createdAtMs
    {
      assert stays in FinishedIds(jobs) && kept[stays] == jobs[stays];
      if gone != oldest {
        assert gone in rest && rest[gone] == jobs[gone] && rest[stays] == jobs[stays];
      }
    }
  }

  /** Nothing is removed from a small table, or from one without finished jobs. */
  lemma PruneNothing(jobs: Table, maxJobs: nat)
    requires |jobs| <= maxJobs || FinishedIds(jobs) == {}
    ensures IsPruned(jobs, jobs, maxJobs)
  {
    if FinishedIds(jobs) == {} {
      forall id | id in jobs ensures id in ActiveIds(jobs) {
        assert id !in FinishedIds(jobs);
      }
      assert ActiveIds(jobs) == jobs.Keys && |jobs.Keys| == |jobs|;
    }
  }

  /** Every table can be pruned. */
  lemma {:induction false} PruningExists(jobs: Table, maxJobs: nat) returns (kept: Table)
    ensures IsPruned(jobs, kept, maxJobs)
    decreases |jobs|
  {
    if |jobs| <= maxJobs || FinishedIds(jobs) == {} {
      PruneNothing(jobs, maxJobs);
      kept := jobs;
    } else {
      var oldest := OldestAmong(jobs, FinishedIds(jobs));
      assert (jobs - {oldest}).Keys == jobs.Keys - {oldest} && |(jobs - {oldest}).Keys| == |jobs.Keys| - 1;
      kept := PruningExists(jobs - {oldest}, maxJobs);
      PruneOldestFirst(jobs, oldest, kept, maxJobs);
    }
  }

  lemma {:induction false} SubsetSize<T>(a: set<T>, b: set<T>)
    requires a <= b
    ensures |a| <= |b|
  {
    if a != {} {
      var x :| x in a;
      SubsetSize(a - {x}, b - {x});
    }
  }
}
