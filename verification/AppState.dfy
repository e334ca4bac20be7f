/**
 * The server's shared state as one object, with the bodies of `src/jobs.rs` run one at a time.
 *
 * Each critical section is tied to the change the interleaved engine makes there, each whole body to
 * the answer of the atomic request-id map or to the complete history of a job.
 */
module ServerState {
  import opened Wrappers
  import opened Types
  import opened JobTable
  import opened Persistence
  import opened Engine
  import opened EngineInvariants
  import opened EngineLives
  import opened Pruning

  /** What the world answers while one job runs: lock service, clock, executor, database. */
  datatype World =
    World(lock: LockOutcome, startMs: nat, endMs: nat, error: Option<string>, startSaved: bool, endSaved: bool)

  const DISAPPEARED := "job disappeared before execution"

  /** What the lock stage decides: a reason to refuse the job, or the grant it runs with. */
  function LockStage(c: EngineConfig, lock: LockOutcome): Result<Option<LockGrant>, string> {
    match lock
    case Disabled => Success(None)
    case Acquired(grant) => Success(Some(grant))
    case Busy(key) => Failure(BusyError(key))
    case Unavailable(error) => if c.coordinationRequired then Failure(UnavailableError(error)) else Success(None)
  }

  /** How a job that is in the table ends, given what the world answers. */
  function VerdictOf(c: EngineConfig, w: World): Verdict {
    match LockStage(c, w.lock)
    case Success(grant) => Ran(grant, w.error)
    case Failure(reason) => Denied(reason)
  }

  /** The record it ends with. */
  function LastRecord(rec: JobRecord, w: World, verdict: Verdict): JobRecord {
    match verdict
    case Denied(_) => Conclude(rec, w.endMs, verdict)
    case Ran(grant, _) => Conclude(MarkRunning(rec, w.startMs, grant), w.endMs, verdict)
  }

  /** The rows after it: one write per snapshot, each of which may fail. */
  function RowsAfter(c: EngineConfig, rows: Rows, rec: JobRecord, w: World, verdict: Verdict): Rows {
    var last := Save(LastRecord(rec, w, verdict));
    match verdict
    case Denied(_) => NewRows(rows, last, w.endSaved && c.hasDatabase)
    case Ran(grant, _) =>
      NewRows(NewRows(rows, Save(MarkRunning(rec, w.startMs, grant)), w.startSaved && c.hasDatabase),
              last, w.endSaved && c.hasDatabase)
  }

  /** The counters after it. */
  function CountersAfter(ctr: Counters, lock: LockOutcome, verdict: Verdict): Counters {
    ctr.(succeeded := ctr.succeeded + (if StatusOf(verdict).Succeeded? then 1 else 0),
         failed := ctr.failed + (if StatusOf(verdict).Failed? then 1 else 0),
         commandFailures := ctr.commandFailures + (if verdict.Ran? && verdict.error.Some? then 1 else 0),
         locksAcquired := ctr.locksAcquired + (if lock.Acquired? then 1 else 0),
         lockFailures := ctr.lockFailures + (if lock.Busy? || lock.Unavailable? then 1 else 0))
  }

  function TraceOf(trace: map<JobId, seq<Effect>>, id: JobId): seq<Effect> {
    if id in trace then trace[id] else []
  }

  function Noted(trace: map<JobId, seq<Effect>>, id: JobId, fx: seq<Effect>): map<JobId, seq<Effect>> {
    trace[id := TraceOf(trace, id) + fx]
  }

  ghost predicate Consistent(jobs: Table, ids: set<string>, submitted: nat) {
    UniqueClaims(jobs) && ClaimedIds(jobs) <= ids && forall id :: id in jobs ==> id.counter <= submitted
  }

  class AppState {
    const config: EngineConfig
    var jobs: Table
    var requestIds: set<string>
    var counters: Counters
    var permits: nat
    var rows: Rows
    var trace: map<JobId, seq<Effect>>

    /** What holds between any two bodies; a request id may be claimed by no job, never the other way. */
    ghost predicate Valid()
      reads this
    {
      Consistent(jobs, requestIds, counters.submitted)
    }

    constructor (c: EngineConfig)
      ensures Valid() && config == c && jobs == map[] && requestIds == {} && counters == ZERO
      ensures permits == c.maxConcurrent && rows == map[] && trace == map[]
    {
      config := c;
      jobs, requestIds, counters := map[], {}, ZERO;
      permits, rows, trace := c.maxConcurrent, map[], map[];
    }

    method Note(id: JobId, x: Effect)
      modifies `trace
      ensures trace == Noted(old(trace), id, [x])
    {
      trace := trace[id := (if id in trace then trace[id] else []) + [x]];
    }

    /** `persist_job`; a failed write is logged and swallowed. */
    method PersistJob(rec: JobRecord, works: bool)
      modifies `rows, `trace
      ensures rows == NewRows(old(rows), Save(rec), works && config.hasDatabase)
      ensures trace == Noted(old(trace), rec.id, [SentToDatabase(rec.status)])
    {
      if works && config.hasDatabase {
        rows := Upsert(rows, rec);
      }
      Note(rec.id, SentToDatabase(rec.status));
    }

    /** `publish_lifecycle`: an event always, a result when terminal, a critical event when failed. */
    method PublishLifecycle(rec: JobRecord)
      modifies `trace
      ensures trace == Noted(old(trace), rec.id, Publishing(rec.status))
    {
      var event, result, critical :=
        Published(Events, rec.status), Published(Results, rec.status), Published(Critical, rec.status);
      Note(rec.id, event);
      if rec.status.Succeeded? || rec.status.Failed? {
        Note(rec.id, result);
        NotedTwice(old(trace), rec.id, [event], [result]);
        assert [event] + [result] == [event, result];
      }
      if rec.status.Failed? {
        Note(rec.id, critical);
        NotedTwice(old(trace), rec.id, [event, result], [critical]);
        assert [event, result] + [critical] == [event, result, critical];
      }
    }

    /** `update_job`: overwrite fields of one record, then persist and publish its new snapshot. */
    method UpdateJob(id: JobId, mutate: JobRecord -> JobRecord, works: bool)
      requires id in jobs ==> mutate(jobs[id]).id == id
      modifies `jobs, `rows, `trace
      ensures id !in old(jobs) ==> jobs == old(jobs) && rows == old(rows) && trace == old(trace)
      ensures id in old(jobs) ==> var snap := mutate(old(jobs)[id]);
        && jobs == NewJobs(old(jobs), Store(snap))
        && rows == NewRows(old(rows), Save(snap), works && config.hasDatabase)
        && trace == old(trace)[id :=
             TraceOf(old(trace), id) + [Entered(snap.status)] + [SentToDatabase(snap.status)] + Publishing(snap.status)]
    {
      if id in jobs {
        var snap := mutate(jobs[id]);
        jobs := jobs[id := snap];
        Note(id, Entered(snap.status));
        PersistJob(snap, works);
        PublishLifecycle(snap);
      }
    }

    /** The creation times and ids of the finished jobs, in hash-map order. */
    method CollectFinished() returns (candidates: seq<Candidate>)
      ensures multiset(candidates) == multiset(CandidatesOf(jobs, jobs.Keys))
    {
      candidates := [];
      var pending := jobs.Keys;
      ghost var seen: set<JobId> := {};
      while pending != {}
        invariant pending + seen == jobs.Keys && pending !! seen
        invariant multiset(candidates) == multiset(CandidatesOf(jobs, seen))
        decreases |pending|
      {
        var id :| id in pending;
        CandidatesOfOneMore(jobs, seen, id);
        if IsTerminal(jobs[id].status) {
          candidates := candidates + [Candidate(jobs[id].createdAtMs, id)];
        }
        pending, seen := pending - {id}, seen + {id};
      }
      assert seen == jobs.Keys;
    }

    /** The removal loop of `prune_jobs`. */
    method RemoveJobs(candidates: seq<Candidate>, count: nat)
      modifies `jobs
      ensures jobs == old(jobs) - IdsOf(candidates[..if count <= |candidates| then count else |candidates|])
    {
      var taken := if count <= |candidates| then count else |candidates|;
      var i := 0;
      while i < taken
        invariant 0 <= i <= taken
        invariant jobs == old(jobs) - IdsOf(candidates[..i])
      {
        jobs := jobs - {candidates[i].id};
        assert candidates[..i + 1] == candidates[..i] + [candidates[i]];
        assert IdsOf(candidates[..i + 1]) == IdsOf(candidates[..i]) + {candidates[i].id};
        i := i + 1;
      }
    }

    /** The request ids of the retained jobs, collected from the table. */
    method RetainedRequestIds() returns (retained: set<string>)
      ensures retained == ClaimedIds(jobs)
    {
      retained := {};
      var pending := jobs.Keys;
      while pending != {}
        invariant pending <= jobs.Keys
        invariant retained == ClaimedIds(Restrict(jobs, jobs.Keys - pending))
        decreases |pending|
      {
        var id :| id in pending;
        ClaimsOfOneMore(jobs, pending, id);
        var claim := RequestId(jobs[id].request);
        if claim.Some? {
          retained := retained + {claim.value};
        }
        pending := pending - {id};
      }
      assert Restrict(jobs, jobs.Keys - {}) == jobs;
    }

    /** The first half of `prune_jobs`: the oldest finished jobs go. */
    method RemoveOldest()
      modifies `jobs
      ensures IsPruned(old(jobs), jobs, config.maxJobs)
    {
      if |jobs| > config.maxJobs {
        var candidates := CollectFinished();
        var sorted := SortByAge(candidates);
        SortIsSorted(candidates);
        var excess := |jobs| - config.maxJobs;
        PrefixIsPruned(jobs, sorted, if excess <= |sorted| then excess else |sorted|, config.maxJobs);
        RemoveJobs(sorted, excess);
      } else {
        PruneNothing(jobs, config.maxJobs);
      }
    }

    /** The second half: request ids of jobs that are gone go too. */
    method CleanRequestIds()
      modifies `requestIds
      ensures requestIds == old(requestIds) * ClaimedIds(jobs)
    {
      var retained := RetainedRequestIds();
      requestIds := set rid | rid in requestIds && rid in retained;
    }

    /** `prune_jobs`: an exact prune, which is what the engine's pruning step allows, and its effect on the ids. */
    method PruneJobs()
      modifies `jobs, `requestIds
      ensures IsPruned(old(jobs), jobs, config.maxJobs)
      ensures requestIds == NewIds(old(requestIds), Retain(jobs))
    {
      RemoveOldest();
      CleanRequestIds();
    }

    /** The scan for the job that carries a request id. */
    method FindByRequestId(requestId: string) returns (found: Option<JobRecord>)
      ensures IsLookup(jobs, requestId, found)
    {
      found := None;
      var pending := jobs.Keys;
      while pending != {} && found.None?
        invariant pending <= jobs.Keys
        invariant found.Some? ==> exists id :: Claims(jobs, id, requestId) && jobs[id] == found.value
        invariant found.None? ==> forall id :: id in jobs && id !in pending ==> !Claims(jobs, id, requestId)
        decreases |pending|
      {
        var id :| id in pending;
        if RequestId(jobs[id].request) == Some(requestId) {
          found := Some(jobs[id]);
          assert Claims(jobs, id, requestId);
        }
        pending := pending - {id};
      }
    }

    /** The count behind the admission check. */
    method CountQueued() returns (queued: nat)
      ensures queued == |QueuedIds(jobs)|
    {
      queued := 0;
      var pending := jobs.Keys;
      ghost var counted: set<JobId> := {};
      while pending != {}
        invariant pending <= jobs.Keys
        invariant counted == set id | id in jobs && id !in pending && jobs[id].status.Queued?
        invariant queued == |counted|
        decreases |pending|
      {
        var id :| id in pending;
        if jobs[id].status.Queued? {
          queued := queued + 1;
          counted := counted + {id};
        }
        pending := pending - {id};
      }
      assert counted == QueuedIds(jobs);
    }

    /** The job that an identical or a changed resubmission meets; a claim without a job is dropped. */
    method MeetExisting(request: BuildRequest, rid: string) returns (answer: Option<Answer>)
      requires RequestId(request) == Some(rid)
      modifies `requestIds
      ensures match answer
        case Some(Reattached(rec)) =>
          rec.request == request && exists id :: Claims(jobs, id, rid) && jobs[id] == rec
        case Some(Conflict) => exists id :: Claims(jobs, id, rid) && jobs[id].request != request
        case Some(_) => false
        case None => rid !in requestIds && (rid !in old(requestIds) || rid !in ClaimedIds(jobs))
      ensures requestIds == if answer.None? then old(requestIds) - {rid} else old(requestIds)
    {
      if rid in requestIds {
        ClaimedIdsExact(jobs, rid);
        var existing := FindByRequestId(rid);
        if existing.Some? {
          return Some(if existing.value.request == request then Reattached(existing.value) else Conflict);
        }
        requestIds := requestIds - {rid};
      }
      return None;
    }

    /** The insertion of a new job, and the claim it makes. */
    method InsertJob(rec: JobRecord)
      requires UniqueClaims(jobs) && ClaimedIds(jobs) <= requestIds && rec.id !in jobs
      requires RequestId(rec.request).Some? ==> RequestId(rec.request).value !in ClaimedIds(jobs)
      modifies `jobs, `requestIds, `trace
      ensures UniqueClaims(jobs) && ClaimedIds(jobs) <= requestIds
      ensures jobs == old(jobs)[rec.id := rec]
      ensures trace == Noted(old(trace), rec.id, [Entered(rec.status)])
    {
      StoreAddsClaim(jobs, rec);
      jobs := jobs[rec.id := rec];
      Note(rec.id, Entered(rec.status));
      var rid := RequestId(rec.request);
      if rid.Some? {
        requestIds := requestIds + {rid.value};
      }
    }

    /** The number, and the record with it. */
    method NumberBuild(request: BuildRequest, source: string, idMs: nat, nowMs: nat) returns (rec: JobRecord)
      modifies `counters
      ensures counters == old(counters).(submitted := old(counters.submitted) + 1)
      ensures rec == NewRecord(config, request, source, JobId(idMs, counters.submitted), nowMs)
    {
      var executor := "local";
      if request.executor.Some? {
        executor := request.executor.value;
      }
      counters := counters.(submitted := counters.submitted + 1);
      var id := JobId(idMs, counters.submitted);
      rec := JobRecord(id, Queued, request, source, executor, nowMs, None, None, config.logPath(id), None, None, None);
    }

    /** Numbering, insertion, claim and persistence of an admitted submission. */
    method RecordBuild(request: BuildRequest, source: string, idMs: nat, nowMs: nat, works: bool)
      returns (rec: JobRecord)
      requires Valid() && (RequestId(request).Some? ==> RequestId(request).value !in ClaimedIds(jobs))
      modifies `jobs, `requestIds, `counters, `rows, `trace
      ensures Valid()
      ensures rec == NewRecord(config, request, source, JobId(idMs, old(counters.submitted) + 1), nowMs)
      ensures jobs == old(jobs)[rec.id := rec]
      ensures rows == NewRows(old(rows), Save(rec), works && config.hasDatabase)
      ensures trace == old(trace)[rec.id := FxSaved()]
      ensures counters == old(counters).(submitted := old(counters.submitted) + 1)
    {
      rec := NumberBuild(request, source, idMs, nowMs);
      trace := trace[rec.id := []];
      InsertJob(rec);
      PersistJob(rec, works);
      assert TraceOf(trace, rec.id) == FxSaved();
    }

    /** The same, then pruning. */
    method AcceptBuild(request: BuildRequest, source: string, idMs: nat, nowMs: nat, works: bool)
      returns (rec: JobRecord)
      requires Valid() && (RequestId(request).Some? ==> RequestId(request).value !in ClaimedIds(jobs))
      modifies `jobs, `requestIds, `counters, `rows, `trace
      ensures Valid() && requestIds == ClaimedIds(jobs)
      ensures rec == NewRecord(config, request, source, JobId(idMs, old(counters.submitted) + 1), nowMs)
      ensures IsPruned(old(jobs)[rec.id := rec], jobs, config.maxJobs)
      ensures rows == NewRows(old(rows), Save(rec), works && config.hasDatabase)
      ensures trace == old(trace)[rec.id := FxSaved()]
      ensures counters == old(counters).(submitted := old(counters.submitted) + 1)
    {
      rec := RecordBuild(request, source, idMs, nowMs, works);
      PruneAfterInsert();
    }

    method PruneAfterInsert()
      requires Valid()
      modifies `jobs, `requestIds
      ensures Valid() && requestIds == ClaimedIds(jobs)
      ensures IsPruned(old(jobs), jobs, config.maxJobs)
    {
      PruneJobs();
      PrunedConsistent(old(jobs), jobs, config.maxJobs, old(requestIds), counters.submitted);
    }

    /** Validation, deduplication and backpressure: the answer, unless the submission is to be accepted. */
    method Screen(request: BuildRequest) returns (answer: Option<Answer>)
      requires Valid()
      modifies `requestIds, `counters
      ensures Valid() && requestIds <= old(requestIds)
      ensures answer.Some? && old(requestIds) == ClaimedIds(jobs) ==> requestIds == old(requestIds)
      ensures answer.Some? ==> !answer.value.Accepted?
      ensures counters == old(counters).(rejected :=
        old(counters.rejected) + (if answer.None? || answer.value.Reattached? then 0 else 1))
      ensures answer == Some(Invalid) <==> !config.admits(request)
      ensures match answer
        case Some(Reattached(rec)) =>
          && RequestId(request).Some? && rec.request == request
          && exists id :: Claims(jobs, id, RequestId(request).value) && jobs[id] == rec
        case Some(Conflict) =>
          && RequestId(request).Some?
          && exists id :: Claims(jobs, id, RequestId(request).value) && jobs[id].request != request
        case Some(Invalid) => true
        case _ =>
          && (RequestId(request).Some? ==> RequestId(request).value !in ClaimedIds(jobs))
          && (answer.Some? <==> |QueuedIds(jobs)| >= config.maxQueued)
    {
      if !config.admits(request) {
        counters := counters.(rejected := counters.rejected + 1);
        return Some(Invalid);
      }
      var rid := RequestId(request);
      if rid.Some? {
        var met := MeetExisting(request, rid.value);
        if met.Some? {
          if met.value.Conflict? {
            counters := counters.(rejected := counters.rejected + 1);
          }
          MetClaim(jobs, rid.value);
          return met;
        }
      }
      var queued := CountQueued();
      if queued >= config.maxQueued {
        counters := counters.(rejected := counters.rejected + 1);
        return Some(QueueFull);
      }
      return None;
    }

    /**
     * `enqueue_build` with nothing in between. The five answers exclude one another, so the contract
     * says which one is given; only acceptance changes more than the `rejected` counter, apart from a
     * claim that no retained job carries, which the attempt drops.
     */
    method EnqueueBuild(request: BuildRequest, source: string, idMs: nat, nowMs: nat, works: bool)
      returns (answer: Answer)
      requires Valid()
      modifies `jobs, `requestIds, `counters, `rows, `trace
      ensures Valid()
      ensures match answer
        case Invalid => !config.admits(request)
        case Reattached(rec) =>
          && config.admits(request) && RequestId(request).Some? && rec.request == request
          && exists id :: Claims(old(jobs), id, RequestId(request).value) && old(jobs)[id] == rec
        case Conflict =>
          && config.admits(request) && RequestId(request).Some?
          && exists id :: Claims(old(jobs), id, RequestId(request).value) && old(jobs)[id].request != request
        case QueueFull =>
          && config.admits(request) && (RequestId(request).Some? ==> RequestId(request).value !in ClaimedIds(old(jobs)))
          && |QueuedIds(old(jobs))| >= config.maxQueued
        case Accepted(rec) =>
          && config.admits(request) && (RequestId(request).Some? ==> RequestId(request).value !in ClaimedIds(old(jobs)))
          && |QueuedIds(old(jobs))| < config.maxQueued
          && rec == JobRecord(
               JobId(idMs, old(counters.submitted) + 1), Queued, request, source,
               if request.executor.Some? then request.executor.value else "local",
               nowMs, None, None, config.logPath(JobId(idMs, old(counters.submitted) + 1)), None, None, None)
          && IsPruned(old(jobs)[rec.id := rec], jobs, config.maxJobs) && requestIds == ClaimedIds(jobs)
          && rows == NewRows(old(rows), Save(rec), works && config.hasDatabase)
          && trace == old(trace)[rec.id := FxSaved()]
          && counters == old(counters).(submitted := old(counters.submitted) + 1)
      ensures !answer.Accepted? ==>
        && jobs == old(jobs) && rows == old(rows) && trace == old(trace)
        && requestIds <= old(requestIds) && (old(requestIds) == ClaimedIds(old(jobs)) ==> requestIds == old(requestIds))
        && counters == old(counters).(rejected := old(counters.rejected) + (if answer.Reattached? then 0 else 1))
    {
      var refusal := Screen(request);
      if refusal.Some? {
        return refusal.value;
      }
      var rec := AcceptBuild(request, source, idMs, nowMs, works);
      return Accepted(rec);
    }

    /**
     * `run_job` with nothing in between: the job ends as the world's answers demand, what it did from
     * taking its permit on completes the history that the interleaved engine prescribes, and a job
     * that is not in the table fails without touching it.
     */
    method RunJob(id: JobId, w: World)
      requires Valid() && permits > 0
      requires id in jobs ==> jobs[id].id == id && TraceOf(trace, id) == FxSaved()
      modifies `jobs, `counters, `permits, `rows, `trace
      ensures Valid()
      ensures permits == old(permits)
      ensures id in old(jobs) ==> var verdict := VerdictOf(config, w);
        && jobs == old(jobs)[id := LastRecord(old(jobs)[id], w, verdict)]
        && rows == RowsAfter(config, old(rows), old(jobs)[id], w, verdict)
        && trace == old(trace)[id := FxDone(verdict)]
        && counters == CountersAfter(old(counters), w.lock, verdict)
      ensures id !in old(jobs) ==>
        && jobs == old(jobs) && rows == old(rows)
        && counters == CountersAfter(old(counters), Disabled, Ran(None, Some(DISAPPEARED)))
    {
      RunBody(id, w);
      if id in old(jobs) {
        StoreKeepsClaims(old(jobs), jobs[id]);
      }
    }

    method RunBody(id: JobId, w: World)
      requires permits > 0
      requires id in jobs ==> jobs[id].id == id && TraceOf(trace, id) == FxSaved()
      modifies `jobs, `counters, `permits, `rows, `trace
      ensures permits == old(permits)
      ensures id in old(jobs) ==> var verdict := VerdictOf(config, w);
        && jobs == old(jobs)[id := LastRecord(old(jobs)[id], w, verdict)]
        && rows == RowsAfter(config, old(rows), old(jobs)[id], w, verdict)
        && trace == old(trace)[id := FxDone(verdict)]
        && counters == CountersAfter(old(counters), w.lock, verdict)
      ensures id !in old(jobs) ==>
        && jobs == old(jobs) && rows == old(rows)
        && counters == CountersAfter(old(counters), Disabled, Ran(None, Some(DISAPPEARED)))
    {
      var stage := Prepare(id, w.lock);
      match stage
      case Success(grant) => Execute(id, grant, w);
      case Failure(reason) => Deny(id, reason, w);
    }

    /** The permit, and for a job that is there the lock. */
    method Prepare(id: JobId, lock: LockOutcome) returns (stage: Result<Option<LockGrant>, string>)
      requires permits > 0
      modifies `counters, `permits, `trace
      ensures permits == old(permits) - 1
      ensures stage == if id in jobs then LockStage(config, lock) else Success(None)
      ensures trace == Noted(old(trace), id,
        [PermitTaken] + if id in jobs && lock.Acquired? then [LockGranted(lock.grant.fencingToken)] else [])
      ensures counters == if id !in jobs then old(counters) else old(counters).(
        locksAcquired := old(counters.locksAcquired) + (if lock.Acquired? then 1 else 0),
        lockFailures := old(counters.lockFailures) + (if lock.Busy? || lock.Unavailable? then 1 else 0))
    {
      permits := permits - 1;
      Note(id, PermitTaken);
      stage := Success(None);
      assert [PermitTaken] + [] == [PermitTaken];
      if id in jobs {
        stage := AskForLock(id, lock);
        if lock.Acquired? {
          NotedTwice(old(trace), id, [PermitTaken], [LockGranted(lock.grant.fencingToken)]);
        }
      }
    }

    /** The lock stage: what the outcome of the acquisition is counted as, and what it decides. */
    method AskForLock(id: JobId, lock: LockOutcome) returns (stage: Result<Option<LockGrant>, string>)
      modifies `counters, `trace
      ensures stage == LockStage(config, lock)
      ensures trace ==
        if lock.Acquired? then Noted(old(trace), id, [LockGranted(lock.grant.fencingToken)]) else old(trace)
      ensures counters == old(counters).(
        locksAcquired := old(counters.locksAcquired) + (if lock.Acquired? then 1 else 0),
        lockFailures := old(counters.lockFailures) + (if lock.Busy? || lock.Unavailable? then 1 else 0))
    {
      match lock {
        case Disabled =>
          return Success(None);
        case Acquired(grant) =>
          counters := counters.(locksAcquired := counters.locksAcquired + 1);
          Note(id, LockGranted(grant.fencingToken));
          return Success(Some(grant));
        case Busy(key) =>
          counters := counters.(lockFailures := counters.lockFailures + 1);
          return Failure("another build holds the fiducia lock for " + key + "; retry later");
        case Unavailable(error) =>
          counters := counters.(lockFailures := counters.lockFailures + 1);
          if config.coordinationRequired {
            return Failure("fiducia coordination is required but unavailable: " + error);
          }
          return Success(None);
      }
    }

    /** `run_job` from the `running` increment on. */
    method Execute(id: JobId, grant: Option<LockGrant>, w: World)
      requires id in jobs ==> jobs[id].id == id && TraceOf(trace, id) == FxGranted(grant)
      requires id !in jobs ==> grant.None?
      modifies `jobs, `counters, `permits, `rows, `trace
      ensures permits == old(permits) + 1
      ensures id in old(jobs) ==> var verdict := Ran(grant, w.error);
        && jobs == old(jobs)[id := LastRecord(old(jobs)[id], w, verdict)]
        && rows == RowsAfter(config, old(rows), old(jobs)[id], w, verdict)
        && trace == old(trace)[id := FxDone(verdict)]
        && counters == CountersAfter(old(counters), Disabled, verdict)
      ensures id !in old(jobs) ==>
        && jobs == old(jobs) && rows == old(rows)
        && counters == CountersAfter(old(counters), Disabled, Ran(None, Some(DISAPPEARED)))
    {
      BeginRunning(id, grant, w);
      var error := CallExecutor(id, grant, w.error);
      EndRunning(id, grant);
      Finish(id, grant, error, w);
    }

    /** Into the gauge, and the record becomes `Running`. */
    method BeginRunning(id: JobId, grant: Option<LockGrant>, w: World)
      requires id in jobs ==> jobs[id].id == id && TraceOf(trace, id) == FxGranted(grant)
      modifies `jobs, `counters, `rows, `trace
      ensures counters == old(counters).(running := old(counters.running) + 1)
      ensures id in old(jobs) ==> var snap := MarkRunning(old(jobs)[id], w.startMs, grant);
        && jobs == old(jobs)[id := snap] && trace == old(trace)[id := FxRunPublished(grant)]
        && rows == NewRows(old(rows), Save(snap), w.startSaved && config.hasDatabase)
      ensures id !in old(jobs) ==> jobs == old(jobs) && rows == old(rows)
    {
      counters := counters.(running := counters.running + 1);
      UpdateJob(id, rec => MarkRunning(rec, w.startMs, grant), w.startSaved);
    }

    /** Out of the gauge, and the permit goes back. */
    method EndRunning(id: JobId, grant: Option<LockGrant>)
      modifies `counters, `permits, `trace
      ensures permits == old(permits) + 1 && counters == old(counters).(running := old(counters.running) - 1)
      ensures TraceOf(old(trace), id) == FxReleased(grant) ==> trace == old(trace)[id := FxReturned(grant)]
    {
      counters := counters.(running := counters.running - 1);
      permits := permits + 1;
      Note(id, PermitReturned);
    }

    /** The executor under its deadline, then the release of the distributed lock. */
    method CallExecutor(id: JobId, grant: Option<LockGrant>, answer: Option<string>) returns (error: Option<string>)
      modifies `trace
      ensures error == if id in jobs then answer else Some(DISAPPEARED)
      ensures id in jobs ==> trace == old(trace)[id := TraceOf(old(trace), id) + [Began] + ReleaseEffects(grant)]
    {
      error := Some(DISAPPEARED);
      if id in jobs {
        Note(id, Began);
        error := answer;
      }
      if grant.Some? {
        Note(id, LockReleased(grant.value.fencingToken));
      } else {
        assert TraceOf(old(trace), id) + [Began] + [] == TraceOf(old(trace), id) + [Began];
      }
    }

    /** The outcome counters and the terminal update. */
    method Finish(id: JobId, grant: Option<LockGrant>, error: Option<string>, w: World)
      requires id in jobs ==> jobs[id].id == id && TraceOf(trace, id) == FxReturned(grant)
      modifies `jobs, `counters, `rows, `trace
      ensures var verdict := Ran(grant, error);
        && counters == CountersAfter(old(counters), Disabled, verdict)
        && (id in old(jobs) ==> var last := Conclude(old(jobs)[id], w.endMs, verdict);
              && jobs == old(jobs)[id := last] && trace == old(trace)[id := FxDone(verdict)]
              && rows == NewRows(old(rows), Save(last), w.endSaved && config.hasDatabase))
        && (id !in old(jobs) ==> jobs == old(jobs) && rows == old(rows))
    {
      match error
      case None =>
        counters := counters.(succeeded := counters.succeeded + 1);
        UpdateJob(id, rec => MarkSucceeded(rec, w.endMs), w.endSaved);
      case Some(text) =>
        counters := counters.(failed := counters.failed + 1);
        counters := counters.(commandFailures := counters.commandFailures + 1);
        UpdateJob(id, rec => MarkFailed(rec, w.endMs, text), w.endSaved);
    }

    /** The two refusals at the lock stage; the permit goes back after the terminal update. */
    method Deny(id: JobId, reason: string, w: World)
      requires id in jobs && jobs[id].id == id && TraceOf(trace, id) == FxPermit()
      modifies `jobs, `counters, `permits, `rows, `trace
      ensures permits == old(permits) + 1
      ensures counters == CountersAfter(old(counters), Disabled, Denied(reason))
      ensures jobs == old(jobs)[id := MarkFailed(old(jobs)[id], w.endMs, reason)]
      ensures rows == RowsAfter(config, old(rows), old(jobs)[id], w, Denied(reason))
      ensures trace == old(trace)[id := FxDone(Denied(reason))]
    {
      counters := counters.(failed := counters.failed + 1);
      UpdateJob(id, rec => MarkFailed(rec, w.endMs, reason), w.endSaved);
      permits := permits + 1;
      Note(id, PermitReturned);
    }
  }

  /** The life of a job that nothing interrupts, as the world answers it. */
  function LifeIn(c: EngineConfig, submission: Submission, w: World): Life {
    var refused := Refusal(c.coordinationRequired, w.lock).Some?;
    Life(Some(submission), Some(w.lock), if refused then None else Some(w.startMs),
         if refused then None else Some(w.error), Some(w.endMs))
  }

  /**
   * Run alone or among others, a job ends the same way: the record that `RunJob` leaves is the one that
   * the interleaved engine leaves to a job with these answers.
   */
  lemma RunJobTellsLife(c: EngineConfig, id: JobId, submission: Submission, w: World)
    ensures var first := RecordOf(c, id, UNBORN.(submission := Some(submission)));
      LastRecord(first, w, VerdictOf(c, w)) == RecordOf(c, id, LifeIn(c, submission, w))
  {
  }

  /**
   * The job is counted once as succeeded or failed, and every failure, and every lock failure that was
   * tolerated, has its cause counted: the balance that the interleaved engine keeps.
   */
  lemma RunJobBalances(c: EngineConfig, ctr: Counters, w: World)
    ensures var after := CountersAfter(ctr, w.lock, VerdictOf(c, w));
      var tolerated := if w.lock.Unavailable? && !c.coordinationRequired then 1 else 0;
      && after.submitted == ctr.submitted && after.running == ctr.running && after.rejected == ctr.rejected
      && after.succeeded + after.failed == ctr.succeeded + ctr.failed + 1
      && (after.succeeded == ctr.succeeded + 1 <==>
            Refusal(c.coordinationRequired, w.lock).None? && w.error.None?)
      && after.failed - ctr.failed + tolerated ==
           (after.commandFailures - ctr.commandFailures) + (after.lockFailures - ctr.lockFailures)
      && after.locksAcquired - ctr.locksAcquired == (if w.lock.Acquired? then 1 else 0)
  {
  }

  /** The lock stage decides as the engine does when this answer arrives. */
  lemma LockStageFollowsEngine(c: EngineConfig, s: State, id: JobId, key: string, e: Choice)
    ensures var next := StartMove(c, s, Starter(id, CallLock(Some(key))), e).next;
      match LockStage(c, e.lock)
      case Success(grant) => next == Worker(id, grant, Begin)
      case Failure(reason) => next == Starter(id, LockFailed(reason))
  {
  }

  lemma MetClaim(jobs: Table, rid: string)
    ensures rid in ClaimedIds(jobs) <==> exists id :: Claims(jobs, id, rid)
  {
    ClaimedIdsExact(jobs, rid);
  }

  lemma PrunedConsistent(jobs: Table, kept: Table, maxJobs: nat, ids: set<string>, submitted: nat)
    requires IsPruned(jobs, kept, maxJobs) && Consistent(jobs, ids, submitted)
    ensures Consistent(kept, ids * ClaimedIds(kept), submitted) && ids * ClaimedIds(kept) == ClaimedIds(kept)
  {
    SubtableClaims(jobs, kept);
  }

  function Restrict(jobs: Table, ids: set<JobId>): Table
    requires ids <= jobs.Keys
  {
    map id | id in ids :: jobs[id]
  }

  lemma ClaimsOfOneMore(jobs: Table, pending: set<JobId>, id: JobId)
    requires pending <= jobs.Keys && id in pending
    ensures ClaimedIds(Restrict(jobs, jobs.Keys - (pending - {id}))) ==
      ClaimedIds(Restrict(jobs, jobs.Keys - pending)) +
      if RequestId(jobs[id].request).Some? then {RequestId(jobs[id].request).value} else {}
  {
    var before, after := Restrict(jobs, jobs.Keys - pending), Restrict(jobs, jobs.Keys - (pending - {id}));
    forall rid
      ensures rid in ClaimedIds(after) <==> rid in ClaimedIds(before) || RequestId(jobs[id].request) == Some(rid)
    {
      ClaimedIdsExact(before, rid);
      ClaimedIdsExact(after, rid);
      assert forall x :: Claims(before, x, rid) ==> Claims(after, x, rid);
      assert RequestId(jobs[id].request) == Some(rid) ==> Claims(after, id, rid);
    }
  }

  lemma NotedTwice(trace: map<JobId, seq<Effect>>, id: JobId, fx: seq<Effect>, gx: seq<Effect>)
    ensures Noted(Noted(trace, id, fx), id, gx) == Noted(trace, id, fx + gx)
  {
    assert TraceOf(Noted(trace, id, fx), id) == TraceOf(trace, id) + fx;
    assert TraceOf(trace, id) + fx + gx == TraceOf(trace, id) + (fx + gx);
  }
}
