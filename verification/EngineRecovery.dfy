/** What boot recovery does to jobs that had ended, when their last write was lost. */
module EngineRecovery {
  import opened Wrappers
  import opened Types
  import opened JobTable
  import opened Persistence
  import opened Engine
  import opened EngineInvariants
  import opened EngineSafety
  import opened EngineProgress
  import opened EngineDurability
  import opened EngineWitness
  import opened RequestMap

  /** The write of the terminal record of job `id` goes through. */
  predicate WritesEnd(s: State, ev: Event, id: JobId) {
    && ev.Step? && ev.t < |s.tasks| && ev.choice.applied
    && s.tasks[ev.t].Closer? && s.tasks[ev.t].id == id && s.tasks[ev.t].ep.PersistEnd?
  }

  /** It went through since the process started. */
  function EndWritten(run: seq<State>, events: seq<Event>, i: nat, id: JobId): bool
    requires i <= |events| < |run|
  {
    && i > 0 && !events[i - 1].Restart?
    && (WritesEnd(run[i - 1], events[i - 1], id) || EndWritten(run, events, i - 1, id))
  }

  predicate HasTerminalRow(s: State, id: JobId) {
    id in s.past.book && id in s.rows && IsTerminalText(s.rows[id].status)
  }

  /** Terminal records are written by runners that close their job, and by nobody else. */
  lemma SavesOfOwner(c: EngineConfig, s: State, k: Task, e: Choice, id: JobId, first: JobRecord)
    requires TaskFact(c, k) && OwnJob(s.jobs, id, k, first)
    ensures var m := NextMove(c, s, k, e);
      && (m.change.Save? ==>
            m.change.rec.id == id && (IsTerminal(m.change.rec.status) <==> k.Closer? && k.ep.PersistEnd?))
      && (k.Closer? && k.ep.PersistEnd? ==> m.change.Save?) && !m.change.Enroll?
  {
  }

  lemma UpsertedStatus(rows: Rows, rec: JobRecord, id: JobId)
    ensures id != rec.id && id in rows ==> id in Upsert(rows, rec) && Upsert(rows, rec)[id] == rows[id]
    ensures id != rec.id && id !in rows ==> id !in Upsert(rows, rec)
    ensures rec.id in Upsert(rows, rec) && Upsert(rows, rec)[rec.id].status == StatusText(rec.status)
  {
  }

  /** A move changes the row of job `id` only by a write of its owner. */
  lemma MoveWritesRow(rows: Rows, change: Change, applied: bool, id: JobId)
    ensures var rows' := NewRows(rows, change, applied);
      if change.Save? && applied && change.rec.id == id then
        id in rows' && rows'[id].status == StatusText(change.rec.status)
      else (id in rows' <==> id in rows) && (id in rows ==> rows'[id] == rows[id])
  {
    if change.Save? && applied {
      UpsertedStatus(rows, change.rec, id);
    }
  }

  lemma StepSaves(c: EngineConfig, s: State, t: nat, e: Choice, id: JobId)
    requires Reachable(c, s) && CanStep(c, s, t, e)
    ensures var change := NextMove(c, s, s.tasks[t], e).change;
      && (change.Save? && change.rec.id == id && e.applied && IsTerminal(change.rec.status) <==>
            WritesEnd(s, Step(t, e), id))
  {
    var k := s.tasks[t];
    TaskView(c, s, t);
    if Owned(k).Some? {
      var first := TaskJob(c, s, t);
      SavesOfOwner(c, s, k, e, Owned(k).value, first);
    } else {
      OnlyOwnersWrite(c, s, k, e);
    }
  }

  lemma StepWritesEnd(c: EngineConfig, s: State, t: nat, e: Choice, id: JobId)
    requires Reachable(c, s) && CanStep(c, s, t, e) && id in s.past.book
    ensures var rows' := NewRows(s.rows, NextMove(c, s, s.tasks[t], e).change, e.applied);
      (id in rows' && IsTerminalText(rows'[id].status)) <==>
        HasTerminalRow(s, id) || WritesEnd(s, Step(t, e), id)
  {
    StepSaves(c, s, t, e, id);
    MoveWritesRow(s.rows, NextMove(c, s, s.tasks[t], e).change, e.applied, id);
    if HasTerminalRow(s, id) {
      StepMovesRowsForward(c, s, t, e, id);
    }
  }

  /** Job `id` of another process, or of none, is not written by this one. */
  lemma StrangersRowStays(c: EngineConfig, s: State, t: nat, e: Choice, id: JobId)
    requires Reachable(c, s) && CanStep(c, s, t, e) && id !in s.past.book
    ensures var change := NextMove(c, s, s.tasks[t], e).change;
      && !WritesEnd(s, Step(t, e), id)
      && (change.Enroll? && change.rec.id == id ==> id !in NewRows(s.rows, change, e.applied))
  {
    JobsView(c, s);
    NewNumberHasNoRow(c, s, t, e);
  }

  lemma StepKeepsEnd(c: EngineConfig, s: State, t: nat, e: Choice, id: JobId)
    requires Reachable(c, s) && CanStep(c, s, t, e)
    ensures HasTerminalRow(Next(c, s, Step(t, e)), id) <==>
      HasTerminalRow(s, id) || WritesEnd(s, Step(t, e), id)
  {
    BookGrows(s.past.book, t, |s.tasks|, NextMove(c, s, s.tasks[t], e).change, id);
    if id in s.past.book {
      StepWritesEnd(c, s, t, e, id);
    } else {
      StrangersRowStays(c, s, t, e, id);
    }
  }

  lemma {:induction false} TerminalRowIffWritten(c: EngineConfig, run: seq<State>, events: seq<Event>, i: nat,
                                               id: JobId)
    requires IsRun(c, run, events) && i <= |events|
    ensures HasTerminalRow(run[i], id) <==> EndWritten(run, events, i, id)
  {
    if i > 0 {
      TerminalRowIffWritten(c, run, events, i - 1, id);
      PrefixIsReachable(c, run, events, i - 1);
      assert run[i - 1 + 1] == Next(c, run[i - 1], events[i - 1]);
      if events[i - 1].Step? {
        StepKeepsEnd(c, run[i - 1], events[i - 1].t, events[i - 1].choice, id);
      }
    }
  }

  /** A terminal row of a job that has ended in memory says how it ended. */
  lemma TerminalRowFitsMemory(c: EngineConfig, s: State, id: JobId)
    requires Reachable(c, s) && id in s.jobs && IsTerminal(s.jobs[id].status) && HasTerminalRow(s, id)
    ensures s.rows[id].status == StatusText(s.jobs[id].status) && s.rows[id].error == s.jobs[id].error
  {
    ReachableInv(c, s);
    OwnerTellsEnd(s.jobs, id, s.tasks[s.past.book[id].owner], s.past.book[id].first, s.past.saved[id]);
  }

  lemma OwnerTellsEnd(jobs: Table, id: JobId, k: Task, first: JobRecord, saved: JobRecord)
    requires OwnJob(jobs, id, k, first) && SavedFact(saved, k) && id in jobs
    requires IsTerminal(jobs[id].status) && IsTerminal(saved.status)
    ensures saved.status == jobs[id].status && saved.error == jobs[id].error
  {
  }

  /**
   * Recovery reports the outcome that a job had before the restart if and only if the write of its
   * terminal record went through; if not, its row was still queued or running, and a job that
   * succeeded is recorded as failed.
   */
  lemma RecoveryKeepsOutcomeIff(c: EngineConfig, run: seq<State>, events: seq<Event>, id: JobId, floor: nat, atMs: nat)
    requires IsRun(c, run, events) && Can(c, run[|events|], Restart(floor, true, atMs))
    requires var s := run[|events|]; id in s.jobs && IsTerminal(s.jobs[id].status) && id in s.rows
    ensures var s, written := run[|events|], EndWritten(run, events, |events|, id);
      var row := Next(c, s, Restart(floor, true, atMs)).rows[id];
      && (written ==> row.status == StatusText(s.jobs[id].status) && row.error == s.jobs[id].error)
      && (!written ==> row.status == "failed" && row.error == Some(INTERRUPTED))
      && (!written <==> s.rows[id].status in ["queued", "running"])
      && (s.jobs[id].status.Succeeded? ==> (row.status == "succeeded" <==> written))
  {
    var s := run[|events|];
    PrefixIsReachable(c, run, events, |events|);
    TerminalRowIffWritten(c, run, events, |events|, id);
    RecoveryFollowsRow(c, s, id, floor, atMs);
  }

  /** At one state: the outcome survives exactly where the row is terminal already. */
  lemma RecoveryFollowsRow(c: EngineConfig, s: State, id: JobId, floor: nat, atMs: nat)
    requires Reachable(c, s) && Can(c, s, Restart(floor, true, atMs))
    requires id in s.jobs && IsTerminal(s.jobs[id].status) && id in s.rows
    ensures var row := Next(c, s, Restart(floor, true, atMs)).rows[id];
      if HasTerminalRow(s, id) then row.status == StatusText(s.jobs[id].status) && row.error == s.jobs[id].error
      else row.status == "failed" && row.error == Some(INTERRUPTED) && s.rows[id].status in ["queued", "running"]
  {
    JobIsInBook(c, s, id);
    RowsMirrorSaved(c, s);
    RecoveredRow(s.rows, s.past.saved, id, atMs);
    if HasTerminalRow(s, id) {
      TerminalRowFitsMemory(c, s, id);
    }
  }

  lemma JobIsInBook(c: EngineConfig, s: State, id: JobId)
    requires Reachable(c, s) && id in s.jobs
    ensures id in s.past.book
  {
    ReachableInv(c, s);
  }

  lemma RecoveredRow(rows: Rows, saved: Table, id: JobId, atMs: nat)
    requires Mirrors(rows, saved) && id in rows
    ensures id in Recover(rows, atMs)
    ensures var row := Recover(rows, atMs)[id];
      if IsTerminalText(rows[id].status) then row == rows[id]
      else row.status == "failed" && row.error == Some(INTERRUPTED) && rows[id].status in ["queued", "running"]
  {
    assert rows[id] == Project(saved[id]);
  }

  /** The rows are these and no others. */
  function RowsAre(rows: Rows): State -> bool {
    (s: State) => s.rows == rows
  }

  lemma RowsAreKept(c: EngineConfig, rows: Rows)
    ensures IsKept(c, RowsAre(rows))
  {
    forall s, ev | Reachable(c, s) && RowsAre(rows)(s) && Can(c, s, ev) && IsQuiet(c, s, ev)
      ensures RowsAre(rows)(Next(c, s, ev))
    {
    }
  }

  /** The first job is written to the database as queued, and runs from there. */
  lemma FirstIsWritten(c: EngineConfig, request: BuildRequest, source: string) returns (s: State, id: JobId)
    requires CanServe(c, Anything(), request) && c.hasDatabase
    ensures Reachable(c, s) && IsRunner(s, Starter(id, WaitPermit)) && id in s.jobs
    ensures id in s.rows && s.rows[id].status == "queued"
  {
    var rec;
    s, rec := FirstIsInserted(c, Anything(), request, source);
    var e := ChoiceExists(c, s, s.tasks[0]);
    e := e.(applied := true);
    s := AloneSteps(c, Anything(), s, 0, e);
    assert s.tasks == [Adder(RequestId(rec.request), rec, WaitPruneIds)];
    RowsAreKept(c, s.rows);
    s := PersistedIsSpawned(c, RowsAre(s.rows), s, rec);
    id := rec.id;
  }

  /** A runner gets past the lock in any configuration, if the lock service lets it. */
  lemma RunnerStarts(c: EngineConfig, s0: State, id: JobId) returns (s: State, grant: Option<LockGrant>)
    requires Reachable(c, s0) && IsRunner(s0, Starter(id, WaitPermit)) && id in s0.jobs && c.maxConcurrent > 0
    ensures Reachable(c, s) && IsRunner(s, Worker(id, grant, Begin)) && s.rows == s0.rows
  {
    RowsAreKept(c, s0.rows);
    s := SpawnedAsks(c, RowsAre(s0.rows), s0, id);
    var key := c.lockKey(s0.jobs[id].request);
    grant := if c.coordinationEnabled then Some(LockGrant(key, c.holder, 0)) else None;
    var e := ChoiceExists(c, s, s.tasks[1]);
    e := e.(lock := if grant.Some? then Acquired(grant.value) else Disabled);
    s := AloneSteps(c, RowsAre(s0.rows), s, 1, e);
  }

  /** Its executor succeeds, and so far none of its further writes went through. */
  lemma RunnerExecutes(c: EngineConfig, s0: State, id: JobId, grant: Option<LockGrant>) returns (s: State)
    requires Reachable(c, s0) && IsRunner(s0, Worker(id, grant, Begin)) && c.maxConcurrent > 0
    ensures Reachable(c, s) && IsRunner(s, Winder(id, grant, None, Release)) && s.rows == s0.rows
  {
    RowsAreKept(c, s0.rows);
    s := WorkerIsReady(c, RowsAre(s0.rows), s0, id, grant);
    s := ReadyExecutes(c, s, id, grant);
  }

  lemma ReadyExecutes(c: EngineConfig, s0: State, id: JobId, grant: Option<LockGrant>) returns (s: State)
    requires Reachable(c, s0) && IsRunner(s0, Worker(id, grant, GetJob)) && id in s0.jobs && c.maxConcurrent > 0
    ensures Reachable(c, s) && IsRunner(s, Winder(id, grant, None, Release)) && s.rows == s0.rows
  {
    AnythingIsKept(c);
    var e;
    s, e := AloneMoves(c, Anything(), s0, 1);
    assert IsRunner(s, Worker(id, grant, Execute(s0.jobs[id])));
    s, e := AloneMoves(c, Anything(), s, 1);
  }

  /** Nor does any later one. */
  lemma RunnerSucceeds(c: EngineConfig, s0: State, id: JobId, grant: Option<LockGrant>) returns (s: State)
    requires Reachable(c, s0) && IsRunner(s0, Worker(id, grant, Begin)) && c.maxConcurrent > 0
    ensures Reachable(c, s) && |s.tasks| == 2 && EndsWell(s.tasks[1], id) && IsDone(s.tasks[1])
    ensures s.rows == s0.rows && id in s.jobs
  {
    s := RunnerExecutes(c, s0, id, grant);
    LiveJobIsRetained(c, s, 1);
    s := RunnerFinishes(c, s, id);
  }

  /** There is always a boot time that the clock may have reached. */
  lemma {:induction false} BootTime(ids: set<JobId>, least: nat) returns (floor: nat)
    ensures floor >= least && forall id :: id in ids ==> id.atMs < floor
    decreases |ids|
  {
    floor := least;
    if id :| id in ids {
      floor := BootTime(ids - {id}, least);
      floor := if id.atMs < floor then floor else id.atMs + 1;
    }
  }

  /**
   * That happens: for every configuration with a database and a place and every admitted request there
   * is a run in which its job succeeds and the next process records it as failed.
   */
  lemma SuccessRecordedAsFailed(c: EngineConfig, request: BuildRequest, source: string, atMs: nat)
    returns (s: State, id: JobId, floor: nat)
    requires c.admits(request) && c.maxQueued > 0 && c.maxConcurrent > 0 && c.hasDatabase
    ensures Reachable(c, s) && Can(c, s, Restart(floor, true, atMs))
    ensures id in s.jobs && s.jobs[id].status.Succeeded? && id in s.rows
    ensures Next(c, s, Restart(floor, true, atMs)).rows[id].status == "failed"
  {
    AnythingServes(c, request);
    var grant;
    s, id := FirstIsWritten(c, request, source);
    s, grant := RunnerStarts(c, s, id);
    s := RunnerSucceeds(c, s, id, grant);
    floor := BootTime(s.past.book.Keys, s.past.floor);
    var first := TaskJob(c, s, 1);
  }
}
