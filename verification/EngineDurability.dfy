/** What the database holds over whole runs, restarts included. */
module EngineDurability {
  import opened Wrappers
  import opened Types
  import opened JobTable
  import opened Persistence
  import opened Engine
  import opened EngineInvariants
  import opened EngineLives
  import opened EngineOwners
  import opened EngineSafety
  import opened RequestMap

  lemma RowsMirrorSaved(c: EngineConfig, s: State)
    requires Reachable(c, s)
    ensures Mirrors(s.rows, s.past.saved)
    ensures forall id :: id in s.rows ==> s.past.saved[id].id == id
  {
    ReachableInv(c, s);
  }

  /**
   * Although an upsert leaves nine columns alone, each row is the whole of the last write: read column
   * by column it shows the record that was written.
   */
  lemma RowsMirrorLastWrites(c: EngineConfig, s: State)
    requires Reachable(c, s)
    ensures s.rows.Keys == s.past.saved.Keys
    ensures forall id :: id in s.rows ==> s.past.saved[id].id == id && Shows(s.rows[id], s.past.saved[id])
  {
    RowsMirrorSaved(c, s);
    forall id | id in s.rows ensures Shows(s.rows[id], s.past.saved[id]) {
      ProjectionShows(s.past.saved[id]);
    }
  }

  /** A new number has no row yet. */
  lemma NewNumberHasNoRow(c: EngineConfig, s: State, t: nat, e: Choice)
    requires Reachable(c, s) && CanStep(c, s, t, e)
    ensures var change := NextMove(c, s, s.tasks[t], e).change; change.Enroll? ==> change.rec.id !in s.rows
  {
    ReachableInv(c, s);
    StepFollowsRules(c, s, t, e);
  }

  lemma BookGrows(book: map<JobId, Entry>, t: nat, size: nat, change: Change, id: JobId)
    ensures id in NewBook(book, t, size, change) <==> id in book || (change.Enroll? && change.rec.id == id)
  {
  }

  /** Only the owner of a job writes its row. */
  lemma SaverIsOwner(c: EngineConfig, s: State, t: nat, e: Choice)
    requires Reachable(c, s) && CanStep(c, s, t, e)
    ensures var change := NextMove(c, s, s.tasks[t], e).change; change.Save? ==>
      && change.rec.id in s.past.book && s.past.book[change.rec.id].owner == t
  {
    StepFacts(c, s, t, e);
    JobsView(c, s);
    if Owned(s.tasks[t]).Some? {
      var first := OwnedJob(c, s, t);
      SavedByOwner(c, s, s.tasks[t], e, Owned(s.tasks[t]).value, first);
    } else {
      OnlyOwnersWrite(c, s, s.tasks[t], e);
    }
  }

  lemma OnlySnapshotsAreSaved(c: EngineConfig, s: State, k: Task, e: Choice)
    ensures var change := NextMove(c, s, k, e).change; change.Save? ==> Snapshot(k) == Some(change.rec)
  {
  }

  /** A row that an event brings or changes shows the record of its job at that moment. */
  lemma RowIsWritten(c: EngineConfig, s: State, ev: Event, id: JobId, life: Life)
    requires Reachable(c, s) && Can(c, s, ev) && JobFits(c, s, id, life)
    requires id in Next(c, s, ev).past.book && id in Next(c, s, ev).rows
    requires !(id in s.past.book && id in s.rows && Next(c, s, ev).rows[id] == s.rows[id])
    ensures life.submission.Some? && Shows(Next(c, s, ev).rows[id], RecordOf(c, id, life))
  {
    if ev.Step? {
      var change := NextMove(c, s, s.tasks[ev.t], ev.choice).change;
      NewNumberHasNoRow(c, s, ev.t, ev.choice);
      BookGrows(s.past.book, ev.t, |s.tasks|, change, id);
      assert change.Save? && change.rec.id == id && ev.choice.applied;
      SaverIsOwner(c, s, ev.t, ev.choice);
      OnlySnapshotsAreSaved(c, s, s.tasks[ev.t], ev.choice);
      RowsMirrorSaved(c, s);
      NextReachable(c, s, ev);
      RowsMirrorSaved(c, Next(c, s, ev));
      ProjectionShows(change.rec);
    }
  }

  /** Row `id` shows the record of its job as it was after `n` events. */
  ghost predicate RowShowsLife(c: EngineConfig, run: seq<State>, events: seq<Event>, i: nat, id: JobId, n: nat)
    requires i <= |events| < |run|
  {
    && n <= i && id in run[i].rows && LifeOf(run, events, n, id).submission.Some?
    && Shows(run[i].rows[id], RecordOf(c, id, LifeOf(run, events, n, id)))
  }

  predicate SameRow(s: State, s': State, id: JobId) {
    id in s.past.book && id in s.rows && id in s'.rows && s'.rows[id] == s.rows[id]
  }

  lemma NewRowShowsLife(c: EngineConfig, run: seq<State>, events: seq<Event>, i: nat, id: JobId)
    requires IsRun(c, run, events) && i < |events| && id in run[i + 1].past.book && id in run[i + 1].rows
    requires !SameRow(run[i], run[i + 1], id)
    ensures RowShowsLife(c, run, events, i + 1, id, i)
  {
    PrefixIsReachable(c, run, events, i);
    RunFits(c, run, events, i, id);
    RowIsWritten(c, run[i], events[i], id, LifeOf(run, events, i, id));
  }

  lemma SameRowShowsLife(c: EngineConfig, run: seq<State>, events: seq<Event>, i: nat, id: JobId, n: nat)
    requires i < |events| < |run| && SameRow(run[i], run[i + 1], id) && RowShowsLife(c, run, events, i, id, n)
    ensures RowShowsLife(c, run, events, i + 1, id, n)
  {
  }

  lemma NothingIsNumberedFirst(c: EngineConfig, run: seq<State>, events: seq<Event>)
    requires IsRun(c, run, events)
    ensures run[0].past.book == map[]
  {
  }

  ghost predicate RowTells(c: EngineConfig, run: seq<State>, events: seq<Event>, i: nat, id: JobId)
    requires i <= |events| < |run|
  {
    id in run[i].past.book && id in run[i].rows ==> exists n: nat :: RowShowsLife(c, run, events, i, id, n)
  }

  lemma NextRowTells(c: EngineConfig, run: seq<State>, events: seq<Event>, i: nat, id: JobId)
    requires IsRun(c, run, events) && i < |events| && RowTells(c, run, events, i, id)
    ensures RowTells(c, run, events, i + 1, id)
  {
    if id in run[i + 1].past.book && id in run[i + 1].rows {
      if SameRow(run[i], run[i + 1], id) {
        var n: nat :| RowShowsLife(c, run, events, i, id, n);
        SameRowShowsLife(c, run, events, i, id, n);
      } else {
        NewRowShowsLife(c, run, events, i, id);
      }
    }
  }

  /**
   * What a reader finds in the database: every row of this process shows, column by column, the record
   * of its job as it was after some number of events.
   */
  lemma {:induction false} RowTellsLife(c: EngineConfig, run: seq<State>, events: seq<Event>, i: nat, id: JobId)
    requires IsRun(c, run, events) && i <= |events|
    ensures RowTells(c, run, events, i, id)
  {
    if i == 0 {
      NothingIsNumberedFirst(c, run, events);
    } else {
      RowTellsLife(c, run, events, i - 1, id);
      NextRowTells(c, run, events, i - 1, id);
    }
  }

  predicate RowMovesForward(before: Row, after: Row) {
    || after == before
    || (before.status == "queued" && after.status in ["queued", "running"])
    || (before.status == "queued" && IsTerminalText(after.status))
    || (before.status == "running" && IsTerminalText(after.status))
  }

  /** A task that is about to write finds an earlier stage of its job in the database, if anything. */
  lemma WriterFollowsRow(s: State, t: nat, m: Move, first: JobRecord)
    requires t < |s.tasks| && Owned(s.tasks[t]).Some? && m.change.Save? && m.change.rec.id == Owned(s.tasks[t]).value
    requires OwnersOk(s.tasks, s.past.book) && SavedOk(s.past.saved, s.tasks, s.past.book, s.past.floor)
    requires m.change.rec.id in s.past.saved
    ensures SavedFact(s.past.saved[m.change.rec.id], s.tasks[t])
  {
  }

  lemma WritesInOrder(c: EngineConfig, s: State, k: Task, e: Choice, id: JobId, first: JobRecord, saved: JobRecord)
    requires TaskFact(c, k) && OwnJob(s.jobs, id, k, first) && SavedFact(saved, k)
    ensures var m := NextMove(c, s, k, e);
      m.change.Save? ==>
        || (saved.status.Queued? && (m.change.rec.status.Running? || IsTerminal(m.change.rec.status)))
        || (saved.status.Running? && IsTerminal(m.change.rec.status))
  {
  }

  lemma OnlyOwnersWrite(c: EngineConfig, s: State, k: Task, e: Choice)
    requires Owned(k).None?
    ensures !NextMove(c, s, k, e).change.Save?
  {
  }

  /** The facts about the database and the owner of task `t`'s job. */
  lemma WriterView(c: EngineConfig, s: State, t: nat)
    requires Reachable(c, s) && t < |s.tasks|
    ensures OwnersOk(s.tasks, s.past.book) && SavedOk(s.past.saved, s.tasks, s.past.book, s.past.floor)
    ensures Mirrors(s.rows, s.past.saved)
  {
    ReachableInv(c, s);
  }

  lemma StepMovesRowsForward(c: EngineConfig, s: State, t: nat, e: Choice, id: JobId)
    requires Reachable(c, s) && CanStep(c, s, t, e) && id in s.rows
    ensures var rows' := NewRows(s.rows, NextMove(c, s, s.tasks[t], e).change, e.applied);
      id in rows' && RowMovesForward(s.rows[id], rows'[id]) && SameImmutableColumns(s.rows[id], rows'[id])
  {
    var k := s.tasks[t];
    var m := NextMove(c, s, k, e);
    if m.change.Save? && m.change.rec.id == id {
      if Owned(k).None? {
        OnlyOwnersWrite(c, s, k, e);
      }
      var first := TaskJob(c, s, t);
      TaskView(c, s, t);
      WriterView(c, s, t);
      SavedByOwner(c, s, k, e, Owned(k).value, first);
      WriterFollowsRow(s, t, m, first);
      WritesInOrder(c, s, k, e, id, first, s.past.saved[id]);
      RowsInOrder(s.rows, s.past.saved[id], m.change.rec);
    }
  }

  lemma SavedByOwner(c: EngineConfig, s: State, k: Task, e: Choice, id: JobId, first: JobRecord)
    requires TaskFact(c, k) && OwnJob(s.jobs, id, k, first)
    ensures var m := NextMove(c, s, k, e); m.change.Save? ==> m.change.rec.id == id
  {
  }

  lemma RowsInOrder(rows: Rows, saved: JobRecord, rec: JobRecord)
    requires rec.id in rows && rows[rec.id] == Project(saved)
    requires || (saved.status.Queued? && (rec.status.Running? || IsTerminal(rec.status)))
             || (saved.status.Running? && IsTerminal(rec.status))
    ensures RowMovesForward(rows[rec.id], Upsert(rows, rec)[rec.id])
    ensures SameImmutableColumns(rows[rec.id], Upsert(rows, rec)[rec.id])
  {
  }

  /** No event removes a row, touches its submission columns or moves its status backwards. */
  lemma RowsMoveForward(c: EngineConfig, s: State, ev: Event, id: JobId)
    requires Reachable(c, s) && Can(c, s, ev) && id in s.rows
    ensures var rows' := Next(c, s, ev).rows;
      id in rows' && RowMovesForward(s.rows[id], rows'[id]) && SameImmutableColumns(s.rows[id], rows'[id])
  {
    if ev.Step? {
      StepMovesRowsForward(c, s, ev.t, ev.choice, id);
    }
  }

  /** A terminal row is final: nothing that happens later, restarts included, changes it. */
  lemma {:induction false} TerminalRowIsFinal(c: EngineConfig, run: seq<State>, events: seq<Event>, i: nat, j: nat,
                                              id: JobId)
    requires IsRun(c, run, events) && i <= j < |run|
    requires id in run[i].rows && IsTerminalText(run[i].rows[id].status)
    ensures id in run[j].rows && run[j].rows[id] == run[i].rows[id]
  {
    if i < j {
      TerminalRowIsFinal(c, run, events, i, j - 1, id);
      PrefixIsReachable(c, run, events, j - 1);
      RowsMoveForward(c, run[j - 1], events[j - 1], id);
      assert run[j - 1 + 1] == Next(c, run[j - 1], events[j - 1]);
    }
  }

  /** A restart whose recovery statement goes through leaves no queued or running row behind. */
  lemma RecoveryIsComplete(c: EngineConfig, s: State, floor: nat, atMs: nat)
    requires Reachable(c, s) && Can(c, s, Restart(floor, true, atMs))
    ensures var s' := Next(c, s, Restart(floor, true, atMs));
      && (forall id :: id in s.rows ==> id in s'.rows && IsTerminalText(s'.rows[id].status))
      && (forall id :: id in s.rows && !IsTerminalText(s.rows[id].status) ==>
            s'.rows[id] == s.rows[id].(status := "failed", error := Some(INTERRUPTED), finishedAtMs := Some(atMs)))
      && Mirrors(s'.rows, s'.past.saved)
  {
    RowsMirrorSaved(c, s);
    NextReachable(c, s, Restart(floor, true, atMs));
    RowsMirrorSaved(c, Next(c, s, Restart(floor, true, atMs)));
    RecoveredRows(s.rows, s.past.saved, atMs);
  }

  lemma RecoveredRows(rows: Rows, saved: Table, atMs: nat)
    requires Mirrors(rows, saved)
    ensures forall id :: id in rows ==> IsTerminalText(Recover(rows, atMs)[id].status)
    ensures forall id :: id in rows && !IsTerminalText(rows[id].status) ==>
      Recover(rows, atMs)[id] == rows[id].(status := "failed", error := Some(INTERRUPTED), finishedAtMs := Some(atMs))
  {
    RecoverLeavesNoActiveRow(rows, saved, atMs);
    forall id | id in rows && !IsTerminalText(rows[id].status)
      ensures rows[id].status == "queued" || rows[id].status == "running"
    {
      assert rows[id] == Project(saved[id]);
    }
  }
}
