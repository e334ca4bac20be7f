/** The `build_jobs` table of `src/db.rs`: projection, column-subset upsert and boot recovery. */
module Persistence {
  import opened Wrappers
  import opened Types
  import opened JobTable

  /** One row; `jobKind` and `status` hold the text the server writes, the token its signed form. */
  datatype Row = Row(
    id: JobId,
    status: string,
    jobKind: string,
    source: string,
    executor: string,
    repoUrl: string,
    gitRef: Option<string>,
    image: string,
    request: BuildRequest,
    error: Option<string>,
    logPath: Option<string>,
    lockKey: Option<string>,
    fencingToken: Option<int>,
    createdAtMs: nat,
    startedAtMs: Option<nat>,
    finishedAtMs: Option<nat>)

  type Rows = map<JobId, Row>

  const TWO_63: int := 0x8000_0000_0000_0000
  const TWO_64: int := 0x1_0000_0000_0000_0000

  function StatusText(status: BuildStatus): string {
    match status
    case Queued => "queued"
    case Running => "running"
    case Succeeded => "succeeded"
    case Failed => "failed"
  }

  /** A u64 reinterpreted as an i64. */
  function SignedToken(token: nat): int {
    var low := token % TWO_64;
    if low < TWO_63 then low else low - TWO_64
  }

  function Project(rec: JobRecord): Row {
    Row(
      rec.id,
      StatusText(rec.status),
      rec.request.jobKind.GetOr("build-image"),
      rec.source,
      rec.executor,
      rec.request.repoUrl,
      rec.request.gitRef,
      rec.request.image,
      rec.request,
      rec.error,
      Some(rec.logPath),
      rec.lockKey,
      if rec.fencingToken.Some? then Some(SignedToken(rec.fencingToken.value)) else None,
      rec.createdAtMs,
      rec.startedAtMs,
      rec.finishedAtMs)
  }

  /** Insert the whole row, or on a key conflict overwrite only the seven mutable columns. */
  function Upsert(rows: Rows, rec: JobRecord): Rows {
    var full := Project(rec);
    if rec.id in rows then
      rows[rec.id := rows[rec.id].(
        status := full.status, error := full.error, logPath := full.logPath,
        lockKey := full.lockKey, fencingToken := full.fencingToken,
        startedAtMs := full.startedAtMs, finishedAtMs := full.finishedAtMs)]
    else
      rows[rec.id := full]
  }

  // How a reader takes a row.

  function StatusIn(text: string): Option<BuildStatus> {
    if text == "queued" then Some(Queued)
    else if text == "running" then Some(Running)
    else if text == "succeeded" then Some(Succeeded)
    else if text == "failed" then Some(Failed) else None
  }

  /** An i64 read as the u64 it came from. */
  function UnsignedToken(token: int): int {
    if token < 0 then token + TWO_64 else token
  }

  /** The record that a row shows, each field from its own column. */
  function ReadBack(row: Row): JobRecord
    requires row.fencingToken.Some? ==> row.fencingToken.value >= -TWO_63
  {
    JobRecord(
      row.id,
      StatusIn(row.status).GetOr(Failed),
      row.request,
      row.source,
      row.executor,
      row.createdAtMs,
      row.startedAtMs,
      row.finishedAtMs,
      row.logPath.GetOr(""),
      row.error,
      row.lockKey,
      if row.fencingToken.Some? then Some(UnsignedToken(row.fencingToken.value)) else None)
  }

  /** The columns that repeat a part of the request show that part. */
  predicate ShowsRequest(row: Row) {
    && row.repoUrl == row.request.repoUrl && row.gitRef == row.request.gitRef && row.image == row.request.image
    && (match row.request.jobKind case Some(kind) => row.jobKind == kind case None => row.jobKind == "build-image")
  }

  /** The row says nothing but this record; its token is the one of the record as far as 64 bits hold it. */
  predicate Shows(row: Row, rec: JobRecord) {
    && (row.fencingToken.Some? ==> row.fencingToken.value >= -TWO_63)
    && StatusIn(row.status).Some? && row.logPath.Some? && ShowsRequest(row)
    && ReadBack(row) == rec.(fencingToken :=
         if rec.fencingToken.Some? then Some(rec.fencingToken.value % TWO_64) else None)
  }

  lemma ProjectionShows(rec: JobRecord)
    ensures Shows(Project(rec), rec)
  {
  }

  const INTERRUPTED := "interrupted by build-server restart"

  /** Boot recovery: every row still queued or running becomes failed. */
  function Recover(rows: Rows, nowMs: nat): Rows {
    map id | id in rows ::
      if rows[id].status == "queued" || rows[id].status == "running"
      then rows[id].(status := "failed", error := Some(INTERRUPTED), finishedAtMs := Some(nowMs))
      else rows[id]
  }

  /** The same amendment on the records the rows stand for. */
  function RecoverRecords(saved: Table, nowMs: nat): Table {
    map id | id in saved ::
      if IsTerminal(saved[id].status) then saved[id] else MarkFailed(saved[id], nowMs, INTERRUPTED)
  }

  /** Each row is the full projection of the record recorded for its id. */
  ghost predicate Mirrors(rows: Rows, saved: Table) {
    && rows.Keys == saved.Keys
    && forall id :: id in saved ==> rows[id] == Project(saved[id])
  }

  predicate IsTerminalText(status: string) {
    status == "succeeded" || status == "failed"
  }

  /** The columns an upsert leaves alone. */
  predicate SameImmutableColumns(a: Row, b: Row) {
    && a.id == b.id && a.jobKind == b.jobKind && a.source == b.source && a.executor == b.executor
    && a.repoUrl == b.repoUrl && a.gitRef == b.gitRef && a.image == b.image && a.request == b.request
    && a.createdAtMs == b.createdAtMs
  }

  /** A partial upsert amounts to a full write exactly when the columns it leaves out did not change. */
  lemma UpsertIsFullWrite(rows: Rows, saved: Table, rec: JobRecord)
    requires Mirrors(rows, saved)
    ensures Mirrors(Upsert(rows, rec), saved[rec.id := rec]) <==>
      (rec.id in saved ==> SameImmutableColumns(Project(saved[rec.id]), Project(rec)))
  {
    var rows', saved' := Upsert(rows, rec), saved[rec.id := rec];
    if rec.id in saved && SameImmutableColumns(Project(saved[rec.id]), Project(rec)) {
      assert rows'[rec.id] == Project(rec);
    }
    if Mirrors(rows', saved') && rec.id in saved {
      assert rows'[rec.id] == Project(saved'[rec.id]);
    }
  }

  lemma UpsertMirrors(rows: Rows, saved: Table, rec: JobRecord)
    requires Mirrors(rows, saved)
    requires rec.id in saved ==> SameSubmission(saved[rec.id], rec)
    ensures Mirrors(Upsert(rows, rec), saved[rec.id := rec])
  {
    UpsertIsFullWrite(rows, saved, rec);
  }

  lemma RecoverMirrors(rows: Rows, saved: Table, nowMs: nat)
    requires Mirrors(rows, saved)
    ensures Mirrors(Recover(rows, nowMs), RecoverRecords(saved, nowMs))
  {
    forall id | id in saved
      ensures Recover(rows, nowMs)[id] == Project(RecoverRecords(saved, nowMs)[id])
    {
      RecoverMirrorsRow(rows, saved, id, nowMs);
    }
  }

  lemma RecoverMirrorsRow(rows: Rows, saved: Table, id: JobId, nowMs: nat)
    requires id in rows && id in saved && rows[id] == Project(saved[id])
    ensures Recover(rows, nowMs)[id] == Project(RecoverRecords(saved, nowMs)[id])
  {
  }

  /** After recovery no row is queued or running, and rows that were terminal are untouched. */
  lemma RecoverLeavesNoActiveRow(rows: Rows, saved: Table, nowMs: nat)
    requires Mirrors(rows, saved)
    ensures forall id :: id in rows ==> IsTerminalText(Recover(rows, nowMs)[id].status)
    ensures forall id :: id in rows && IsTerminalText(rows[id].status) ==> Recover(rows, nowMs)[id] == rows[id]
  {
    forall id | id in rows
      ensures IsTerminalText(Recover(rows, nowMs)[id].status)
    {
      assert rows[id] == Project(saved[id]);
    }
  }
}
