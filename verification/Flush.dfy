/** Guarded row writes: each either changes one row set or is refused. */
module Flush {
  import opened Base
  import opened Guards
  import opened Rows

  /** A committed transaction: the database it leaves and its answer. */
  datatype Done<+T> = Done(db: Db, value: T)

  function PutSession(db: Db, s: Id, row: SessionRow): (result: Result<Db, Error>)
    ensures result.Ok? ==> result.value == db.(sessions := result.value.sessions) && s in result.value.sessions
    ensures result.Err? ==> result.error == TriggerRejected
  {
    if s in db.sessions && row.blobId in db.blobs
       && SessionUpdateAllowed(db.sessions[s], row, PartsOf(db, s), db.blobs[row.blobId])
    then Ok(db.(sessions := db.sessions[s := row]))
    else Err(TriggerRejected)
  }

  /** A new session row begins in CREATED and needs a free slot on its Blob. */
  function InsertSession(db: Db, s: Id, row: SessionRow): (result: Result<Db, Error>)
    ensures result.Ok? ==> result.value == db.(sessions := result.value.sessions)
  {
    if row.state != Created || !SessionChecks(row) then Err(TriggerRejected)
    else if s in db.sessions || !ActiveSlotFree(db, row.blobId)
            || (row.frozen.Some? && !GenerationFree(db, row.blobId, row.frozen.value.generation))
    then Err(IndexViolated)
    else Ok(db.(sessions := db.sessions[s := row]))
  }

  function PutParts(db: Db, s: Id, rows: seq<PartRow>): (result: Result<Db, Error>)
    ensures result.Ok? ==> result.value == db.(parts := result.value.parts)
    ensures result.Err? ==> result.error == TriggerRejected
  {
    if s in db.sessions && s in db.parts && PartsUpdateAllowed(db.sessions[s], db.parts[s], rows)
    then Ok(db.(parts := db.parts[s := rows]))
    else Err(TriggerRejected)
  }

  function InsertParts(db: Db, s: Id, rows: seq<PartRow>): (result: Result<Db, Error>)
    ensures result.Ok? ==> result.value == db.(parts := result.value.parts)
  {
    if s !in db.sessions || exists i :: 0 <= i < |rows| && !PartInsertAllowed(db.sessions[s], rows[i]) then Err(TriggerRejected)
    else if s in db.parts || exists i, j :: 0 <= i < j < |rows| && (rows[i].number == rows[j].number || rows[i].offset == rows[j].offset)
    then Err(IndexViolated)
    else Ok(db.(parts := db.parts[s := rows]))
  }

  /** The first lease of a session starts at epoch one; later writes pass the
      lease guard, which reads the clock at the flush. */
  function PutAdmission(db: Db, s: Id, lease: AdmissionLease, at: Instants): (result: Result<Db, Error>)
    ensures result.Ok? ==> result.value == db.(admission := result.value.admission)
    ensures result.Err? ==> result.error == TriggerRejected
  {
    if if s in db.admission then AdmissionUpdateAllowed(db.admission[s], lease, at.flush) else lease.epoch == 1 && AdmissionChecks(lease)
    then Ok(db.(admission := db.admission[s := lease]))
    else Err(TriggerRejected)
  }

  function PutCompletion(db: Db, s: Id, lease: CompletionLease, at: Instants): (result: Result<Db, Error>)
    ensures result.Ok? ==> result.value == db.(completion := result.value.completion)
    ensures result.Err? ==> result.error == TriggerRejected
  {
    if if s in db.completion then CompletionUpdateAllowed(db.completion[s], lease, at.flush) else lease.epoch == 1 && CompletionChecks(lease)
    then Ok(db.(completion := db.completion[s := lease]))
    else Err(TriggerRejected)
  }

  function PutBlob(db: Db, b: Id, row: BlobRow): (result: Result<Db, Error>)
    ensures result.Ok? ==> result.value == db.(blobs := result.value.blobs)
    ensures result.Err? ==> result.error == TriggerRejected
  {
    if b in db.blobs && BlobUpdateAllowed(db.blobs[b], row)
    then Ok(db.(blobs := db.blobs[b := row]))
    else Err(TriggerRejected)
  }

  /** A new Blob row needs a digest no other row has. */
  function InsertBlob(db: Db, b: Id, row: BlobRow): (result: Result<Db, Error>)
    ensures result.Ok? ==> result.value == db.(blobs := result.value.blobs)
  {
    if !BlobChecks(row) then Err(TriggerRejected)
    else if b in db.blobs || !DigestFree(db, row.sha256) then Err(IndexViolated)
    else Ok(db.(blobs := db.blobs[b := row]))
  }

  function EntriesOf(db: Db, v: Id): seq<EntryRow> {
    if v in db.entries then db.entries[v] else []
  }

  function PutVersion(db: Db, v: Id, row: VersionRow): (result: Result<Db, Error>)
    ensures result.Ok? ==> result.value == db.(versions := result.value.versions)
    ensures result.Err? ==> result.error == TriggerRejected
  {
    if v in db.versions && VersionUpdateAllowed(db.versions[v], row, Recount(db.blobs, EntriesOf(db, v)))
    then Ok(db.(versions := db.versions[v := row]))
    else Err(TriggerRejected)
  }

  function InsertVersion(db: Db, v: Id, row: VersionRow): (result: Result<Db, Error>)
    ensures result.Ok? ==> result.value == db.(versions := result.value.versions)
  {
    if !VersionChecks(row) then Err(TriggerRejected)
    else if v in db.versions || !VersionSlotFree(db, row) then Err(IndexViolated)
    else Ok(db.(versions := db.versions[v := row]))
  }

  /** One more entry of an unsealed Version, after those already listed. */
  function InsertEntry(db: Db, v: Id, listed: seq<EntryRow>, row: EntryRow): (result: Result<seq<EntryRow>, Error>)
    ensures result.Ok? ==> result.value == listed + [row]
  {
    if !EntryChecks(row) || v !in db.versions || db.versions[v].sealedAt.Some? || row.blobId !in db.blobs then Err(TriggerRejected)
    else if exists i :: 0 <= i < |listed| && listed[i].path == row.path then Err(IndexViolated)
    else Ok(listed + [row])
  }

  /** The deferred check run for a Version whose row changed. */
  function RequireSealed(db: Db, v: Id): Check<Error> {
    Require(v in db.versions ==> db.versions[v].sealedAt.Some?, CommitRejected)
  }

  /** Bind a request id that is not bound yet. */
  function Bind(db: Db, key: Key, row: IdempotencyRow): Db
    requires key !in db.idempotency
  {
    db.(idempotency := db.idempotency[key := row])
  }

  /** Commit after a change to a Blob or one of its sessions. */
  function Commit<T>(db: Db, blobId: Id, at: Instants, value: T): (result: Result<Done<T>, Error>)
    ensures result.Ok? ==> result.value == Finish(db, at, value)
    ensures result.Err? ==> result.error == CommitRejected
  {
    if PublicationConsistent(db, blobId, at.commit) then Ok(Finish(db, at, value)) else Err(CommitRejected)
  }

  /** Commit where no deferred check was queued. */
  function Finish<T>(db: Db, at: Instants, value: T): Done<T> {
    Done(db.(clock := at.commit), value)
  }
}
