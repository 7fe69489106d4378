/** What it means for a transaction to be safe, and the facts about the standing
    rows of a session that every safety proof begins with. */
module Safety {
  import opened Base
  import opened Flush
  import opened History
  import opened Invariant
  import opened Multipart
  import opened PartRanges
  import opened Rewrite
  import opened Rows

  /** Errors the database raises against a write the application issued. */
  predicate Refused(error: Error) {
    error == TriggerRejected || error == IndexViolated || error == CommitRejected
  }

  /** A transaction keeps the invariant, moves history forward, and no write of
      it is refused. */
  ghost predicate Safe<T>(db: Db, result: Result<Done<T>, Error>) {
    match result
    case Ok(done) => Inv(done.db) && Advances(db, done.db)
    case Err(error) => !Refused(error)
  }

  /** Safe, and refused by the database in exactly the stated case, by the named
      kind of guard. */
  ghost predicate SafeUnless<T>(db: Db, result: Result<Done<T>, Error>, refused: bool, refusal: Error) {
    match result
    case Ok(done) => Inv(done.db) && Advances(db, done.db) && !refused
    case Err(error) => if refused then error == refusal else !Refused(error)
  }

  ghost predicate Grounded(w: Write, clock: int, nextId: Id) {
    RowsSound(w, clock, nextId) && w.blob.state != BlobVerifying
  }

  /** The rows of the session before the transaction are sound. */
  lemma StandingSound(db: Db, s: Id)
    requires Inv(db) && s in db.sessions
    ensures SessionSound(db, s) && Grounded(Standing(db, s), db.clock, db.nextId)
  {
    hide MultipartSound, SingleSound, LeasesSound, PairsOk, GenerationsOk, VersionsOk, BindingsOk;
    assert SessionSound(db, s) && BlobSound(db, db.sessions[s].blobId);
  }

  ghost predicate Multi(w: Write) {
    w.row.strategy == Multipart && w.parts.Some?
  }

  /** A frozen plan satisfies the summary check constraint. */
  lemma FrozenChecks(row: SessionRow, parts: seq<PartRow>, blobSize: int)
    requires PlanFrozen(row, parts, blobSize)
    ensures row.frozen.Some? && row.frozen.value.generation > 0
    ensures BASE_PART_BYTES <= row.frozen.value.partSize <= MAX_PART_BYTES
    ensures 1 <= row.frozen.value.plannedCount <= MAX_PARTS
    ensures row.frozen.value.schema == PART_PLAN_SCHEMA_VERSION
  {
    PartSizeIsLeast(blobSize);
  }

  /** A session with an admission or completion lease is a multipart one. */
  lemma StandingMulti(db: Db, s: Id)
    requires Inv(db) && s in db.sessions
    requires (s in db.admission || s in db.completion || db.sessions[s].strategy == Multipart)
    ensures db.sessions[s].blobId in db.blobs && Multi(Standing(db, s)) && s in db.parts
  {
    hide MultipartSound, SingleSound, PairsOk, GenerationsOk, BlobsOk, VersionsOk, BindingsOk;
    assert SessionSound(db, s);
  }

  lemma {:induction false} CheckNeverRefuses(observations: seq<Observation>)
    ensures CheckObservations(observations).Fail? ==> !Refused(CheckObservations(observations).error)
  {
    if |observations| > 0 {
      CheckNeverRefuses(observations[..|observations| - 1]);
    }
  }
}
