/** When a restart begins a new attempt, and what the key of the failed attempt
    gives instead. */
module Restarts {
  import opened Base
  import opened Flush
  import opened Guards
  import opened History
  import opened Insertion
  import opened Invariant
  import opened Multipart
  import opened PublishSafety
  import opened Registry
  import opened Rows
  import opened Runs
  import opened SingleSafety

  /** No session of the Blob was created later than the latest one. */
  lemma {:induction false} LatestIsLatest(db: Db, b: Id, s: Id, below: Id)
    requires s in db.sessions && s < below && db.sessions[s].blobId == b
    ensures LatestSession(db, b, below).Some?
    ensures db.sessions[s].createdAt <= db.sessions[LatestSession(db, b, below).value].createdAt
  {
    if s < below - 1 {
      LatestIsLatest(db, b, s, below - 1);
    }
  }

  /** The answer names a session that did not exist. */
  predicate Begins(db: Db, result: Result<Done<Id>, Error>) {
    result.Ok? && result.value.value !in db.sessions
  }

  /** The rows of an attempt that has just begun. */
  predicate Begun(db: Db, done: Done<Id>, versionId: Id, blobId: Id) {
    && versionId in done.db.versions && done.db.versions[versionId].state == Uploading
    && blobId in done.db.blobs && done.db.blobs[blobId].state == BlobUploading
    && IsSingle(done.db, done.value) && done.db.sessions[done.value].state == Created
    && done.db.sessions[done.value].blobId == blobId && done.db.sessions[done.value].versionId == versionId
  }

  /** A restart begins an attempt exactly on a FAILED Version that references a
      FAILED Blob whose slot is free and whose latest session is single-PUT, and
      under a key that is not bound; then both are UPLOADING again. */
  lemma RestartBeginsExactly(db: Db, versionId: Id, blobId: Id, request: Id, fingerprint: Sha, at: Instants)
    requires Inv(db) && ValidInstants(db, at)
    ensures var result := Restart(db, versionId, blobId, request, fingerprint, at);
      && (Begins(db, result) <==>
            && Restartable(db, versionId, blobId) && References(db, versionId, blobId)
            && Key(PrepareScope, request) !in db.idempotency
            && ActiveSession(db, blobId, db.nextId).None?)
      && (Begins(db, result) ==> Begun(db, result.value, versionId, blobId))
  {
    hide Inv, Advances, References, PutVersion, PutBlob, LatestSession, StartAgain, ActiveSession, Recreated, Begun;
    var key, payload := Key(PrepareScope, request), PrepareRequest(fingerprint);
    if Restartable(db, versionId, blobId) && References(db, versionId, blobId) && key !in db.idempotency {
      if ActiveSession(db, blobId, db.nextId).Some? {
        RestartSafe(db, versionId, blobId, request, fingerprint, at);
      } else {
        FreshId(db);
        RestartSucceeds(db, versionId, blobId, key, payload, at);
        RecreatedBegins(db, versionId, blobId, key, payload, at);
      }
    }
  }

  lemma RecreatedBegins(db: Db, versionId: Id, blobId: Id, key: Key, payload: Request, at: Instants)
    requires versionId in db.versions && blobId in db.blobs
    ensures var created := Recreated(db, versionId, blobId, at.wall);
      var bound := created.(idempotency := created.idempotency[key := IdempotencyRow(payload, db.nextId, None)]);
      Begun(db, Done(bound.(clock := at.commit), db.nextId), versionId, blobId)
  {
  }

  // ------------------------------------------------------------ the original key

  lemma {:induction false} ReferencedIsEntry(db: Db, entries: seq<EntryRow>, sha256: string)
    requires ReferencedBlob(db, entries, sha256).Some?
    ensures exists i :: 0 <= i < |entries| && entries[i].blobId == ReferencedBlob(db, entries, sha256).value
  {
    var n := |entries| - 1;
    var b := entries[n].blobId;
    if !(b in db.blobs && db.blobs[b].sha256 == sha256) {
      ReferencedIsEntry(db, entries[..n], sha256);
      var i :| 0 <= i < n && entries[..n][i].blobId == ReferencedBlob(db, entries[..n], sha256).value;
      assert entries[i].blobId == ReferencedBlob(db, entries, sha256).value;
    }
  }

  /** A preparation that answers with a session has bound its key to it. */
  predicate PreparedUnder(db: Db, versionId: Id, blobId: Id, request: Id, fingerprint: Sha, s: Id) {
    && versionId in db.versions && blobId in db.blobs && References(db, versionId, blobId)
    && Key(PrepareScope, request) in db.idempotency
    && db.idempotency[Key(PrepareScope, request)].request == PrepareRequest(fingerprint)
    && db.idempotency[Key(PrepareScope, request)].resourceId == s
    && IsSingle(db, s)
  }

  lemma PreparedBinding(db: Db, versionId: Id, sha256: string, request: Id, fingerprint: Sha, at: Instants, s: Id)
    requires Prepare(db, versionId, sha256, request, fingerprint, at).Ok?
    requires Prepare(db, versionId, sha256, request, fingerprint, at).value.value.sessionId == Some(s)
    ensures var done := Prepare(db, versionId, sha256, request, fingerprint, at).value;
      PreparedUnder(done.db, versionId, done.value.blobId, request, fingerprint, s)
  {
    hide ReferencedBlob, PrepareNew;
    var done := Prepare(db, versionId, sha256, request, fingerprint, at).value;
    ReferencedIsEntry(db, EntriesOf(db, versionId), sha256);
    assert References(db, versionId, done.value.blobId);
    assert EntriesOf(done.db, versionId) == EntriesOf(db, versionId);
    assert References(done.db, versionId, done.value.blobId);
  }

  lemma PreparedPersists(db: Db, after: Db, versionId: Id, blobId: Id, request: Id, fingerprint: Sha, s: Id)
    requires Inv(db) && Advances(db, after) && PreparedUnder(db, versionId, blobId, request, fingerprint, s)
    ensures PreparedUnder(after, versionId, blobId, request, fingerprint, s)
  {
    hide Inv, LeasesAdvance;
    VersionFacts(db, versionId);
    assert EntriesOf(after, versionId) == EntriesOf(db, versionId);
    assert References(after, versionId, blobId) by {
      var i :| 0 <= i < |EntriesOf(db, versionId)| && EntriesOf(db, versionId)[i].blobId == blobId;
      assert EntriesOf(after, versionId)[i].blobId == blobId;
    }
    assert SessionAdvances(db.sessions[s], after.sessions[s]);
  }

  lemma BoundKeyReplays(db: Db, versionId: Id, blobId: Id, request: Id, fingerprint: Sha, s: Id, at: Instants)
    requires PreparedUnder(db, versionId, blobId, request, fingerprint, s)
    ensures Restart(db, versionId, blobId, request, fingerprint, at) == Ok(Done(db.(clock := at.commit), s))
  {
    hide References, RestartNew;
  }

  /** The key an upload was prepared under answers every restart with that very
      session and writes nothing, whatever happened in between. */
  lemma OriginalKeyNeverRestarts(db: Db, versionId: Id, sha256: string, request: Id, fingerprint: Sha, at: Instants,
                                 run: seq<Event>, again: Instants, s: Id)
    requires Inv(db) && ValidInstants(db, at)
    requires Prepare(db, versionId, sha256, request, fingerprint, at).Ok?
    requires Prepare(db, versionId, sha256, request, fingerprint, at).value.value.sessionId == Some(s)
    requires ValidRun(Prepare(db, versionId, sha256, request, fingerprint, at).value.db, run)
    ensures var prepared := Prepare(db, versionId, sha256, request, fingerprint, at).value;
      var later := After(prepared.db, run);
      Restart(later, versionId, prepared.value.blobId, request, fingerprint, again) == Ok(Done(later.(clock := again.commit), s))
  {
    hide Inv, Advances, Prepare, Restart, After, ValidRun, PreparedUnder;
    var prepared := Prepare(db, versionId, sha256, request, fingerprint, at).value;
    PrepareSafe(db, versionId, sha256, request, fingerprint, at);
    PreparedBinding(db, versionId, sha256, request, fingerprint, at, s);
    RunSound(prepared.db, run);
    PreparedPersists(prepared.db, After(prepared.db, run), versionId, prepared.value.blobId, request, fingerprint, s);
    BoundKeyReplays(After(prepared.db, run), versionId, prepared.value.blobId, request, fingerprint, s, again);
  }

  /** The attempt failed: its session, Blob and Version say so. */
  predicate LeftFailed(db: Db, s: Id) {
    && IsSingle(db, s) && db.sessions[s].state == Failed
    && db.sessions[s].blobId in db.blobs && db.blobs[db.sessions[s].blobId].state == BlobFailed
    && db.sessions[s].versionId in db.versions && db.versions[db.sessions[s].versionId].state == VersionFailed
  }

  lemma FailureLeaves(db: Db, s: Id, code: Failure, at: Instants)
    requires Inv(db) && IsSingle(db, s) && db.sessions[s].state == InProgress && MarkFailed(db, s, code, at).Ok?
    ensures LeftFailed(MarkFailed(db, s, code, at).value.db, s)
  {
    hide Inv, PutBlob, PutVersion, PutSession, Commit, RequireSealed;
    assert CheckSingle(db, s).Pass?;
    MarkFailedWrites(db, s, code, at);
  }

  lemma StartLeaves(db: Db, s: Id, at: Instants)
    requires Inv(db) && MarkInProgress(db, s, at).Ok?
    ensures IsSingle(MarkInProgress(db, s, at).value.db, s)
    ensures MarkInProgress(db, s, at).value.db.sessions[s].state == InProgress
  {
    hide Inv, PutBlob, PutVersion, PutSession, Commit, RequireSealed, Recount;
    if db.sessions[s].state == Created {
      MarkInProgressWrites(db, s, at);
    }
  }

  /** The failing input: prepare under a key, start, fail, and restart under the
      same key. The restart answers with the FAILED session, and the Version and
      the Blob stay FAILED. */
  lemma RestartReplaysFailure(db: Db, versionId: Id, sha256: string, request: Id, fingerprint: Sha, code: Failure,
                              s: Id, first: Instants, second: Instants, third: Instants, fourth: Instants)
    requires Inv(db) && ValidInstants(db, first)
    requires Prepare(db, versionId, sha256, request, fingerprint, first).Ok?
    requires Prepare(db, versionId, sha256, request, fingerprint, first).value.value.sessionId == Some(s)
    requires var prepared := Prepare(db, versionId, sha256, request, fingerprint, first).value;
      ValidInstants(prepared.db, second) && MarkInProgress(prepared.db, s, second).Ok? &&
      var started := MarkInProgress(prepared.db, s, second).value;
      ValidInstants(started.db, third) && MarkFailed(started.db, s, code, third).Ok?
    ensures var prepared := Prepare(db, versionId, sha256, request, fingerprint, first).value;
      var failed := MarkFailed(MarkInProgress(prepared.db, s, second).value.db, s, code, third).value.db;
      var result := Restart(failed, versionId, prepared.value.blobId, request, fingerprint, fourth);
      && result == Ok(Done(failed.(clock := fourth.commit), s))
      && LeftFailed(result.value.db, s)
  {
    hide Inv, Advances, Prepare, MarkInProgress, MarkFailed, Restart, PreparedUnder;
    var prepared := Prepare(db, versionId, sha256, request, fingerprint, first).value;
    PrepareSafe(db, versionId, sha256, request, fingerprint, first);
    PreparedBinding(db, versionId, sha256, request, fingerprint, first, s);
    MarkInProgressSafe(prepared.db, s, second);
    var started := MarkInProgress(prepared.db, s, second).value;
    StartLeaves(prepared.db, s, second);
    MarkFailedSafe(started.db, s, code, third);
    FailureLeaves(started.db, s, code, third);
    var failed := MarkFailed(started.db, s, code, third).value.db;
    PreparedPersists(prepared.db, started.db, versionId, prepared.value.blobId, request, fingerprint, s);
    PreparedPersists(started.db, failed, versionId, prepared.value.blobId, request, fingerprint, s);
    BoundKeyReplays(failed, versionId, prepared.value.blobId, request, fingerprint, s, fourth);
  }
}
