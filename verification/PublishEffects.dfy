/** Single-PUT uploads and READY, field by field: what start, verification,
    failure and publication write, and what they raise. */
module PublishEffects {
  import opened Base
  import opened Flush
  import opened Guards
  import opened History
  import opened Invariant
  import opened Registry
  import opened Rows
  import opened Safety
  import P = PublishSafety
  import S = SingleSafety

  predicate SingleIn(db: Db, s: Id, state: SessionState) {
    s in db.sessions && db.sessions[s].strategy == SinglePut && db.sessions[s].state == state
  }

  /** What a transaction on no session, or on a multipart one, raises. */
  function SingleError(db: Db, s: Id): Error {
    if s !in db.sessions then NotFound else IllegalTransition
  }

  lemma SingleChecks(db: Db, s: Id)
    requires Inv(db)
    ensures if IsSingle(db, s) then CheckSingle(db, s).Pass? else CheckSingle(db, s) == Fail(SingleError(db, s))
    ensures IsSingle(db, s) ==> db.sessions[s].blobId in db.blobs && db.sessions[s].versionId in db.versions
    ensures SingleIn(db, s, InProgress) ==> db.blobs[db.sessions[s].blobId].state == BlobUploading
  {
    hide Inv;
    if IsSingle(db, s) {
      S.SingleRows(db, s);
    }
  }

  // -------------------------------------------------------------------- start

  /** The session is IN_PROGRESS, a PENDING Blob UPLOADING, and a Version that was
      DRAFT or FAILED is UPLOADING again without its failure. */
  predicate StartLeaves(db: Db, s: Id, at: Instants, after: Db)
    requires s in db.sessions && db.sessions[s].blobId in db.blobs && db.sessions[s].versionId in db.versions
  {
    var b, v := db.sessions[s].blobId, db.sessions[s].versionId;
    var blob, version := db.blobs[b], db.versions[v];
    after == db.(
      clock := at.commit,
      sessions := db.sessions[s := db.sessions[s].(state := InProgress, lastActivityAt := at.wall)],
      blobs := if blob.state == BlobPending then db.blobs[b := blob.(state := BlobUploading)] else db.blobs,
      versions := if version.state in {Draft, VersionFailed} then db.versions[v := version.(state := Uploading, failure := None)] else db.versions)
  }

  lemma StartDecides(db: Db, s: Id, at: Instants, result: Result<Done<()>, Error>)
    requires Inv(db) && ValidInstants(db, at) && result == MarkInProgress(db, s, at)
    ensures SingleIn(db, s, Created) ==>
      && result.Ok? && db.sessions[s].blobId in db.blobs && db.sessions[s].versionId in db.versions
      && StartLeaves(db, s, at, result.value.db)
    ensures SingleIn(db, s, InProgress) ==> result == Ok(Done(db.(clock := at.commit), ()))
    ensures !SingleIn(db, s, Created) && !SingleIn(db, s, InProgress) ==> result == Err(SingleError(db, s))
  {
    hide Inv, Advances, PutBlob, PutVersion, PutSession, RequireSealed, Commit, StartLeaves;
    SingleChecks(db, s);
    if SingleIn(db, s, Created) {
      StartCommits(db, s, at);
      StartRows(db, s, at);
    }
  }

  /** Both deferred checks are passed or refuse; neither changes a row. */
  lemma SealedAnswers(db: Db, v: Id, b: Id, at: Instants)
    ensures S.SealAndCommit(db, v, b, at).Err? ==> Refused(S.SealAndCommit(db, v, b, at).error)
    ensures S.SealAndCommit(db, v, b, at).Ok? ==> S.SealAndCommit(db, v, b, at).value.db == db.(clock := at.commit)
  {
    hide Commit;
  }

  lemma StartCommits(db: Db, s: Id, at: Instants)
    requires Inv(db) && ValidInstants(db, at) && CheckSingle(db, s).Pass? && db.sessions[s].state == Created
    ensures var result, row := MarkInProgress(db, s, at), db.sessions[s];
      result.Ok? && result.value.db == S.Moved(db, s, S.OpenedVersion(db.versions[row.versionId]), S.OpenedSession(row, at.wall),
                                               S.OpenedBlob(db.blobs[row.blobId])).(clock := at.commit)
  {
    hide Inv, Advances, PutBlob, PutVersion, PutSession, RequireSealed, Commit, S.Moved, Recount;
    S.MarkInProgressWrites(db, s, at);
    S.MarkInProgressSafe(db, s, at);
    SealedAnswers(S.Moved(db, s, S.OpenedVersion(db.versions[db.sessions[s].versionId]), S.OpenedSession(db.sessions[s], at.wall),
                          S.OpenedBlob(db.blobs[db.sessions[s].blobId])), db.sessions[s].versionId, db.sessions[s].blobId, at);
  }

  lemma StartRows(db: Db, s: Id, at: Instants)
    requires s in db.sessions && db.sessions[s].blobId in db.blobs && db.sessions[s].versionId in db.versions
    ensures var row := db.sessions[s];
      StartLeaves(db, s, at, S.Moved(db, s, S.OpenedVersion(db.versions[row.versionId]), S.OpenedSession(row, at.wall),
                                     S.OpenedBlob(db.blobs[row.blobId])).(clock := at.commit))
  {
    var row := db.sessions[s];
    assert db.blobs[row.blobId := db.blobs[row.blobId]] == db.blobs;
    assert db.versions[row.versionId := db.versions[row.versionId]] == db.versions;
  }

  // ------------------------------------------------------------- verification

  predicate HasMultipartSession(db: Db, b: Id) {
    exists r :: r in db.sessions && db.sessions[r].blobId == b && db.sessions[r].strategy == Multipart
  }

  predicate VerifiedLeaves(db: Db, s: Id, etag: Option<string>, at: Instants, after: Db)
    requires s in db.sessions && db.sessions[s].blobId in db.blobs
  {
    var b := db.sessions[s].blobId;
    after == db.(
      clock := at.commit,
      sessions := db.sessions[s := db.sessions[s].(
        state := Completed, etag := etag, completedAt := Some(at.wall), lastActivityAt := at.wall)],
      blobs := db.blobs[b := db.blobs[b].(state := BlobAvailable, verifiedAt := Some(at.wall))])
  }

  /** A session in progress makes its Blob AVAILABLE unless a multipart session
      ever existed for it; a completed one stays as it is. */
  lemma VerifiedDecides(db: Db, s: Id, etag: Option<string>, at: Instants, result: Result<Done<()>, Error>)
    requires Inv(db) && ValidInstants(db, at) && result == MarkVerified(db, s, etag, at)
    ensures SingleIn(db, s, InProgress) ==>
      && db.sessions[s].blobId in db.blobs
      && if HasMultipartSession(db, db.sessions[s].blobId) then result == Err(CommitRejected)
         else result.Ok? && VerifiedLeaves(db, s, etag, at, result.value.db)
    ensures SingleIn(db, s, Completed) ==> result == Ok(Done(db.(clock := at.commit), ()))
    ensures !SingleIn(db, s, InProgress) && !SingleIn(db, s, Completed) ==> result == Err(SingleError(db, s))
  {
    hide Inv, Advances, PutBlob, PutSession, Commit;
    SingleChecks(db, s);
    if SingleIn(db, s, InProgress) {
      P.MarkVerifiedSafe(db, s, etag, at);
      P.MarkVerifiedWrites(db, s, etag, at);
      assert HasMultipartSession(db, db.sessions[s].blobId) == HasMultipart(db, db.sessions[s].blobId);
    }
  }

  // ------------------------------------------------------------------ failure

  predicate FailedLeaves(db: Db, s: Id, code: Failure, at: Instants, after: Db)
    requires s in db.sessions && db.sessions[s].blobId in db.blobs && db.sessions[s].versionId in db.versions
  {
    var b, v := db.sessions[s].blobId, db.sessions[s].versionId;
    after == db.(
      clock := at.commit,
      sessions := db.sessions[s := db.sessions[s].(
        state := Failed, failure := Some(code), completedAt := Some(at.wall), lastActivityAt := at.wall)],
      blobs := db.blobs[b := db.blobs[b].(state := BlobFailed, failure := Some(code))],
      versions := db.versions[v := db.versions[v].(state := VersionFailed, failure := Some(code), verifyingAt := Some(at.wall))])
  }

  lemma FailureCommits(db: Db, s: Id, code: Failure, at: Instants)
    requires Inv(db) && ValidInstants(db, at) && CheckSingle(db, s).Pass? && db.sessions[s].state == InProgress
    requires db.versions[db.sessions[s].versionId].state == Uploading
    ensures var result := MarkFailed(db, s, code, at); result.Ok? && FailedLeaves(db, s, code, at, result.value.db)
  {
    hide Inv, Advances, PutBlob, PutVersion, PutSession, RequireSealed, Commit, Recount;
    P.MarkFailedWrites(db, s, code, at);
    P.MarkFailedSafe(db, s, code, at);
    SealedAnswers(S.Moved(db, s, P.FailedVersion(db.versions[db.sessions[s].versionId], code, at.wall),
                          P.FailedSession(db.sessions[s], code, at.wall), P.FailedBlob(db.blobs[db.sessions[s].blobId], code)),
                  db.sessions[s].versionId, db.sessions[s].blobId, at);
  }

  /** A mismatch fails session, Blob and Version together. */
  lemma FailedDecides(db: Db, s: Id, code: Failure, at: Instants, result: Result<Done<()>, Error>)
    requires Inv(db) && ValidInstants(db, at) && result == MarkFailed(db, s, code, at)
    ensures SingleIn(db, s, InProgress) ==>
      && db.sessions[s].blobId in db.blobs && db.sessions[s].versionId in db.versions
      && if db.versions[db.sessions[s].versionId].state != Uploading then result == Err(IllegalTransition)
         else result.Ok? && FailedLeaves(db, s, code, at, result.value.db)
    ensures SingleIn(db, s, Failed) ==> result == Ok(Done(db.(clock := at.commit), ()))
    ensures !SingleIn(db, s, InProgress) && !SingleIn(db, s, Failed) ==> result == Err(SingleError(db, s))
  {
    hide Inv, Advances, PutBlob, PutVersion, PutSession, RequireSealed, Commit;
    SingleChecks(db, s);
    if SingleIn(db, s, InProgress) && db.versions[db.sessions[s].versionId].state == Uploading {
      FailureCommits(db, s, code, at);
    }
  }

  // -------------------------------------------------------------- publication

  /** Every file of the Version is there. */
  predicate Complete(db: Db, v: Id) {
    v in db.entries && forall k :: 0 <= k < |db.entries[v]| ==>
      db.entries[v][k].blobId in db.blobs && db.blobs[db.entries[v][k].blobId].state == BlobAvailable
  }

  /** A DRAFT or UPLOADING Version becomes READY exactly when every file is there;
      a READY one is answered as it stands. */
  lemma FinalizeDecides(db: Db, v: Id, at: Instants, result: Result<Done<VersionRow>, Error>)
    requires Inv(db) && ValidInstants(db, at) && result == Finalize(db, v, at)
    ensures v !in db.versions ==> result == Err(NotFound)
    ensures v in db.versions && db.versions[v].state == Ready ==> result == Ok(Done(db.(clock := at.commit), db.versions[v]))
    ensures v in db.versions && db.versions[v].state != Ready ==>
      var ready := db.versions[v].(state := Ready, verifyingAt := Some(at.wall), readyAt := Some(at.wall));
      result == if db.versions[v].state in {Draft, Uploading} && Complete(db, v)
        then Ok(Done(db.(clock := at.commit, versions := db.versions[v := ready]), ready))
        else Err(IllegalTransition)
  {
    hide Inv, Advances, VersionUpdateAllowed, Recount, ManifestTotals;
    P.FinalizeSafe(db, v, at);
    if v in db.versions {
      S.VersionFacts(db, v);
      if db.versions[v].state in {Draft, Uploading} {
        P.ReadyAllowed(db, v, at.wall);
        var verifying := db.versions[v].(state := Verifying, verifyingAt := Some(at.wall));
        assert db.versions[v := verifying][v := verifying.(state := Ready, readyAt := Some(at.wall))]
          == db.versions[v := verifying.(state := Ready, readyAt := Some(at.wall))];
      }
    }
  }
}
