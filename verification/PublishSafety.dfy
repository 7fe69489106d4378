/** Verification, failure, restart, preparation and publication of single-PUT
    Blobs and their Versions. */
module PublishSafety {
  import opened Base
  import opened Flush
  import opened Frame
  import opened Guards
  import opened History
  import opened Insertion
  import opened Invariant
  import opened LeaseSafety
  import opened Multipart
  import opened Registry
  import opened Rewrite
  import opened Rows
  import opened Safety
  import opened Sealing
  import opened SingleSafety
  import C = CreateSafety

  // ----------------------------------------------------------------- verified

  predicate MarkVerifiedRefused(db: Db, s: Id) {
    && CheckSingle(db, s).Pass? && db.sessions[s].state == InProgress
    && HasMultipart(db, db.sessions[s].blobId)
  }

  function VerifiedBlob(blob: BlobRow, at: int): BlobRow {
    blob.(state := BlobAvailable, verifiedAt := Some(at))
  }

  function VerifiedSession(row: SessionRow, etag: Option<string>, at: int): SessionRow {
    row.(state := Completed, etag := etag, completedAt := Some(at), lastActivityAt := at)
  }

  lemma VerifiedSingleRows(w: Write, etag: Option<string>, at: int)
    requires w.row.strategy == SinglePut && SingleSound(w.row, w.blob) && w.row.state == InProgress
    ensures w.blob.state == BlobUploading
    ensures var row, blob := VerifiedSession(w.row, etag, at), VerifiedBlob(w.blob, at);
      && SessionUpdateAllowed(w.row, row, [], blob) && SingleMoves(w, row, blob)
      && BlobUpdateAllowed(w.blob, w.blob.(state := BlobVerifying)) && BlobUpdateAllowed(w.blob.(state := BlobVerifying), blob)
  {
  }

  /** Publication of a Blob with multipart history is refused at commit. */
  lemma NoBypass(db: Db, s: Id, row: SessionRow, blob: BlobRow, commit: int)
    requires Inv(db) && IsSingle(db, s) && row.blobId == db.sessions[s].blobId && row.strategy == SinglePut
    requires row.blobId in db.blobs && db.blobs[row.blobId].state == BlobUploading && blob.state == BlobAvailable
    requires HasMultipart(db, row.blobId)
    ensures !PublicationConsistent(db.(sessions := db.sessions[s := row], blobs := db.blobs[row.blobId := blob]), row.blobId, commit)
  {
    hide PairsOk, GenerationsOk, BlobsOk, VersionsOk, BindingsOk, SessionSound, EvidenceMatches;
    var after, b := db.(sessions := db.sessions[s := row], blobs := db.blobs[row.blobId := blob]), row.blobId;
    var m :| m in db.sessions && db.sessions[m].blobId == b && db.sessions[m].strategy == Multipart;
    assert after.sessions[m].blobId == b && after.sessions[m].strategy == Multipart;
    if HasValidCompletion(after, b) {
      var c :| c in after.sessions && IsCompletedFor(after, c, b);
      assert IsCompletedFor(db, c, b);
      CompletedIsAvailable(db, b);
    }
  }

  /** The three writes of a verification amount to one move of its rows. */
  lemma MarkVerifiedWrites(db: Db, s: Id, etag: Option<string>, at: Instants)
    requires Inv(db) && CheckSingle(db, s).Pass? && db.sessions[s].state == InProgress
    ensures var row := db.sessions[s];
      MarkVerified(db, s, etag, at) == Commit(Verified(db, s, etag, at.wall), row.blobId, at, ())
  {
    hide Inv, SessionUpdateAllowed, BlobUpdateAllowed, SingleMoves, SingleSound, Commit;
    SingleRows(db, s);
    var w := Standing(db, s);
    VerifiedSingleRows(w, etag, at.wall);
    assert db.blobs[w.row.blobId := w.blob.(state := BlobVerifying)][w.row.blobId := VerifiedBlob(w.blob, at.wall)]
      == db.blobs[w.row.blobId := VerifiedBlob(w.blob, at.wall)];
  }

  /** The session completed and its Blob AVAILABLE. */
  function Verified(db: Db, s: Id, etag: Option<string>, at: int): Db
    requires s in db.sessions && db.sessions[s].blobId in db.blobs
  {
    var row := db.sessions[s];
    db.(sessions := db.sessions[s := VerifiedSession(row, etag, at)],
        blobs := db.blobs[row.blobId := VerifiedBlob(db.blobs[row.blobId], at)])
  }

  /** Single-PUT verification is refused exactly on a Blob with multipart history. */
  lemma MarkVerifiedSafe(db: Db, s: Id, etag: Option<string>, at: Instants)
    requires Inv(db) && ValidInstants(db, at)
    ensures SafeUnless(db, MarkVerified(db, s, etag, at), MarkVerifiedRefused(db, s), CommitRejected)
  {
    hide Inv, Advances, SingleMoves, SingleSound, Commit, HasMultipart, PutBlob, PutSession;
    InvAfterTime(db, at.commit);
    if CheckSingle(db, s).Pass? && db.sessions[s].state == InProgress {
      SingleRows(db, s);
      var w := Standing(db, s);
      var row, blob := VerifiedSession(w.row, etag, at.wall), VerifiedBlob(w.blob, at.wall);
      VerifiedSingleRows(w, etag, at.wall);
      MarkVerifiedWrites(db, s, etag, at);
      if HasMultipart(db, w.row.blobId) {
        NoBypass(db, s, row, blob, at.commit);
        C.CommitFails(Verified(db, s, etag, at.wall), w.row.blobId, at, ());
      } else {
        SingleKeepsInv(db, s, row, blob, at.commit);
        CommitPasses(Verified(db, s, etag, at.wall), w.row.blobId, at, ());
      }
    }
  }

  // ------------------------------------------------------------------- failed

  function FailedBlob(blob: BlobRow, code: Failure): BlobRow {
    blob.(state := BlobFailed, failure := Some(code))
  }

  function FailedVersion(version: VersionRow, code: Failure, at: int): VersionRow {
    version.(state := VersionFailed, verifyingAt := Some(at), failure := Some(code))
  }

  function FailedSession(row: SessionRow, code: Failure, at: int): SessionRow {
    row.(state := Failed, failure := Some(code), completedAt := Some(at), lastActivityAt := at)
  }

  lemma FailedRows(w: Write, code: Failure, at: int)
    requires w.row.strategy == SinglePut && SingleSound(w.row, w.blob) && w.row.state == InProgress
    ensures w.blob.state == BlobUploading
    ensures var row, blob := FailedSession(w.row, code, at), FailedBlob(w.blob, code);
      && SessionUpdateAllowed(w.row, row, [], blob) && SingleMoves(w, row, blob)
      && BlobUpdateAllowed(w.blob, w.blob.(state := BlobVerifying)) && BlobUpdateAllowed(w.blob.(state := BlobVerifying), blob)
  {
  }

  lemma FailedVersionAllowed(db: Db, v: Id, code: Failure, at: int)
    requires Inv(db) && v in db.versions && db.versions[v].state == Uploading
    ensures var version := db.versions[v];
      var checking, failed := version.(state := Verifying, verifyingAt := Some(at)), FailedVersion(version, code, at);
      && VersionUpdateAllowed(version, checking, Recount(db.blobs, EntriesOf(db, v)))
      && VersionUpdateAllowed(checking, failed, Recount(db.blobs, EntriesOf(db, v)))
      && VersionAdvances(version, failed)
  {
    hide Inv, Recount, AllAvailable;
    VersionFacts(db, v);
  }

  /** The five writes of a failure amount to one move of its rows. */
  lemma MarkFailedWrites(db: Db, s: Id, code: Failure, at: Instants)
    requires Inv(db) && CheckSingle(db, s).Pass? && db.sessions[s].state == InProgress
    requires db.versions[db.sessions[s].versionId].state == Uploading
    ensures var row := db.sessions[s];
      var version, blob := FailedVersion(db.versions[row.versionId], code, at.wall), FailedBlob(db.blobs[row.blobId], code);
      MarkFailed(db, s, code, at) ==
        SealAndCommit(Moved(db, s, version, FailedSession(row, code, at.wall), blob), row.versionId, row.blobId, at)
  {
    hide Inv, SessionUpdateAllowed, BlobUpdateAllowed, VersionUpdateAllowed, SingleMoves, SingleSound, Commit, Recount;
    hide RequireSealed, VersionAdvances, SessionAdvances, BlobMay;
    SingleRows(db, s);
    var w := Standing(db, s);
    var b, v := w.row.blobId, w.row.versionId;
    FailedRows(w, code, at.wall);
    FailedVersionAllowed(db, v, code, at.wall);
    RecountAfterBlob(db, v, b, w.blob.(state := BlobVerifying));
    RecountAfterBlob(db, v, b, FailedBlob(w.blob, code));
    FailedWrites(db, v, b, w.blob.(state := BlobVerifying), FailedBlob(w.blob, code),
                 db.versions[v].(state := Verifying, verifyingAt := Some(at.wall)), FailedVersion(db.versions[v], code, at.wall));
  }

  lemma MarkFailedSafe(db: Db, s: Id, code: Failure, at: Instants)
    requires Inv(db) && ValidInstants(db, at)
    ensures Safe(db, MarkFailed(db, s, code, at))
  {
    hide Inv, Advances, VersionAdvances, SingleMoves, SingleSound, Commit, PutBlob, PutSession, PutVersion, Moved;
    InvAfterTime(db, at.commit);
    if && CheckSingle(db, s).Pass? && db.sessions[s].state == InProgress
       && db.versions[db.sessions[s].versionId].state == Uploading {
      SingleRows(db, s);
      var w := Standing(db, s);
      var b, v := w.row.blobId, w.row.versionId;
      var row, version, blob := FailedSession(w.row, code, at.wall), FailedVersion(db.versions[v], code, at.wall), FailedBlob(w.blob, code);
      FailedRows(w, code, at.wall);
      FailedVersionAllowed(db, v, code, at.wall);
      MarkFailedWrites(db, s, code, at);
      MovedKeepsInv(db, s, version, row, blob, at.commit);
      SealedPasses(Moved(db, s, version, row, blob), v, at.commit);
      CommitPasses(Moved(db, s, version, row, blob), b, at, ());
    }
  }

  /** The second write of a row is the one that stays. */
  lemma FailedWrites(db: Db, v: Id, b: Id, verifying: BlobRow, blob: BlobRow, checking: VersionRow, version: VersionRow)
    ensures db.blobs[b := verifying][b := blob] == db.blobs[b := blob]
    ensures db.versions[v := checking][v := version] == db.versions[v := version]
  {
  }

  // ------------------------------------------------------------------ finalize

  lemma ReadyAllowed(db: Db, v: Id, at: int)
    requires Inv(db) && v in db.versions && db.versions[v].state in {Draft, Uploading}
    ensures var version := db.versions[v];
      var verifying := version.(state := Verifying, verifyingAt := Some(at));
      var ready := verifying.(state := Ready, readyAt := Some(at));
      && VersionUpdateAllowed(version, verifying, Recount(db.blobs, EntriesOf(db, v)))
      && VersionUpdateAllowed(verifying, ready, Recount(db.blobs, EntriesOf(db, v)))
      && VersionAdvances(version, ready)
    ensures ManifestTotals(db.versions[v].manifest) == db.versions[v].totals && v in db.entries
  {
    hide Inv, Recount, AllAvailable, ManifestTotals;
    VersionFacts(db, v);
  }

  /** Publication is refused by nothing but the store's own checks, and the
      manifest it re-parses always agrees with the stored totals. */
  lemma FinalizeSafe(db: Db, v: Id, at: Instants)
    requires Inv(db) && ValidInstants(db, at)
    ensures Safe(db, Finalize(db, v, at)) && Finalize(db, v, at) != Err(ManifestMismatch)
  {
    hide Inv, Advances, VersionUpdateAllowed, VersionAdvances, Recount, AllAvailable, ManifestTotals;
    InvAfterTime(db, at.commit);
    if v in db.versions && db.versions[v].state in {Draft, Uploading} {
      ReadyAllowed(db, v, at.wall);
      if AllAvailable(db, EntriesOf(db, v)) {
        var verifying := db.versions[v].(state := Verifying, verifyingAt := Some(at.wall));
        var ready := verifying.(state := Ready, readyAt := Some(at.wall));
        InvAfterVersion(db, v, ready);
        var mid := db.(versions := db.versions[v := ready]);
        assert db.versions[v := verifying][v := ready] == mid.versions;
        InvAfterTime(mid, at.commit);
        SealedPasses(mid, v, at.commit);
        AdvancesTransitive(db, mid, mid.(clock := at.commit));
      }
    }
  }

  // ------------------------------------------------------------------- prepare

  /** The chosen Blob has an unfinished session that is neither CREATED nor
      IN_PROGRESS: an INITIATING multipart one. */
  predicate PrepareRefused(db: Db, versionId: Id, sha256: string, request: Id) {
    && versionId in db.versions
    && Key(PrepareScope, request) !in db.idempotency
    && var found := ReferencedBlob(db, EntriesOf(db, versionId), sha256);
    && found.Some?
    && db.blobs[found.value].state == BlobPending
    && StartedSession(db, found.value, db.nextId).None?
    && ActiveSession(db, found.value, db.nextId).Some?
  }

  lemma PreparedBinds(db: Db, key: Key, payload: Request, blobId: Id, s: Id, at: Instants)
    requires Inv(db) && ValidInstants(db, at) && key !in db.idempotency && key.scope == PrepareScope
    requires payload.PrepareRequest?
    ensures var bound := BindPrepared(db, key, payload, blobId, s);
      match bound
      case Ok(after) => Inv(after.(clock := at.commit)) && Advances(db, after.(clock := at.commit))
      case Err(error) => !Refused(error)
  {
    hide Inv, Advances;
    if IsSingle(db, s) {
      var row := IdempotencyRow(payload, s, None);
      InvAfterBinding(db, key, row);
      var after := db.(idempotency := db.idempotency[key := row]);
      InvAfterTime(after, at.commit);
      AdvancesTransitive(db, after, after.(clock := at.commit));
    }
  }

  lemma SingleInsertable(db: Db, b: Id, versionId: Id, blob: BlobRow, at: int)
    requires Inv(db) && b in db.blobs && versionId in db.versions && ActiveSlotFree(db, b)
    requires blob.sha256 == db.blobs[b].sha256 && blob.size == db.blobs[b].size
    requires db.blobs[b].state != BlobAvailable && blob.state in {BlobPending, BlobUploading}
    ensures Insertable(db, EmptySession(b, versionId, SinglePut, at), None, blob)
  {
    hide Inv, ActiveSlotFree;
  }

  /** A new single-PUT session with its binding. */
  lemma SingleCreated(db: Db, b: Id, versionId: Id, blob: BlobRow, key: Key, payload: Request, at: Instants)
    requires Inv(db) && ValidInstants(db, at) && b in db.blobs && versionId in db.versions && ActiveSlotFree(db, b)
    requires blob.sha256 == db.blobs[b].sha256 && blob.size == db.blobs[b].size
    requires db.blobs[b].state != BlobAvailable && blob.state in {BlobPending, BlobUploading}
    requires key !in db.idempotency && key.scope == PrepareScope && payload.PrepareRequest?
    ensures var row, s := EmptySession(b, versionId, SinglePut, at.wall), db.nextId;
      var ready := db.(nextId := s + 1, blobs := db.blobs[b := blob]);
      var created := ready.(sessions := db.sessions[s := row]);
      var bound := created.(idempotency := db.idempotency[key := IdempotencyRow(payload, s, None)]);
      && InsertSession(ready, s, row) == Ok(created)
      && Inv(bound.(clock := at.commit)) && Advances(db, bound.(clock := at.commit))
  {
    hide Inv, Advances, BindingSound, Insertable;
    FreshId(db);
    var row, s := EmptySession(b, versionId, SinglePut, at.wall), db.nextId;
    SingleInsertable(db, b, versionId, blob, at.wall);
    InsertionKeepsInv(db, row, None, blob, at.commit);
    SlotReads(db, db.(nextId := s + 1, blobs := db.blobs[b := blob]), b);
    var created := Inserted(db, row, None, blob);
    SingleBinding(created.(clock := at.commit), key, IdempotencyRow(payload, s, None));
    BindsNew(db, created, key, IdempotencyRow(payload, s, None), at, ());
  }

  lemma SlotReads(db: Db, after: Db, b: Id)
    requires after.sessions == db.sessions
    ensures ActiveSlotFree(after, b) == ActiveSlotFree(db, b)
  {
  }

  lemma SingleBinding(db: Db, key: Key, row: IdempotencyRow)
    requires key.scope == PrepareScope && row.request.PrepareRequest? && IsSingle(db, row.resourceId)
    ensures BindingSound(db, key, row)
  {
  }

  /** Preparation is refused exactly when an INITIATING multipart session holds
      the slot of a PENDING Blob. */
  lemma PrepareSafe(db: Db, versionId: Id, sha256: string, request: Id, fingerprint: Sha, at: Instants)
    requires Inv(db) && ValidInstants(db, at)
    ensures SafeUnless(db, Prepare(db, versionId, sha256, request, fingerprint, at), PrepareRefused(db, versionId, sha256, request), IndexViolated)
  {
    hide Inv, Advances, StartedSession, LatestSession, ActiveSession, ReferencedBlob, Commit, InsertSession;
    InvAfterTime(db, at.commit);
    var found := ReferencedBlob(db, EntriesOf(db, versionId), sha256);
    if versionId in db.versions && found.Some? {
      var b, key, payload := found.value, Key(PrepareScope, request), PrepareRequest(fingerprint);
      if db.blobs[b].state != BlobAvailable && key !in db.idempotency {
        var started := StartedSession(db, b, db.nextId);
        if started.Some? {
          PreparedBinds(db, key, payload, b, started.value, at);
        } else if db.blobs[b].state != BlobPending {
          if LatestSession(db, b, db.nextId).Some? {
            PreparedBinds(db, key, payload, b, LatestSession(db, b, db.nextId).value, at);
          }
        } else {
          PrepareCreates(db, versionId, b, key, payload, at);
        }
      }
    }
  }

  lemma PrepareCreates(db: Db, versionId: Id, b: Id, key: Key, payload: Request, at: Instants)
    requires Inv(db) && ValidInstants(db, at) && versionId in db.versions && b in db.blobs
    requires db.blobs[b].state == BlobPending
    requires key !in db.idempotency && key.scope == PrepareScope && payload.PrepareRequest?
    ensures var s, row := db.nextId, EmptySession(b, versionId, SinglePut, at.wall);
      var created := InsertSession(db.(nextId := s + 1), s, row);
      if ActiveSession(db, b, db.nextId).Some? then created == Err(IndexViolated)
      else
        created.Ok? && BindPrepared(created.value, key, payload, b, s).Ok? &&
        var bound := BindPrepared(created.value, key, payload, b, s).value;
        Commit(bound, b, at, Prepared(b, Some(s))) == Ok(Finish(bound, at, Prepared(b, Some(s))))
        && Inv(bound.(clock := at.commit)) && Advances(db, bound.(clock := at.commit))
  {
    hide Inv, Advances, ActiveSlotFree, Commit;
    var s := db.nextId;
    SlotReads(db, db.(nextId := s + 1), b);
    if ActiveSession(db, b, db.nextId).Some? {
      Occupied(db, b);
    } else {
      C.NoActiveSession(db, b);
      assert db.blobs[b := db.blobs[b]] == db.blobs;
      SingleCreated(db, b, versionId, db.blobs[b], key, payload, at);
      var created := InsertSession(db.(nextId := s + 1), s, EmptySession(b, versionId, SinglePut, at.wall)).value;
      var bound := BindPrepared(created, key, payload, b, s).value;
      CommitPasses(bound, b, at, Prepared(b, Some(s)));
    }
  }

  lemma Occupied(db: Db, b: Id)
    requires ActiveSession(db, b, db.nextId).Some?
    ensures !ActiveSlotFree(db, b)
  {
  }

  // ------------------------------------------------------------------- restart

  function RestartedVersion(version: VersionRow): VersionRow {
    version.(state := Uploading, failure := None)
  }

  function RestartedBlob(blob: BlobRow): BlobRow {
    blob.(state := BlobUploading, failure := None)
  }

  lemma RestartedVersionAllowed(db: Db, v: Id)
    requires Inv(db) && v in db.versions && db.versions[v].state == VersionFailed
    ensures VersionUpdateAllowed(db.versions[v], RestartedVersion(db.versions[v]), Recount(db.blobs, EntriesOf(db, v)))
    ensures VersionAdvances(db.versions[v], RestartedVersion(db.versions[v]))
  {
    hide Inv, Recount, AllAvailable;
    VersionFacts(db, v);
  }

  /** The Version and Blob a restart reopens. */
  function Reopened(db: Db, versionId: Id, blobId: Id): Db
    requires versionId in db.versions && blobId in db.blobs
  {
    db.(versions := db.versions[versionId := RestartedVersion(db.versions[versionId])],
        blobs := db.blobs[blobId := RestartedBlob(db.blobs[blobId])], nextId := db.nextId + 1)
  }

  /** With the new session. */
  function Recreated(db: Db, versionId: Id, blobId: Id, at: int): Db
    requires versionId in db.versions && blobId in db.blobs
  {
    var ready := Reopened(db, versionId, blobId);
    ready.(sessions := ready.sessions[db.nextId := EmptySession(blobId, versionId, SinglePut, at)])
  }

  predicate Restartable(db: Db, versionId: Id, blobId: Id) {
    && versionId in db.versions && blobId in db.blobs
    && db.versions[versionId].state == VersionFailed && db.blobs[blobId].state == BlobFailed
    && (LatestSession(db, blobId, db.nextId).Some? ==> IsSingle(db, LatestSession(db, blobId, db.nextId).value))
  }

  /** The Blob has an unfinished session, though the one with the latest creation
      time is a single-PUT one: creation times come from the application's clock. */
  predicate RestartRefused(db: Db, versionId: Id, blobId: Id, request: Id) {
    && Restartable(db, versionId, blobId) && References(db, versionId, blobId)
    && Key(PrepareScope, request) !in db.idempotency
    && ActiveSession(db, blobId, db.nextId).Some?
  }

  /** A restart is refused, by the active-session index, exactly when an unfinished
      session holds the slot of the FAILED Blob it restarts. */
  lemma RestartSafe(db: Db, versionId: Id, blobId: Id, request: Id, fingerprint: Sha, at: Instants)
    requires Inv(db) && ValidInstants(db, at)
    ensures SafeUnless(db, Restart(db, versionId, blobId, request, fingerprint, at), RestartRefused(db, versionId, blobId, request), IndexViolated)
  {
    hide Inv, Advances, References, LatestSession, Finish, ActiveSession, Recreated, RestartNew;
    var key, payload := Key(PrepareScope, request), PrepareRequest(fingerprint);
    if versionId in db.versions && blobId in db.blobs && References(db, versionId, blobId) {
      if key in db.idempotency {
        InvAfterTime(db, at.commit);
        FinishedIs(db, at, db.idempotency[key].resourceId);
      } else if !Restartable(db, versionId, blobId) {
        RestartDeclined(db, versionId, blobId, key, payload, at);
      } else if ActiveSession(db, blobId, db.nextId).Some? {
        RestartBlocked(db, versionId, blobId, key, payload, at);
      } else {
        RestartWrites(db, versionId, blobId, key, payload, at);
        RestartSucceeds(db, versionId, blobId, key, payload, at);
      }
    }
  }

  lemma RestartDeclined(db: Db, versionId: Id, blobId: Id, key: Key, payload: Request, at: Instants)
    requires versionId in db.versions && blobId in db.blobs && key !in db.idempotency
    requires !Restartable(db, versionId, blobId)
    ensures RestartNew(db, versionId, blobId, key, payload, at) == Err(IllegalTransition)
  {
    hide LatestSession, PutVersion, PutBlob, StartAgain;
  }

  lemma RestartBlocked(db: Db, versionId: Id, blobId: Id, key: Key, payload: Request, at: Instants)
    requires Inv(db) && Restartable(db, versionId, blobId) && key !in db.idempotency
    requires ActiveSession(db, blobId, db.nextId).Some?
    ensures RestartNew(db, versionId, blobId, key, payload, at) == Err(IndexViolated)
  {
    hide Inv, VersionUpdateAllowed, VersionAdvances, LatestSession, Commit, InsertSession, EntriesOf, Recount;
    hide EmptySession, ActiveSession, RequireSealed;
    RestartedVersionAllowed(db, versionId);
    RestartOccupied(db, versionId, blobId, at.wall);
  }

  lemma RestartSucceeds(db: Db, versionId: Id, blobId: Id, key: Key, payload: Request, at: Instants)
    requires Inv(db) && ValidInstants(db, at) && Restartable(db, versionId, blobId)
    requires ActiveSession(db, blobId, db.nextId).None?
    requires key !in db.idempotency && key.scope == PrepareScope && payload.PrepareRequest?
    ensures var created := Recreated(db, versionId, blobId, at.wall);
      var bound := created.(idempotency := created.idempotency[key := IdempotencyRow(payload, db.nextId, None)]);
      RestartNew(db, versionId, blobId, key, payload, at) == Ok(Done(bound.(clock := at.commit), db.nextId))
  {
    hide Inv, Advances, VersionUpdateAllowed, VersionAdvances, LatestSession, Commit, InsertSession, EntriesOf;
    hide Recount, EmptySession, ActiveSession, RequireSealed, Recreated;
    RestartedVersionAllowed(db, versionId);
    RestartWrites(db, versionId, blobId, key, payload, at);
    RestartCommits(db, versionId, blobId, key, payload, at);
  }

  /** An unfinished session keeps the new row out. */
  lemma RestartOccupied(db: Db, versionId: Id, blobId: Id, at: int)
    requires versionId in db.versions && blobId in db.blobs && ActiveSession(db, blobId, db.nextId).Some?
    ensures InsertSession(Reopened(db, versionId, blobId), db.nextId, EmptySession(blobId, versionId, SinglePut, at)) == Err(IndexViolated)
  {
    hide ActiveSlotFree;
    Occupied(db, blobId);
    SlotReads(db, Reopened(db, versionId, blobId), blobId);
  }

  lemma RestartWrites(db: Db, versionId: Id, blobId: Id, key: Key, payload: Request, at: Instants)
    requires Inv(db) && ValidInstants(db, at) && Restartable(db, versionId, blobId)
    requires ActiveSession(db, blobId, db.nextId).None?
    requires key !in db.idempotency && key.scope == PrepareScope && payload.PrepareRequest?
    ensures InsertSession(Reopened(db, versionId, blobId), db.nextId, EmptySession(blobId, versionId, SinglePut, at.wall))
      == Ok(Recreated(db, versionId, blobId, at.wall))
    ensures var created := Recreated(db, versionId, blobId, at.wall);
      var bound := created.(idempotency := created.idempotency[key := IdempotencyRow(payload, db.nextId, None)]);
      Inv(bound.(clock := at.commit)) && Advances(db, bound.(clock := at.commit))
  {
    hide Inv, Advances, LatestSession, VersionAdvances, ActiveSlotFree, InsertSession, EmptySession;
    C.NoActiveSession(db, blobId);
    RestartedVersionAllowed(db, versionId);
    var mid := db.(versions := db.versions[versionId := RestartedVersion(db.versions[versionId])]);
    InvAfterVersion(db, versionId, RestartedVersion(db.versions[versionId]));
    SlotReads(db, mid, blobId);
    SingleCreated(mid, blobId, versionId, RestartedBlob(db.blobs[blobId]), key, payload, at);
    var created := Recreated(db, versionId, blobId, at.wall);
    var bound := created.(idempotency := created.idempotency[key := IdempotencyRow(payload, db.nextId, None)]);
    AdvancesTransitive(db, mid, bound.(clock := at.commit));
  }

  lemma RestartCommits(db: Db, versionId: Id, blobId: Id, key: Key, payload: Request, at: Instants)
    requires versionId in db.versions && blobId in db.blobs
    ensures var created := Recreated(db, versionId, blobId, at.wall);
      var bound := created.(idempotency := created.idempotency[key := IdempotencyRow(payload, db.nextId, None)]);
      Inv(bound.(clock := at.commit)) ==>
        && RequireSealed(bound, versionId).Pass?
        && Commit(bound, blobId, at, db.nextId) == Ok(Done(bound.(clock := at.commit), db.nextId))
  {
    hide Inv, Commit, Recreated;
    var created := Recreated(db, versionId, blobId, at.wall);
    var bound := created.(idempotency := created.idempotency[key := IdempotencyRow(payload, db.nextId, None)]);
    if Inv(bound.(clock := at.commit)) {
      SealedPasses(bound, versionId, at.commit);
      CommitPasses(bound, blobId, at, db.nextId);
    }
  }
}
