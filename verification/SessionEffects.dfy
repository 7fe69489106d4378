/** Preparation and restart, field by field: which session answers, when a new one
    begins, and which error is raised otherwise. */
module SessionEffects {
  import opened Base
  import opened CreationEffects
  import opened Flush
  import opened History
  import opened Insertion
  import opened Invariant
  import opened Multipart
  import opened Registry
  import opened Rows
  import P = PublishSafety
  import R = Restarts
  import Scenes

  /** An entry of the Version uses the Blob. */
  predicate UsesBlob(db: Db, v: Id, b: Id) {
    v in db.entries && exists i :: 0 <= i < |db.entries[v]| && db.entries[v][i].blobId == b
  }

  /** The Blob of this digest among those of the Version. */
  predicate Chosen(db: Db, v: Id, sha256: string, b: Id) {
    v in db.versions && UsesBlob(db, v, b) && b in db.blobs && db.blobs[b].sha256 == sha256
  }

  /** The session of the Blob that was created last, the later row among equals. */
  ghost predicate Latest(db: Db, b: Id, p: Id) {
    && p in db.sessions && db.sessions[p].blobId == b
    && forall r :: r in db.sessions && db.sessions[r].blobId == b ==>
      db.sessions[r].createdAt < db.sessions[p].createdAt || (db.sessions[r].createdAt == db.sessions[p].createdAt && r <= p)
  }

  /** A session in CREATED or IN_PROGRESS. */
  predicate Underway(db: Db, b: Id, s: Id) {
    s in db.sessions && db.sessions[s].blobId == b && db.sessions[s].state in {Created, InProgress}
  }

  predicate IsUnderway(db: Db, b: Id) {
    exists s :: s in db.sessions && Underway(db, b, s)
  }

  /** A CREATED single-PUT session with everything else unset. */
  predicate NewSingle(row: SessionRow, v: Id, b: Id, wall: int) {
    && row.blobId == b && row.versionId == v && row.strategy == SinglePut && row.state == Created
    && row.createdAt == wall && row.lastActivityAt == wall
    && row.frozen.None? && row.provider.None? && row.initiationStartedAt.None? && row.initiationAmbiguousAt.None?
    && row.completionRequestedAt.None? && row.completionReason.None? && row.completionPhase.None?
    && row.completionAttemptedAt.None? && row.lastResult.None? && row.reconciledAt.None? && row.finalAbsenceAt.None?
    && row.invalidatedAt.None? && row.evidence.None? && row.abortRequestedAt.None? && row.failure.None?
    && row.etag.None? && row.completedAt.None?
  }

  // ------------------------------------------------------------- what is found

  lemma {:induction false} ReferencedUses(db: Db, entries: seq<EntryRow>, sha256: string)
    ensures var found := ReferencedBlob(db, entries, sha256);
      if found.Some? then exists i :: 0 <= i < |entries| && entries[i].blobId == found.value
      else forall i :: 0 <= i < |entries| && entries[i].blobId in db.blobs ==> db.blobs[entries[i].blobId].sha256 != sha256
  {
    if ReferencedBlob(db, entries, sha256).Some? {
      R.ReferencedIsEntry(db, entries, sha256);
    } else if |entries| > 0 {
      var before := entries[..|entries| - 1];
      ReferencedUses(db, before, sha256);
      assert forall i :: 0 <= i < |before| ==> before[i] == entries[i];
    }
  }

  lemma ChosenIsFound(db: Db, v: Id, sha256: string)
    requires Inv(db) && v in db.versions
    ensures forall b: Id :: Chosen(db, v, sha256, b) <==> ReferencedBlob(db, EntriesOf(db, v), sha256) == Some(b)
  {
    hide Inv;
    ReferencedUses(db, EntriesOf(db, v), sha256);
    forall b: Id | Chosen(db, v, sha256, b)
      ensures ReferencedBlob(db, EntriesOf(db, v), sha256) == Some(b)
    {
      var found := ReferencedBlob(db, EntriesOf(db, v), sha256);
      var i :| 0 <= i < |db.entries[v]| && db.entries[v][i].blobId == b;
      assert EntriesOf(db, v)[i].blobId == b && found.Some?;
      OneDigest(db, b, found.value);
    }
  }

  lemma OneDigest(db: Db, b: Id, c: Id)
    requires Inv(db) && b in db.blobs && c in db.blobs && db.blobs[b].sha256 == db.blobs[c].sha256
    ensures b == c
  {
    hide SessionsOk, PairsOk, GenerationsOk, VersionsOk, BindingsOk, BlobSound;
  }

  lemma {:induction false} LatestBelow(db: Db, b: Id, below: Id)
    ensures var latest := LatestSession(db, b, below);
      if latest.None? then forall r :: r in db.sessions && r < below ==> db.sessions[r].blobId != b
      else
        && latest.value < below
        && forall r :: r in db.sessions && r < below && db.sessions[r].blobId == b ==>
             var p := latest.value;
             db.sessions[r].createdAt < db.sessions[p].createdAt || (db.sessions[r].createdAt == db.sessions[p].createdAt && r <= p)
  {
    if below > 0 {
      LatestBelow(db, b, below - 1);
    }
  }

  lemma IdsAreBelow(db: Db)
    requires Inv(db)
    ensures forall s :: s in db.sessions ==> s < db.nextId
  {
    hide Inv, MultipartSound, SingleSound, LeasesSound;
    forall s | s in db.sessions
      ensures s < db.nextId
    {
      SoundOf(db, s);
    }
  }

  lemma LatestIsFound(db: Db, b: Id)
    requires Inv(db)
    ensures var latest := LatestSession(db, b, db.nextId);
      && (latest.Some? ==> Latest(db, b, latest.value))
      && (forall p: Id :: Latest(db, b, p) ==> latest == Some(p))
      && (latest.None? ==> forall r :: r in db.sessions ==> db.sessions[r].blobId != b)
  {
    hide Inv;
    IdsAreBelow(db);
    LatestBelow(db, b, db.nextId);
  }

  lemma {:induction false} StartedBelow(db: Db, b: Id, below: Id)
    ensures StartedSession(db, b, below).None? ==> forall s: Id :: s < below ==> !Underway(db, b, s)
  {
    if below > 0 {
      StartedBelow(db, b, below - 1);
    }
  }

  lemma UnderwayIsFound(db: Db, b: Id)
    requires Inv(db)
    ensures StartedSession(db, b, db.nextId).Some? <==> IsUnderway(db, b)
    ensures forall s: Id :: Underway(db, b, s) ==> StartedSession(db, b, db.nextId) == Some(s)
  {
    hide Inv;
    IdsAreBelow(db);
    StartedBelow(db, b, db.nextId);
    var found := StartedSession(db, b, db.nextId);
    assert found.Some? ==> Underway(db, b, found.value);
    forall s: Id | Underway(db, b, s)
      ensures found == Some(s)
    {
      assert s < db.nextId && found.Some?;
      OneUnfinished(db, b, s, found.value);
    }
  }

  // ------------------------------------------------------------------- restart

  /** Both are FAILED, and the last attempt was a single-PUT one. */
  ghost predicate Attemptable(db: Db, v: Id, b: Id) {
    && v in db.versions && db.versions[v].state == VersionFailed
    && b in db.blobs && db.blobs[b].state == BlobFailed
    && forall p: Id :: Latest(db, b, p) ==> db.sessions[p].strategy == SinglePut
  }

  ghost function RestartError(db: Db, v: Id, b: Id): Error {
    if !(v in db.versions && b in db.blobs && UsesBlob(db, v, b)) then NotFound
    else if !Attemptable(db, v, b) then IllegalTransition
    else IndexViolated
  }

  /** Version and Blob are UPLOADING without their failures, under a new session. */
  predicate RestartLeaves(db: Db, v: Id, b: Id, request: Id, fingerprint: Sha, at: Instants, done: Done<Id>)
    requires v in db.versions && b in db.blobs
  {
    var s := done.value;
    && s !in db.sessions && s in done.db.sessions && NewSingle(done.db.sessions[s], v, b, at.wall)
    && done.db == db.(
         clock := at.commit, nextId := done.db.nextId, sessions := db.sessions[s := done.db.sessions[s]],
         blobs := db.blobs[b := db.blobs[b].(state := BlobUploading, failure := None)],
         versions := db.versions[v := db.versions[v].(state := Uploading, failure := None)],
         idempotency := db.idempotency[Key(PrepareScope, request) := IdempotencyRow(PrepareRequest(fingerprint), s, None)])
  }

  lemma RestartDecides(db: Db, v: Id, b: Id, request: Id, fingerprint: Sha, at: Instants, result: Result<Done<Id>, Error>)
    requires Inv(db) && ValidInstants(db, at) && result == Restart(db, v, b, request, fingerprint, at)
    requires Key(PrepareScope, request) !in db.idempotency
    ensures result.Ok? <==> UsesBlob(db, v, b) && Attemptable(db, v, b) && !IsUnfinished(db, b)
    ensures result.Ok? ==> v in db.versions && b in db.blobs && RestartLeaves(db, v, b, request, fingerprint, at, result.value)
    ensures result.Err? ==> result.error == RestartError(db, v, b)
  {
    hide Inv, Advances, References, LatestSession, Finish, ActiveSession, RestartNew, Latest, IsUnfinished, RestartLeaves;
    hide UsesBlob;
    LatestIsFound(db, b);
    UnfinishedIsActive(db, b);
    ReferencesByEntry(db, v, b);
    UsesByEntry(db, v, b);
    var key, payload := Key(PrepareScope, request), PrepareRequest(fingerprint);
    if v in db.versions && b in db.blobs && UsesBlob(db, v, b) {
      if !P.Restartable(db, v, b) {
        P.RestartDeclined(db, v, b, key, payload, at);
      } else if IsUnfinished(db, b) {
        P.RestartBlocked(db, v, b, key, payload, at);
      } else {
        P.RestartSucceeds(db, v, b, key, payload, at);
        RestartRows(db, v, b, request, fingerprint, at);
      }
    }
  }

  lemma UsesByEntry(db: Db, v: Id, b: Id)
    ensures UsesBlob(db, v, b) <==> References(db, v, b)
  {
    ReferencesByEntry(db, v, b);
  }

  lemma RestartRows(db: Db, v: Id, b: Id, request: Id, fingerprint: Sha, at: Instants)
    requires Inv(db) && v in db.versions && b in db.blobs
    ensures var created := P.Recreated(db, v, b, at.wall);
      var bound := created.(idempotency := created.idempotency[
        Key(PrepareScope, request) := IdempotencyRow(PrepareRequest(fingerprint), db.nextId, None)]);
      RestartLeaves(db, v, b, request, fingerprint, at, Done(bound.(clock := at.commit), db.nextId))
  {
    hide Inv;
    FreshId(db);
  }

  /** A repeated restart, or one under the key of the upload it is about, answers
      with that key's session and reopens nothing. */
  lemma RestartRepeats(db: Db, v: Id, b: Id, request: Id, fingerprint: Sha, at: Instants, result: Result<Done<Id>, Error>)
    requires Inv(db) && result == Restart(db, v, b, request, fingerprint, at)
    requires Key(PrepareScope, request) in db.idempotency && v in db.versions && b in db.blobs && UsesBlob(db, v, b)
    ensures var row := db.idempotency[Key(PrepareScope, request)];
      result == if row.request == PrepareRequest(fingerprint) then Ok(Done(db.(clock := at.commit), row.resourceId)) else Err(IdempotencyConflict)
  {
    hide Inv, References, UsesBlob;
    UsesByEntry(db, v, b);
    Bound(db, Key(PrepareScope, request));
  }

  // ------------------------------------------------------------------- prepare

  /** The request is bound to a session that is already there. */
  predicate JoinLeaves(db: Db, b: Id, s: Id, request: Id, fingerprint: Sha, at: Instants, done: Done<Prepared>) {
    && done.value == Prepared(b, Some(s))
    && done.db == db.(
         clock := at.commit,
         idempotency := db.idempotency[Key(PrepareScope, request) := IdempotencyRow(PrepareRequest(fingerprint), s, None)])
  }

  /** The request begins the first session of a PENDING Blob. */
  predicate FirstLeaves(db: Db, v: Id, b: Id, request: Id, fingerprint: Sha, at: Instants, done: Done<Prepared>) {
    && done.value.blobId == b && done.value.sessionId.Some?
    && var s := done.value.sessionId.value;
    && s !in db.sessions && s in done.db.sessions && NewSingle(done.db.sessions[s], v, b, at.wall)
    && done.db == db.(
         clock := at.commit, nextId := done.db.nextId, sessions := db.sessions[s := done.db.sessions[s]],
         idempotency := db.idempotency[Key(PrepareScope, request) := IdempotencyRow(PrepareRequest(fingerprint), s, None)])
  }

  /** A single-PUT session takes the request; a multipart one does not. */
  ghost predicate Joins(db: Db, b: Id, s: Id, request: Id, fingerprint: Sha, at: Instants, result: Result<Done<Prepared>, Error>)
    requires s in db.sessions
  {
    if db.sessions[s].strategy == SinglePut then result.Ok? && JoinLeaves(db, b, s, request, fingerprint, at, result.value)
    else result == Err(IllegalTransition)
  }

  lemma JoinCase(db: Db, v: Id, sha256: string, b: Id, s: Id, request: Id, fingerprint: Sha, at: Instants,
                 result: Result<Done<Prepared>, Error>)
    requires Inv(db) && result == Prepare(db, v, sha256, request, fingerprint, at) && Chosen(db, v, sha256, b)
    requires Key(PrepareScope, request) !in db.idempotency && db.blobs[b].state != BlobAvailable
    requires StartedSession(db, b, db.nextId) == Some(s) ||
      (StartedSession(db, b, db.nextId).None? && db.blobs[b].state != BlobPending && LatestSession(db, b, db.nextId) == Some(s))
    ensures s in db.sessions && Joins(db, b, s, request, fingerprint, at, result)
  {
    hide Inv, StartedSession, LatestSession, ReferencedBlob;
    ChosenIsFound(db, v, sha256);
  }

  lemma FirstCase(db: Db, v: Id, sha256: string, b: Id, request: Id, fingerprint: Sha, at: Instants,
                  result: Result<Done<Prepared>, Error>)
    requires Inv(db) && ValidInstants(db, at) && result == Prepare(db, v, sha256, request, fingerprint, at)
    requires Chosen(db, v, sha256, b) && Key(PrepareScope, request) !in db.idempotency
    requires db.blobs[b].state == BlobPending && StartedSession(db, b, db.nextId).None?
    ensures if IsUnfinished(db, b) then result == Err(IndexViolated)
      else result.Ok? && FirstLeaves(db, v, b, request, fingerprint, at, result.value)
  {
    hide Inv, Advances, StartedSession, LatestSession, ActiveSession, ReferencedBlob, Commit, InsertSession, IsUnfinished;
    hide EmptySession, NewSingle, BindPrepared;
    ChosenIsFound(db, v, sha256);
    UnfinishedIsActive(db, b);
    var s, key, payload := db.nextId, Key(PrepareScope, request), PrepareRequest(fingerprint);
    P.PrepareCreates(db, v, b, key, payload, at);
    if !IsUnfinished(db, b) {
      Scenes.FirstRow(db, v, b, at.wall, key, payload);
      FreshId(db);
      NewSingleRow(v, b, at.wall);
    }
  }

  lemma NewSingleRow(v: Id, b: Id, wall: int)
    ensures NewSingle(EmptySession(b, v, SinglePut, wall), v, b, wall)
  {
  }

  /** What becomes of a new request on a stored Blob. */
  ghost predicate Prepares(db: Db, v: Id, b: Id, request: Id, fingerprint: Sha, at: Instants, result: Result<Done<Prepared>, Error>)
    requires b in db.blobs
  {
    var state := db.blobs[b].state;
    if state == BlobAvailable then result == Ok(Done(db.(clock := at.commit), Prepared(b, None)))
    else if IsUnderway(db, b) then exists s: Id :: Underway(db, b, s) && Joins(db, b, s, request, fingerprint, at, result)
    else if state == BlobPending && IsUnfinished(db, b) then result == Err(IndexViolated)
    else if state == BlobPending then result.Ok? && FirstLeaves(db, v, b, request, fingerprint, at, result.value)
    else if exists p: Id :: Latest(db, b, p) then exists p: Id :: Latest(db, b, p) && Joins(db, b, p, request, fingerprint, at, result)
    else result == Err(ContentConflict)
  }

  /** A new request on the Blob of a digest: nothing to do once it is AVAILABLE,
      else the session underway, else a first session for a PENDING Blob, else the
      latest one. */
  lemma PrepareDecides(db: Db, v: Id, sha256: string, b: Id, request: Id, fingerprint: Sha, at: Instants,
                       result: Result<Done<Prepared>, Error>)
    requires Inv(db) && ValidInstants(db, at) && result == Prepare(db, v, sha256, request, fingerprint, at)
    requires Key(PrepareScope, request) !in db.idempotency && Chosen(db, v, sha256, b)
    ensures Prepares(db, v, b, request, fingerprint, at, result)
  {
    hide Inv, Advances, Chosen, Latest, Underway, IsUnderway, IsUnfinished, FirstLeaves, Joins, ReferencedBlob;
    hide StartedSession, LatestSession, Prepare;
    ChosenBlob(db, v, sha256, b);
    UnderwayIsFound(db, b);
    LatestIsFound(db, b);
    var started, latest := StartedSession(db, b, db.nextId), LatestSession(db, b, db.nextId);
    if db.blobs[b].state == BlobAvailable {
      AvailableCase(db, v, sha256, b, request, fingerprint, at, result);
    } else if started.Some? {
      JoinCase(db, v, sha256, b, started.value, request, fingerprint, at, result);
      Found(db, b, started.value);
    } else if db.blobs[b].state == BlobPending {
      FirstCase(db, v, sha256, b, request, fingerprint, at, result);
    } else if latest.Some? {
      JoinCase(db, v, sha256, b, latest.value, request, fingerprint, at, result);
    } else {
      NoneCase(db, v, sha256, b, request, fingerprint, at, result);
    }
  }

  lemma ChosenBlob(db: Db, v: Id, sha256: string, b: Id)
    requires Chosen(db, v, sha256, b)
    ensures b in db.blobs
  {
  }

  lemma Found(db: Db, b: Id, s: Id)
    requires StartedSession(db, b, db.nextId) == Some(s)
    ensures Underway(db, b, s)
  {
  }

  lemma AvailableCase(db: Db, v: Id, sha256: string, b: Id, request: Id, fingerprint: Sha, at: Instants,
                      result: Result<Done<Prepared>, Error>)
    requires Inv(db) && result == Prepare(db, v, sha256, request, fingerprint, at)
    requires Chosen(db, v, sha256, b) && db.blobs[b].state == BlobAvailable
    ensures result == Ok(Done(db.(clock := at.commit), Prepared(b, None)))
  {
    hide Inv, ReferencedBlob, PrepareNew;
    ChosenIsFound(db, v, sha256);
  }

  lemma NoneCase(db: Db, v: Id, sha256: string, b: Id, request: Id, fingerprint: Sha, at: Instants,
                 result: Result<Done<Prepared>, Error>)
    requires Inv(db) && result == Prepare(db, v, sha256, request, fingerprint, at) && Chosen(db, v, sha256, b)
    requires Key(PrepareScope, request) !in db.idempotency && db.blobs[b].state !in {BlobAvailable, BlobPending}
    requires StartedSession(db, b, db.nextId).None? && LatestSession(db, b, db.nextId).None?
    ensures result == Err(ContentConflict)
  {
    hide Inv, ReferencedBlob, StartedSession, LatestSession;
    ChosenIsFound(db, v, sha256);
  }

  lemma FoundIsChosen(db: Db, v: Id, sha256: string)
    requires Inv(db) && v in db.versions
    ensures var found := ReferencedBlob(db, EntriesOf(db, v), sha256); found.Some? ==> Chosen(db, v, sha256, found.value)
  {
    hide Inv, ReferencedBlob, Chosen;
    ChosenIsFound(db, v, sha256);
  }

  /** Without such a Blob there is nothing to prepare. */
  lemma PrepareNeedsBlob(db: Db, v: Id, sha256: string, request: Id, fingerprint: Sha, at: Instants)
    requires Inv(db) && forall b: Id :: !Chosen(db, v, sha256, b)
    ensures Prepare(db, v, sha256, request, fingerprint, at) == Err(NotFound)
  {
    hide Inv, ReferencedBlob, Chosen, PrepareNew;
    if v in db.versions {
      FoundIsChosen(db, v, sha256);
    }
  }

  /** A repeated preparation answers with its session whatever that has come to,
      and with none once the Blob is AVAILABLE. */
  lemma PrepareRepeats(db: Db, v: Id, sha256: string, b: Id, request: Id, fingerprint: Sha, at: Instants,
                       result: Result<Done<Prepared>, Error>)
    requires Inv(db) && result == Prepare(db, v, sha256, request, fingerprint, at)
    requires Key(PrepareScope, request) in db.idempotency && Chosen(db, v, sha256, b) && db.blobs[b].state != BlobAvailable
    ensures var row := db.idempotency[Key(PrepareScope, request)];
      result == if row.request == PrepareRequest(fingerprint)
        then Ok(Done(db.(clock := at.commit), Prepared(b, Some(row.resourceId))))
        else Err(IdempotencyConflict)
  {
    hide Inv, ReferencedBlob, PrepareNew;
    ChosenIsFound(db, v, sha256);
    Bound(db, Key(PrepareScope, request));
  }
}
