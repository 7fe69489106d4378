/** The publication transactions of the store: sealing Versions, single-PUT
    upload sessions, and READY. */
module Registry {
  import opened Base
  import opened Digest
  import opened Flush
  import opened Guards
  import opened Multipart
  import opened Rows
  import opened TextOrder

  // ------------------------------------------------------------ manifest lines

  predicate SoundLine(line: ManifestLine) {
    IsDigest(line.sha256) && line.size >= 0 && line.path != "" && Utf8Length(line.path) <= 1_024
  }

  /** What a canonical manifest guarantees of its lines. */
  predicate SoundLines(lines: seq<ManifestLine>) {
    && (forall i :: 0 <= i < |lines| ==> SoundLine(lines[i]))
    && (forall i, j :: 0 <= i < j < |lines| ==> lines[i].path != lines[j].path)
    && (forall i, j :: 0 <= i < j < |lines| && lines[i].sha256 == lines[j].sha256 ==> lines[i].size == lines[j].size)
  }

  function SumLines(lines: seq<ManifestLine>): int {
    if |lines| == 0 then 0 else SumLines(lines[..|lines| - 1]) + lines[|lines| - 1].size
  }

  /** The lines that introduce a digest. */
  function FirstUses(lines: seq<ManifestLine>): (first: seq<ManifestLine>) {
    if |lines| == 0 then []
    else
      var before, line := FirstUses(lines[..|lines| - 1]), lines[|lines| - 1];
      if Uses(before, line.sha256) then before else before + [line]
  }

  predicate Uses(lines: seq<ManifestLine>, sha256: string) {
    exists i :: 0 <= i < |lines| && lines[i].sha256 == sha256
  }

  /** The four totals of a manifest. */
  function ManifestTotals(lines: seq<ManifestLine>): Totals {
    Totals(|lines|, SumLines(lines), |FirstUses(lines)|, SumLines(FirstUses(lines)))
  }

  // ------------------------------------------------------------------ register

  function BlobBySha(db: Db, sha256: string, below: Id): (found: Option<Id>)
    ensures found.Some? ==> found.value < below && found.value in db.blobs && db.blobs[found.value].sha256 == sha256
    ensures found.None? ==> forall b :: b in db.blobs && b < below ==> db.blobs[b].sha256 != sha256
  {
    if below == 0 then None
    else if below - 1 in db.blobs && db.blobs[below - 1].sha256 == sha256 then Some(below - 1)
    else BlobBySha(db, sha256, below - 1)
  }

  function PendingBlob(line: ManifestLine): BlobRow {
    BlobRow(line.sha256, line.size, BlobPending, None, None)
  }

  /** Insert the Blob of a digest unless it exists, and return it. */
  function GetOrCreateBlob(db: Db, line: ManifestLine): (result: Result<Done<Id>, Error>)
    ensures result.Ok? ==> result.value.db == db.(blobs := result.value.db.blobs, nextId := result.value.db.nextId)
  {
    var row := PendingBlob(line);
    :- Require(BlobChecks(row), TriggerRejected);
    match BlobBySha(db, line.sha256, db.nextId)
    case Some(b) =>
      :- Require(db.blobs[b].size == line.size, ContentConflict);
      Ok(Done(db, b))
    case None =>
      var inserted :- InsertBlob(db.(nextId := db.nextId + 1), db.nextId, row);
      Ok(Done(inserted, db.nextId))
  }

  /** Entry rows of a Version for the lines of its manifest, in order. */
  function InsertEntries(db: Db, v: Id, lines: seq<ManifestLine>): (result: Result<Done<seq<EntryRow>>, Error>)
    ensures result.Ok? ==> result.value.db == db.(blobs := result.value.db.blobs, nextId := result.value.db.nextId)
  {
    if |lines| == 0 then Ok(Done(db, []))
    else
      var line := lines[|lines| - 1];
      var before :- InsertEntries(db, v, lines[..|lines| - 1]);
      var blob :- GetOrCreateBlob(before.db, line);
      var listed :- InsertEntry(blob.db, v, before.value, EntryRow(line.path, blob.value));
      Ok(Done(blob.db, listed))
  }

  function VersionByManifest(db: Db, datasetId: Id, manifest: seq<ManifestLine>, below: Id): (found: Option<Id>)
    ensures found.Some? ==> found.value in db.versions && db.versions[found.value].datasetId == datasetId
                            && db.versions[found.value].manifest == manifest
    ensures found.None? ==> forall v :: v in db.versions && v < below ==>
      !(db.versions[v].datasetId == datasetId && db.versions[v].manifest == manifest)
  {
    if below == 0 then None
    else if below - 1 in db.versions && db.versions[below - 1].datasetId == datasetId && db.versions[below - 1].manifest == manifest
    then Some(below - 1)
    else VersionByManifest(db, datasetId, manifest, below - 1)
  }

  function MaxVersionNumber(db: Db, datasetId: Id, below: Id): (n: int)
    ensures n >= 0
  {
    if below == 0 then 0
    else
      var rest, v := MaxVersionNumber(db, datasetId, below - 1), below - 1;
      if v in db.versions && db.versions[v].datasetId == datasetId && db.versions[v].number > rest
      then db.versions[v].number else rest
  }

  function Register(db: Db, datasetId: Id, lines: seq<ManifestLine>,
                    request: Id, fingerprint: Sha, at: Instants): (result: Result<Done<Id>, Error>)
    ensures result.Ok? ==>
      result.value.db == db.(clock := at.commit, nextId := result.value.db.nextId, blobs := result.value.db.blobs,
        versions := result.value.db.versions, entries := result.value.db.entries,
        idempotency := result.value.db.idempotency)
  {
    var canonical := SoundLines(lines);
    :- Require(canonical, ManifestMismatch);
    :- Require(datasetId in db.datasets, NotFound);
    var key, payload := Key(RegisterScope, request), RegisterRequest(fingerprint);
    if key in db.idempotency then
      :- Require(db.idempotency[key].request == payload && db.idempotency[key].resourceId in db.versions, IdempotencyConflict);
      Ok(Finish(db, at, db.idempotency[key].resourceId))
    else
      match VersionByManifest(db, datasetId, lines, db.nextId)
      case Some(v) =>
        var bound := Bind(db, key, IdempotencyRow(payload, v, None));
        Ok(Finish(bound, at, v))
      case None =>
        var v := db.nextId;
        var number := MaxVersionNumber(db, datasetId, db.nextId) + 1;
        var draft := VersionRow(datasetId, number, lines, Draft, ManifestTotals(lines), None, None, None, None);
        var inserted :- InsertVersion(db.(nextId := v + 1), v, draft);
        var listed :- InsertEntries(inserted, v, lines);
        var filled := listed.db.(entries := listed.db.entries[v := listed.value]);
        var sealed :- PutVersion(filled, v, draft.(sealedAt := Some(at.wall)));
        var bound := Bind(sealed, key, IdempotencyRow(payload, v, None));
        :- RequireSealed(bound, v);
        Ok(Finish(bound, at, v))
  }

  // --------------------------------------------------------- single-PUT sessions

  /** The referenced Blob of a digest. */
  function ReferencedBlob(db: Db, entries: seq<EntryRow>, sha256: string): (found: Option<Id>)
    ensures found.Some? ==> found.value in db.blobs && db.blobs[found.value].sha256 == sha256
  {
    if |entries| == 0 then None
    else
      var b := entries[|entries| - 1].blobId;
      if b in db.blobs && db.blobs[b].sha256 == sha256 then Some(b)
      else ReferencedBlob(db, entries[..|entries| - 1], sha256)
  }

  /** A session of the Blob in CREATED or IN_PROGRESS, whatever its strategy. */
  function StartedSession(db: Db, blobId: Id, below: Id): (found: Option<Id>)
    ensures found.Some? ==> found.value in db.sessions && db.sessions[found.value].blobId == blobId
                            && db.sessions[found.value].state in {Created, InProgress}
  {
    if below == 0 then None
    else if below - 1 in db.sessions && db.sessions[below - 1].blobId == blobId && db.sessions[below - 1].state in {Created, InProgress}
    then Some(below - 1)
    else StartedSession(db, blobId, below - 1)
  }

  /** The most recently created session of the Blob. */
  function LatestSession(db: Db, blobId: Id, below: Id): (found: Option<Id>)
    ensures found.Some? ==> found.value in db.sessions && db.sessions[found.value].blobId == blobId
  {
    if below == 0 then None
    else
      var rest, s := LatestSession(db, blobId, below - 1), below - 1;
      if s !in db.sessions || db.sessions[s].blobId != blobId then rest
      else if rest.Some? && db.sessions[rest.value].createdAt > db.sessions[s].createdAt then rest
      else Some(s)
  }

  datatype Prepared = Prepared(blobId: Id, sessionId: Option<Id>)

  predicate IsSingle(db: Db, s: Id) {
    s in db.sessions && db.sessions[s].strategy == SinglePut
  }

  /** Bind a request to a session, which must be a single-PUT one. */
  function BindPrepared(db: Db, key: Key, payload: Request, blobId: Id, s: Id): (result: Result<Db, Error>)
    requires key !in db.idempotency
    ensures result.Ok? ==> result.value == db.(idempotency := result.value.idempotency)
  {
    var single := IsSingle(db, s);
    :- Require(single, IllegalTransition);
    Ok(Bind(db, key, IdempotencyRow(payload, s, None)))
  }

  function Prepare(db: Db, versionId: Id,
                   sha256: string, request: Id, fingerprint: Sha, at: Instants): (result: Result<Done<Prepared>, Error>)
    ensures result.Ok? ==>
      result.value.db == db.(clock := at.commit, nextId := result.value.db.nextId, sessions := result.value.db.sessions,
        idempotency := result.value.db.idempotency)
    ensures result.Ok? ==> result.value.value.blobId in db.blobs
  {
    var known := versionId in db.versions;
    :- Require(known, NotFound);
    var found := ReferencedBlob(db, EntriesOf(db, versionId), sha256);
    :- Require(found.Some?, NotFound);
    var b, key, payload := found.value, Key(PrepareScope, request), PrepareRequest(fingerprint);
    if db.blobs[b].state == BlobAvailable then Ok(Finish(db, at, Prepared(b, None)))
    else if key in db.idempotency then
      :- Require(db.idempotency[key].request == payload && db.idempotency[key].resourceId in db.sessions, IdempotencyConflict);
      :- Require(IsSingle(db, db.idempotency[key].resourceId), IllegalTransition);
      Ok(Finish(db, at, Prepared(b, Some(db.idempotency[key].resourceId))))
    else PrepareNew(db, versionId, b, key, payload, at)
  }

  /** The answer is a single-PUT session of the Blob, and the request is bound to it. */
  predicate Answers(done: Done<Prepared>, b: Id, key: Key, payload: Request) {
    && done.value.blobId == b && done.value.sessionId.Some?
    && IsSingle(done.db, done.value.sessionId.value) && done.db.sessions[done.value.sessionId.value].blobId == b
    && key in done.db.idempotency && done.db.idempotency[key] == IdempotencyRow(payload, done.value.sessionId.value, None)
  }

  /** Bind a new request to the Blob's started session, a new one, or the latest. */
  function PrepareNew(db: Db, versionId: Id,
                      b: Id, key: Key, payload: Request, at: Instants): (result: Result<Done<Prepared>, Error>)
    requires b in db.blobs && key !in db.idempotency
    ensures result.Ok? ==>
      result.value.db == db.(clock := at.commit, nextId := result.value.db.nextId, sessions := result.value.db.sessions,
        idempotency := result.value.db.idempotency)
    ensures result.Ok? ==> Answers(result.value, b, key, payload)
  {
    match StartedSession(db, b, db.nextId)
    case Some(s) => PrepareOld(db, b, s, key, payload, at)
    case None =>
      if db.blobs[b].state == BlobPending then PrepareFirst(db, versionId, b, key, payload, at)
      else
        var latest := LatestSession(db, b, db.nextId);
        :- Require(latest.Some?, ContentConflict);
        PrepareOld(db, b, latest.value, key, payload, at)
  }

  /** Bind the request to a session the Blob already has. */
  function PrepareOld(db: Db, b: Id, s: Id, key: Key, payload: Request, at: Instants): (result: Result<Done<Prepared>, Error>)
    requires key !in db.idempotency && s in db.sessions && db.sessions[s].blobId == b
    ensures result.Ok? ==> result.value.db == db.(clock := at.commit, idempotency := result.value.db.idempotency)
    ensures result.Ok? ==> Answers(result.value, b, key, payload)
  {
    var bound :- BindPrepared(db, key, payload, b, s);
    Ok(Finish(bound, at, Prepared(b, Some(s))))
  }

  /** Create the session of a PENDING Blob. */
  function PrepareFirst(db: Db, versionId: Id,
                        b: Id, key: Key, payload: Request, at: Instants): (result: Result<Done<Prepared>, Error>)
    requires key !in db.idempotency
    ensures result.Ok? ==>
      result.value.db == db.(clock := at.commit, nextId := result.value.db.nextId, sessions := result.value.db.sessions,
        idempotency := result.value.db.idempotency)
    ensures result.Ok? ==> Answers(result.value, b, key, payload)
  {
    var s := db.nextId;
    var created :- InsertSession(db.(nextId := s + 1), s, EmptySession(b, versionId, SinglePut, at.wall));
    var bound :- BindPrepared(created, key, payload, b, s);
    Commit(bound, b, at, Prepared(b, Some(s)))
  }

  /** The session, Blob and Version of one single-PUT attempt. */
  function CheckSingle(db: Db, s: Id): Check<Error> {
    if s !in db.sessions then Fail(NotFound)
    else if db.sessions[s].strategy != SinglePut then Fail(IllegalTransition)
    else if db.sessions[s].blobId !in db.blobs || db.sessions[s].versionId !in db.versions then Fail(ContentConflict)
    else Pass
  }

  function MarkInProgress(db: Db, s: Id, at: Instants): (result: Result<Done<()>, Error>)
    ensures result.Ok? ==>
      result.value.db == db.(clock := at.commit, sessions := result.value.db.sessions, blobs := result.value.db.blobs,
        versions := result.value.db.versions)
  {
    var checked := CheckSingle(db, s);
    :- checked;
    var row := db.sessions[s];
    var blob, version := db.blobs[row.blobId], db.versions[row.versionId];
    if row.state == InProgress then Ok(Finish(db, at, ()))
    else
      :- Require(row.state == Created, IllegalTransition);
      var uploading :- PutBlob(db, row.blobId, if blob.state == BlobPending then blob.(state := BlobUploading) else blob);
      var reopened :- PutVersion(uploading, row.versionId,
        if version.state in {Draft, VersionFailed} then version.(state := Uploading, failure := None) else version);
      var started :- PutSession(reopened, s, row.(state := InProgress, lastActivityAt := at.wall));
      :- RequireSealed(started, row.versionId);
      Commit(started, row.blobId, at, ())
  }

  function MarkVerified(db: Db, s: Id, etag: Option<string>, at: Instants): (result: Result<Done<()>, Error>)
    ensures result.Ok? ==>
      result.value.db == db.(clock := at.commit, sessions := result.value.db.sessions, blobs := result.value.db.blobs)
  {
    var checked := CheckSingle(db, s);
    :- checked;
    var row := db.sessions[s];
    var blob := db.blobs[row.blobId];
    if row.state == Completed then Ok(Finish(db, at, ()))
    else
      :- Require(row.state == InProgress, IllegalTransition);
      :- Require(blob.state == BlobUploading, IllegalTransition);
      var verifying :- PutBlob(db, row.blobId, blob.(state := BlobVerifying));
      var available :- PutBlob(verifying, row.blobId, blob.(state := BlobAvailable, verifiedAt := Some(at.wall)));
      var completed :- PutSession(available, s, row.(state := Completed, etag := etag, completedAt := Some(at.wall), lastActivityAt := at.wall));
      Commit(completed, row.blobId, at, ())
  }

  function MarkFailed(db: Db, s: Id, code: Failure, at: Instants): (result: Result<Done<()>, Error>)
    ensures result.Ok? ==>
      result.value.db == db.(clock := at.commit, sessions := result.value.db.sessions, blobs := result.value.db.blobs,
        versions := result.value.db.versions)
  {
    var checked := CheckSingle(db, s);
    :- checked;
    var row := db.sessions[s];
    var blob, version := db.blobs[row.blobId], db.versions[row.versionId];
    if row.state == Failed then Ok(Finish(db, at, ()))
    else
      :- Require(row.state == InProgress && blob.state == BlobUploading && version.state == Uploading, IllegalTransition);
      var verifying :- PutBlob(db, row.blobId, blob.(state := BlobVerifying));
      var checking :- PutVersion(verifying, row.versionId, version.(state := Verifying, verifyingAt := Some(at.wall)));
      var rejected :- PutBlob(checking, row.blobId, blob.(state := BlobFailed, failure := Some(code)));
      var closed :- PutVersion(rejected, row.versionId, version.(state := VersionFailed, verifyingAt := Some(at.wall), failure := Some(code)));
      var failed :- PutSession(closed, s, row.(state := Failed, failure := Some(code), completedAt := Some(at.wall), lastActivityAt := at.wall));
      :- RequireSealed(failed, row.versionId);
      Commit(failed, row.blobId, at, ())
  }

  function Restart(db: Db, versionId: Id,
                   blobId: Id, request: Id, fingerprint: Sha, at: Instants): (result: Result<Done<Id>, Error>)
    ensures result.Ok? ==>
      result.value.db == db.(clock := at.commit, nextId := result.value.db.nextId, sessions := result.value.db.sessions,
        blobs := result.value.db.blobs, versions := result.value.db.versions,
        idempotency := result.value.db.idempotency)
  {
    var known := versionId in db.versions && blobId in db.blobs;
    :- Require(known, NotFound);
    :- Require(References(db, versionId, blobId), NotFound);
    var key, payload := Key(PrepareScope, request), PrepareRequest(fingerprint);
    if key in db.idempotency then
      :- Require(db.idempotency[key].request == payload && db.idempotency[key].resourceId in db.sessions, IdempotencyConflict);
      :- Require(IsSingle(db, db.idempotency[key].resourceId), IllegalTransition);
      Ok(Finish(db, at, db.idempotency[key].resourceId))
    else RestartNew(db, versionId, blobId, key, payload, at)
  }

  /** Reopen a FAILED Version and Blob for a new attempt. */
  function RestartNew(db: Db, versionId: Id,
                      blobId: Id, key: Key, payload: Request, at: Instants): (result: Result<Done<Id>, Error>)
    requires versionId in db.versions && blobId in db.blobs && key !in db.idempotency
    ensures result.Ok? ==>
      result.value.db == db.(clock := at.commit, nextId := result.value.db.nextId, sessions := result.value.db.sessions,
        blobs := result.value.db.blobs, versions := result.value.db.versions,
        idempotency := result.value.db.idempotency)
  {
    var prior := LatestSession(db, blobId, db.nextId);
    :- Require(prior.Some? ==> IsSingle(db, prior.value), IllegalTransition);
    var version, blob := db.versions[versionId], db.blobs[blobId];
    :- Require(version.state == VersionFailed && blob.state == BlobFailed, IllegalTransition);
    var reopened :- PutVersion(db, versionId, version.(state := Uploading, failure := None));
    var uploading :- PutBlob(reopened, blobId, blob.(state := BlobUploading, failure := None));
    StartAgain(uploading, versionId, blobId, key, payload, at)
  }

  /** Insert the session of a new attempt and bind its request. */
  function StartAgain(db: Db, versionId: Id,
                      blobId: Id, key: Key, payload: Request, at: Instants): (result: Result<Done<Id>, Error>)
    requires key !in db.idempotency
    ensures result.Ok? ==>
      result.value.db == db.(clock := at.commit, nextId := result.value.db.nextId, sessions := result.value.db.sessions,
        idempotency := result.value.db.idempotency)
  {
    var s := db.nextId;
    var created :- InsertSession(db.(nextId := s + 1), s, EmptySession(blobId, versionId, SinglePut, at.wall));
    var bound := Bind(created, key, IdempotencyRow(payload, s, None));
    :- RequireSealed(bound, versionId);
    Commit(bound, blobId, at, s)
  }

  // -------------------------------------------------------------------- publish

  predicate AllAvailable(db: Db, entries: seq<EntryRow>) {
    forall i :: 0 <= i < |entries| ==> entries[i].blobId in db.blobs && db.blobs[entries[i].blobId].state == BlobAvailable
  }

  function Finalize(db: Db, v: Id, at: Instants): (result: Result<Done<VersionRow>, Error>)
    ensures result.Ok? ==> result.value.db == db.(clock := at.commit, versions := result.value.db.versions)
  {
    var known := v in db.versions;
    :- Require(known, NotFound);
    var version := db.versions[v];
    if version.state == Ready then Ok(Finish(db, at, version))
    else
      :- Require(version.state in {Draft, Uploading}, IllegalTransition);
      :- Require(ManifestTotals(version.manifest) == version.totals, ManifestMismatch);
      :- Require(AllAvailable(db, EntriesOf(db, v)), IllegalTransition);
      var verifying := version.(state := Verifying, verifyingAt := Some(at.wall));
      var checking :- PutVersion(db, v, verifying);
      var ready := verifying.(state := Ready, readyAt := Some(at.wall));
      var published :- PutVersion(checking, v, ready);
      :- RequireSealed(published, v);
      Ok(Finish(published, at, ready))
  }

  // --------------------------------------------------------------------- status

  function AvailableEntries(db: Db, entries: seq<EntryRow>): seq<EntryRow> {
    if |entries| == 0 then []
    else
      var before, entry := AvailableEntries(db, entries[..|entries| - 1]), entries[|entries| - 1];
      if entry.blobId in db.blobs && db.blobs[entry.blobId].state == BlobAvailable then before + [entry] else before
  }

  /** Ready files and bytes over all entries, then over distinct Blobs. */
  function Progress(db: Db, v: Id): Totals {
    Recount(db.blobs, AvailableEntries(db, EntriesOf(db, v)))
  }

  predicate WithinTotals(progress: Totals, totals: Totals) {
    && 0 <= progress.fileCount <= totals.fileCount
    && 0 <= progress.logicalBytes <= totals.logicalBytes
    && 0 <= progress.blobCount <= totals.blobCount
    && 0 <= progress.blobBytes <= totals.blobBytes
  }

  /** The failure of some Blob of the entries, if one has any; the first is taken. */
  function BlockingFailure(db: Db, entries: seq<EntryRow>): Option<Failure> {
    if |entries| == 0 then None
    else if entries[0].blobId in db.blobs && db.blobs[entries[0].blobId].failure.Some? then db.blobs[entries[0].blobId].failure
    else BlockingFailure(db, entries[1..])
  }

  datatype Status = Status(version: VersionRow, progress: Totals, blocking: Option<Failure>)

  function GetStatus(db: Db, v: Id): Result<Status, Error> {
    var known := v in db.versions;
    :- Require(known, NotFound);
    var progress := Progress(db, v);
    :- Require(WithinTotals(progress, db.versions[v].totals), ContentConflict);
    Ok(Status(db.versions[v], progress, BlockingFailure(db, EntriesOf(db, v))))
  }

  function GetDownloadEntry(db: Db, v: Id, ordinal: nat): Option<ManifestLine> {
    var entries := EntriesOf(db, v);
    if ordinal < |entries| && entries[ordinal].blobId in db.blobs then
      var blob := db.blobs[entries[ordinal].blobId];
      Some(ManifestLine(entries[ordinal].path, blob.size, blob.sha256))
    else None
  }
}
