/** What holds of the database after every transaction of every run. */
module Invariant {
  import opened Base
  import opened Digest
  import opened Guards
  import opened Multipart
  import opened PartRanges
  import opened Registry
  import opened Rows
  import PlanCodec

  // ------------------------------------------------------------------ one part

  /** Receipts are complete or absent, checksums are those of the frozen digest,
      and a VERIFIED part agrees with what the provider listed. */
  ghost predicate PartSound(part: PartRow) {
    && ValidRange(Range(part.number, part.offset, part.size))
    && IsDigest(part.sha256)
    && (part.responseEtag.Some? <==> part.responseChecksum.Some?)
    && (part.responseEtag.Some? <==> part.responseAt.Some?)
    && (part.responseEtag.Some? <==> part.uploadedAt.Some?)
    && (part.responseEtag.Some? ==> part.responseEtag.value != "" && part.responseChecksum == Some(ChecksumBase64(part.sha256)))
    && (part.listedChecksum.Some? ==> part.listedChecksum == Some(ChecksumBase64(part.sha256)))
    && (part.state != PartPending ==> part.responseEtag.Some?)
    && (part.state == PartVerified ==>
          && part.listedEtag == part.responseEtag
          && part.listedChecksum == part.responseChecksum
          && part.listedSize == Some(part.size)
          && part.listedAt.Some? && part.verifiedAt.Some?)
  }

  ghost predicate PartsSound(parts: seq<PartRow>) {
    forall i :: 0 <= i < |parts| ==> PartSound(parts[i])
  }

  function FrozenPlan(row: SessionRow, parts: seq<PartRow>, blobSize: int): PartPlan
    requires row.frozen.Some?
  {
    PartPlan(row.frozen.value.schema, blobSize, row.frozen.value.partSize, Definitions(parts))
  }

  /** The rows are the plan whose hash the session froze. */
  ghost predicate PlanFrozen(row: SessionRow, parts: seq<PartRow>, blobSize: int) {
    && row.frozen.Some?
    && PlanCodec.ValidPlan(FrozenPlan(row, parts, blobSize))
    && row.frozen.value.plannedCount == |parts|
    && row.frozen.value.planSha == PlanSha(FrozenPlan(row, parts, blobSize))
    && row.frozen.value.generation > 0
  }

  // --------------------------------------------------------------- one session

  ghost predicate StateSound(row: SessionRow, parts: seq<PartRow>, blob: BlobRow) {
    && row.state in {Created, Initiating, InProgress, Completing, Completed, Failed}
    && row.completionAttemptedAt.None?
    && (row.state in {Created, Initiating} ==> row.provider.None?)
    && (row.state in {InProgress, Completing, Completed} ==> row.provider.Some? && row.provider.value != "")
    && (row.state in {Created, Initiating, InProgress} ==> row.completionReason.None? && row.completionPhase.None?)
    && (row.state == Completing ==>
          row.completionRequestedAt.Some? && row.completionReason == Some(PartsReady) && row.completionPhase.Some?)
    && (row.state == Completed ==> row.completionPhase == Some(FinalVerification) && EvidenceMatches(row, blob))
    && (row.evidence.Some? ==> row.state == Completed && WellFormedEvidence(row.evidence.value))
    && (row.state == Failed ==> row.failure.Some?)
    && (row.state in {Completing, Completed} ==> AllVerified(parts))
  }

  ghost predicate BlobFollows(row: SessionRow, blob: BlobRow) {
    && (row.state in {Created, Initiating} ==> blob.state != BlobAvailable)
    && (row.state in {InProgress, Completing} ==> blob.state == BlobUploading)
    && (row.state == Completed ==> blob.state == BlobAvailable)
  }

  ghost predicate AdmissionSound(row: SessionRow, lease: AdmissionLease, clock: int, nextId: Id) {
    && AdmissionChecks(lease)
    && lease.renewedAt <= clock
    && lease.owner < nextId
    && (lease.expiresAt > clock ==> UploadOwned(row.state))
  }

  ghost predicate CompletionSound(row: SessionRow, lease: CompletionLease, clock: int) {
    && CompletionChecks(lease)
    && lease.renewedAt <= clock
    && (lease.expiresAt > clock ==> row.state == Completing)
  }

  ghost predicate MultipartSound(row: SessionRow, parts: seq<PartRow>, blob: BlobRow) {
    && PlanFrozen(row, parts, blob.size)
    && PartsSound(parts)
    && StateSound(row, parts, blob)
    && BlobFollows(row, blob)
  }

  ghost predicate SingleSound(row: SessionRow, blob: BlobRow) {
    && row.frozen.None? && row.provider.None? && row.evidence.None?
    && row.state in {Created, InProgress, Completed, Failed}
    && (row.state == Created ==> blob.state in {BlobPending, BlobUploading})
    && (row.state == InProgress ==> blob.state == BlobUploading)
    && (row.state == Completed ==> blob.state == BlobAvailable)
  }

  function AdmissionOf(db: Db, s: Id): Option<AdmissionLease> {
    if s in db.admission then Some(db.admission[s]) else None
  }

  function CompletionOf(db: Db, s: Id): Option<CompletionLease> {
    if s in db.completion then Some(db.completion[s]) else None
  }

  ghost predicate LeasesSound(row: SessionRow, admission: Option<AdmissionLease>, completion: Option<CompletionLease>,
                              clock: int, nextId: Id) {
    && (row.strategy == SinglePut ==> admission.None? && completion.None?)
    && (admission.Some? ==> AdmissionSound(row, admission.value, clock, nextId))
    && (completion.Some? ==> CompletionSound(row, completion.value, clock))
  }

  ghost predicate SessionSound(db: Db, s: Id)
    requires s in db.sessions
  {
    var row := db.sessions[s];
    && s < db.nextId
    && row.blobId in db.blobs && row.versionId in db.versions
    && (row.strategy == Multipart ==> s in db.parts && MultipartSound(row, db.parts[s], db.blobs[row.blobId]))
    && (row.strategy == SinglePut ==> s !in db.parts && SingleSound(row, db.blobs[row.blobId]))
    && LeasesSound(row, AdmissionOf(db, s), CompletionOf(db, s), db.clock, db.nextId)
  }

  // ------------------------------------------------------- sessions of one Blob

  predicate HasGeneration(row: SessionRow, blobId: Id, generation: int) {
    row.blobId == blobId && row.frozen.Some? && row.frozen.value.generation == generation
  }

  ghost predicate Compatible(left: SessionRow, right: SessionRow) {
    left.blobId == right.blobId ==>
      && !(Active(left.state) && Active(right.state))
      && (left.frozen.Some? && right.frozen.Some? ==>
            && left.frozen.value.generation != right.frozen.value.generation
            && (left.frozen.value.generation < right.frozen.value.generation ==> Terminal(left.state))
            && !(left.state == Completed && right.state == Completed))
  }

  ghost predicate GenerationExists(sessions: map<Id, SessionRow>, blobId: Id, generation: int) {
    exists r :: r in sessions && HasGeneration(sessions[r], blobId, generation)
  }

  /** Every smaller generation of the same Blob exists. */
  ghost predicate GenerationsDense(sessions: map<Id, SessionRow>, s: Id)
    requires s in sessions
  {
    sessions[s].frozen.Some? ==>
      forall g :: 1 <= g < sessions[s].frozen.value.generation ==> GenerationExists(sessions, sessions[s].blobId, g)
  }

  // --------------------------------------------------------- Blobs and Versions

  ghost predicate BlobSound(db: Db, b: Id)
    requires b in db.blobs
  {
    && b < db.nextId
    && IsDigest(db.blobs[b].sha256) && db.blobs[b].size >= 0
    && db.blobs[b].state != BlobVerifying
    && (db.blobs[b].state == BlobAvailable && HasMultipart(db, b) ==> HasCompleted(db, b))
  }

  /** The entry rows repeat the manifest lines, through the Blobs. */
  ghost predicate EntriesMatch(blobs: map<Id, BlobRow>, entries: seq<EntryRow>, lines: seq<ManifestLine>) {
    && |entries| == |lines|
    && forall i :: 0 <= i < |lines| ==> EntryMatches(blobs, entries[i], lines[i])
  }

  ghost predicate EntryMatches(blobs: map<Id, BlobRow>, entry: EntryRow, line: ManifestLine) {
    && entry.path == line.path && entry.blobId in blobs
    && blobs[entry.blobId].sha256 == line.sha256 && blobs[entry.blobId].size == line.size
  }

  ghost predicate VersionSound(db: Db, v: Id)
    requires v in db.versions
  {
    var version := db.versions[v];
    && v < db.nextId
    && version.datasetId in db.datasets
    && version.number > 0
    && v in db.entries
    && version.sealedAt.Some?
    && SoundLines(version.manifest)
    && EntriesMatch(db.blobs, db.entries[v], version.manifest)
    && version.totals == ManifestTotals(version.manifest)
    && version.totals == Recount(db.blobs, db.entries[v])
    && version.state != Verifying
    && (version.state == Ready ==> AllAvailable(db, db.entries[v]))
  }

  ghost predicate VersionsDiffer(left: VersionRow, right: VersionRow) {
    left.datasetId == right.datasetId ==> left.number != right.number && left.manifest != right.manifest
  }

  ghost predicate NumberExists(versions: map<Id, VersionRow>, datasetId: Id, number: int) {
    exists w :: w in versions && versions[w].datasetId == datasetId && versions[w].number == number
  }

  ghost predicate NumbersDense(versions: map<Id, VersionRow>, v: Id)
    requires v in versions
  {
    forall n :: 1 <= n < versions[v].number ==> NumberExists(versions, versions[v].datasetId, n)
  }

  // ---------------------------------------------------------------- idempotency

  ghost predicate BindingSound(db: Db, key: Key, row: IdempotencyRow) {
    match key.scope
    case ResolveScope =>
      && row.request.ResolveRequest?
      && IsMultipart(db, row.resourceId)
      && db.sessions[row.resourceId].blobId == row.request.blobId
      && db.sessions[row.resourceId].frozen.Some?
      && db.sessions[row.resourceId].frozen.value.planSha == row.request.planSha
    case AcquireScope =>
      && row.lease.Some?
      && row.lease.value.sessionId == row.resourceId
      && row.request == AcquireRequest(row.resourceId, row.lease.value.invocation)
      && row.resourceId in db.admission
      && row.lease.value.epoch <= db.admission[row.resourceId].epoch
      && (row.lease.value.epoch == db.admission[row.resourceId].epoch ==> row.lease.value.owner == db.admission[row.resourceId].owner)
    case AcceptScope =>
      row.request == AcceptRequest(row.resourceId) && IsMultipart(db, row.resourceId)
    case RegisterScope =>
      row.request.RegisterRequest? && row.resourceId in db.versions
    case PrepareScope =>
      row.request.PrepareRequest? && IsSingle(db, row.resourceId)
  }

  // ------------------------------------------------------------- the invariant

  ghost predicate SessionsOk(db: Db) {
    && (forall s :: s in db.sessions ==> SessionSound(db, s))
    && (forall s :: s in db.parts ==> s in db.sessions)
    && (forall s :: s in db.admission ==> s in db.sessions)
    && (forall s :: s in db.completion ==> s in db.sessions)
  }

  ghost predicate PairsOk(sessions: map<Id, SessionRow>) {
    forall s, r :: s in sessions && r in sessions && s != r ==> Compatible(sessions[s], sessions[r])
  }

  ghost predicate GenerationsOk(sessions: map<Id, SessionRow>) {
    forall s :: s in sessions ==> GenerationsDense(sessions, s)
  }

  ghost predicate BlobsOk(db: Db) {
    && (forall b :: b in db.blobs ==> BlobSound(db, b))
    && (forall b, c :: b in db.blobs && c in db.blobs && b != c ==> db.blobs[b].sha256 != db.blobs[c].sha256)
  }

  ghost predicate VersionsOk(db: Db) {
    && (forall v :: v in db.versions ==> VersionSound(db, v))
    && (forall v, w :: v in db.versions && w in db.versions && v != w ==> VersionsDiffer(db.versions[v], db.versions[w]))
    && (forall v :: v in db.versions ==> NumbersDense(db.versions, v))
  }

  ghost predicate BindingsOk(db: Db) {
    forall key :: key in db.idempotency ==> BindingSound(db, key, db.idempotency[key])
  }

  ghost predicate Inv(db: Db) {
    && SessionsOk(db)
    && PairsOk(db.sessions)
    && GenerationsOk(db.sessions)
    && BlobsOk(db)
    && VersionsOk(db)
    && BindingsOk(db)
  }

  /** A database with Datasets only. */
  ghost predicate Fresh(db: Db) {
    && db.sessions == map[] && db.parts == map[] && db.admission == map[] && db.completion == map[]
    && db.blobs == map[] && db.versions == map[] && db.entries == map[] && db.idempotency == map[]
  }

  lemma FreshSatisfiesInv(db: Db)
    requires Fresh(db)
    ensures Inv(db)
  {
  }
}
