/** The PL/pgSQL triggers, check constraints, unique indexes and deferred
    publication check, as predicates over old rows, new rows and the tables. */
module Guards {
  import opened Base
  import opened Digest
  import opened PartRanges
  import opened Rows
  import opened SqlPlan
  import opened TextOrder
  import PlanCodec

  /** SQL `value <> x`: a NULL value is no difference. */
  predicate Differs<T(==)>(value: Option<T>, x: T) {
    value.Some? && value.value != x
  }

  // ----------------------------------------------------------------- sessions

  /** Check constraints of one session row. */
  predicate SessionChecks(row: SessionRow) {
    && (row.strategy == SinglePut ==>
          row.frozen.None? && row.provider.None?)
    && (row.strategy == Multipart ==>
          row.frozen.Some? ==>
          && row.frozen.value.generation > 0
          && BASE_PART_BYTES <= row.frozen.value.partSize <= MAX_PART_BYTES
          && 1 <= row.frozen.value.plannedCount <= MAX_PARTS
          && row.frozen.value.schema == PART_PLAN_SCHEMA_VERSION)
    && (row.strategy == Multipart ==>
          || (row.state in {Created, Initiating, Cancelled} && row.provider.None?)
          || (row.state in {InProgress, Completing, Completed, Aborting, Aborted} && row.provider.Some? && row.provider.value != "")
          || row.state == Failed)
    && (row.evidence.Some? ==>
          && IsDigest(row.evidence.value.sha256)
          && row.evidence.value.size >= 0
          && row.evidence.value.readBytes >= 0
          && row.evidence.value.verifier != "")
  }

  /** The frozen rows match the protocol plan and the stored hash. */
  predicate PlanSealed(row: SessionRow, parts: seq<PartRow>, blobSize: int)
    requires row.frozen.Some?
  {
    var frozen := row.frozen.value;
    && SqlAccepts(blobSize, frozen.partSize, frozen.plannedCount, RowRanges(parts))
    && |parts| > 0
    && frozen.planSha == Sha(PlanCodec.SqlCanonicalText(
         PartPlan(frozen.schema, blobSize, frozen.partSize, Definitions(parts))))
  }

  predicate SessionEdge(was: SessionState, next: SessionState) {
    || (was == Created && next in {Initiating, Cancelled, Failed})
    || (was == Initiating && next in {InProgress, Failed})
    || (was == InProgress && next in {Completing, Aborting, Failed})
    || (was == Completing && next in {InProgress, Completed, Failed})
    || (was == Aborting && next in {Aborted, Completing, Failed})
  }

  predicate SingleEdge(was: SessionState, next: SessionState) {
    || (was == Created && next == InProgress)
    || (was == InProgress && next in {Completed, Failed})
  }

  predicate PhaseEdge(was: SessionRow, next: SessionRow) {
    || (was.completionPhase == Some(Pending) && next.completionPhase == Some(Assembling))
    || (was.completionPhase == Some(Pending) && next.completionPhase == Some(FinalPresent)
        && next.completionReason == Some(FinalPresentReason))
    || (was.completionPhase == Some(Assembling) && next.completionPhase == Some(FinalPresent))
    || (was.completionPhase == Some(Assembling) && next.completionPhase == Some(Pending)
        && next.completionAttemptedAt.Some? && next.lastResult in {None, Some(Ambiguous), Some(EmbeddedError)})
    || (was.completionPhase == Some(FinalPresent) && next.completionPhase == Some(FinalVerification))
    || (was.completionPhase == Some(FinalVerification) && next.completionPhase == Some(FinalPresent))
  }

  predicate FrozenUnchanged(was: SessionRow, next: SessionRow) {
    next.frozen == was.frozen && (was.provider.Some? ==> next.provider == was.provider)
  }

  /** Conditions on entering or staying in COMPLETING. */
  predicate CompletingAllowed(was: SessionRow, next: SessionRow, parts: seq<PartRow>) {
    && (was.state == Completing ==>
          && next.completionReason == was.completionReason
          && (next.completionPhase != was.completionPhase ==> PhaseEdge(was, next)))
    && next.completionRequestedAt.Some? && next.completionReason.Some? && next.completionPhase.Some?
    && (was.state != Completing ==> next.completionPhase == Some(Pending))
    && (next.completionReason == Some(PartsReady) ==> AllVerified(parts))
  }

  predicate RecoveryAllowed(was: SessionRow, next: SessionRow, parts: seq<PartRow>) {
    && next.finalAbsenceAt.Some? && next.reconciledAt.Some?
    && next.lastResult in {None, Some(Ambiguous), Some(EmbeddedError)}
    && (was.completionReason == Some(PartsReady) ==> !AllVerified(parts))
  }

  predicate CompletionProven(was: SessionRow, next: SessionRow, blob: BlobRow) {
    && !Differs(was.completionPhase, FinalVerification)
    && !Differs(next.completionPhase, FinalVerification)
    && blob.state == BlobAvailable
    && EvidenceMatches(next, blob)
  }

  predicate EvidenceMatches(row: SessionRow, blob: BlobRow) {
    && row.evidence.Some?
    && row.evidence.value.sha256 == blob.sha256
    && row.evidence.value.size == blob.size
    && row.evidence.value.readBytes == blob.size
  }

  predicate MultipartUpdateAllowed(was: SessionRow, next: SessionRow, parts: seq<PartRow>, blob: BlobRow)
  {
    && FrozenUnchanged(was, next)
    && (Terminal(was.state) ==> next == was)
    && (next.state != was.state ==> SessionEdge(was.state, next.state))
    && (was.state == Created && next.state == Initiating ==>
          was.frozen.Some? && PlanSealed(next, parts, blob.size) && next.initiationStartedAt.Some?)
    && (was.state == Initiating && next.state == Failed ==>
          next.failure == Some(InitiationAmbiguous) && next.initiationAmbiguousAt.Some? && next.provider.None?)
    && (next.state == Failed ==> next.failure.Some?)
    && (next.state == Completing ==> CompletingAllowed(was, next, parts))
    && (was.state == Completing && next.state == InProgress ==> RecoveryAllowed(was, next, parts))
    && (was.state == Completing && next.state == Failed && next.failure == Some(ProviderAttemptInvalidated) ==>
          next.invalidatedAt.Some? && next.lastResult in {None, Some(Conflict409), Some(NoSuchUpload)})
    && (next.state == Aborting ==> next.abortRequestedAt.Some?)
    && (next.state == Completed ==> CompletionProven(was, next, blob))
  }

  predicate SingleUpdateAllowed(was: SessionRow, next: SessionRow) {
    && (was.state in {Completed, Failed} ==> next == was)
    && (next.state != was.state ==> SingleEdge(was.state, next.state))
  }

  /** The row guard on an updated session, together with its check constraints. */
  predicate SessionUpdateAllowed(was: SessionRow, next: SessionRow, parts: seq<PartRow>, blob: BlobRow) {
    && SessionChecks(next)
    && next.blobId == was.blobId && next.versionId == was.versionId && next.strategy == was.strategy
    && (was.strategy == SinglePut ==> SingleUpdateAllowed(was, next))
    && (was.strategy == Multipart ==> MultipartUpdateAllowed(was, next, parts, blob))
  }

  // -------------------------------------------------------------------- parts

  /** `^[A-Za-z0-9+/]{43}=$` */
  predicate ChecksumShape(text: string) {
    && |text| == 44
    && text[43] == '='
    && forall i :: 0 <= i < 43 ==> 'A' <= text[i] <= 'Z' || 'a' <= text[i] <= 'z' || '0' <= text[i] <= '9' || text[i] == '+' || text[i] == '/'
  }

  predicate PartChecks(row: PartRow) {
    && 1 <= row.number <= MAX_PARTS && row.offset >= 0 && row.size > 0
    && IsDigest(row.sha256)
    && (row.state != PartPending ==>
          && row.responseEtag.Some? && row.responseEtag.value != ""
          && (row.responseChecksum.Some? ==> ChecksumShape(row.responseChecksum.value))
          && row.responseAt.Some? && row.uploadedAt.Some?)
    && (row.state == PartVerified ==>
          && (row.listedEtag.Some? && row.responseEtag.Some? ==> row.listedEtag == row.responseEtag)
          && (row.listedChecksum.Some? && row.responseChecksum.Some? ==> row.listedChecksum == row.responseChecksum)
          && !Differs(row.listedSize, row.size) && row.listedAt.Some? && row.verifiedAt.Some?)
  }

  /** Stored checksums equal the one the frozen digest encodes to. */
  predicate ChecksumsMatchPlan(row: PartRow) {
    && (row.responseChecksum.Some? ==> row.responseChecksum.value == ChecksumBase64(row.sha256))
    && (row.listedChecksum.Some? ==> row.listedChecksum.value == ChecksumBase64(row.sha256))
  }

  predicate PartEdge(was: PartState, next: PartState) {
    || (was == PartPending && next == PartUploaded)
    || (was == PartUploaded && next in {PartVerified, PartPending})
    || (was == PartVerified && next == PartPending)
  }

  predicate PartUpdateAllowed(parent: SessionRow, was: PartRow, next: PartRow) {
    && PartChecks(next)
    && parent.strategy == Multipart
    && next.number == was.number && next.offset == was.offset && next.size == was.size && next.sha256 == was.sha256
    && (Terminal(parent.state) ==> next == was)
    && (next.state != was.state ==> PartEdge(was.state, next.state))
    && ChecksumsMatchPlan(next)
    && (was.state != PartPending && next.state != PartPending ==>
          next.responseEtag == was.responseEtag && next.responseChecksum == was.responseChecksum && next.responseAt == was.responseAt)
    && (was.state != PartPending && next.state == PartPending ==> parent.reconciledAt.Some?)
  }

  predicate PartInsertAllowed(parent: SessionRow, next: PartRow) {
    && PartChecks(next)
    && parent.strategy == Multipart
    && parent.state == Created
    && parent.frozen.Some? && next.number <= parent.frozen.value.plannedCount
    && ChecksumsMatchPlan(next)
  }

  /** A flush writes the part rows that changed and is refused as soon as one is. */
  predicate PartsUpdateAllowed(parent: SessionRow, was: seq<PartRow>, next: seq<PartRow>) {
    |next| == |was| && forall i :: 0 <= i < |was| ==> next[i] == was[i] || PartUpdateAllowed(parent, was[i], next[i])
  }

  // ------------------------------------------------------------------- leases

  predicate AdmissionChecks(row: AdmissionLease) {
    row.epoch > 0 && row.acquiredAt <= row.renewedAt <= row.expiresAt
  }

  predicate AdmissionUpdateAllowed(was: AdmissionLease, next: AdmissionLease, clock: int) {
    && AdmissionChecks(next)
    && next.epoch >= was.epoch && next.renewedAt >= was.renewedAt
    && (if next.owner != was.owner || next.invocation != was.invocation then
          was.expiresAt <= clock && next.epoch == was.epoch + 1 && next.acquiredAt > was.acquiredAt
        else
          next.epoch == was.epoch && next.acquiredAt == was.acquiredAt)
  }

  predicate CompletionChecks(row: CompletionLease) {
    row.epoch > 0 && row.acquiredAt <= row.renewedAt <= row.expiresAt
  }

  predicate CompletionUpdateAllowed(was: CompletionLease, next: CompletionLease, clock: int) {
    && CompletionChecks(next)
    && next.epoch >= was.epoch && next.renewedAt >= was.renewedAt
    && (if next.epoch == was.epoch then
          next.owner == was.owner && next.acquiredAt == was.acquiredAt && was.expiresAt > clock
        else
          next.epoch == was.epoch + 1 && was.expiresAt <= clock && next.acquiredAt > was.acquiredAt)
  }

  // ------------------------------------------------------- blobs and versions

  /** Check constraints of one Blob row; its object key is a function of the digest. */
  predicate BlobChecks(row: BlobRow) {
    IsDigest(row.sha256) && row.size >= 0
  }

  /** Check constraint of one entry row. */
  predicate EntryChecks(row: EntryRow) {
    row.path != "" && Utf8Length(row.path) <= 1_024
  }

  /** Check constraints of one Version row. */
  predicate VersionChecks(row: VersionRow) {
    && row.number > 0
    && row.totals.fileCount >= 0 && row.totals.logicalBytes >= 0 && row.totals.blobCount >= 0 && row.totals.blobBytes >= 0
  }

  predicate BlobEdge(was: BlobState, next: BlobState) {
    || (was == BlobPending && next == BlobUploading)
    || (was == BlobUploading && next == BlobVerifying)
    || (was == BlobVerifying && next in {BlobAvailable, BlobFailed})
    || (was == BlobFailed && next == BlobUploading)
  }

  predicate BlobUpdateAllowed(was: BlobRow, next: BlobRow) {
    && next.sha256 == was.sha256 && next.size == was.size
    && (was.state == BlobAvailable ==> next == was)
    && (next.state != was.state ==> BlobEdge(was.state, next.state))
  }

  predicate VersionEdge(was: VersionState, next: VersionState) {
    || (was == Draft && next in {Uploading, Verifying})
    || (was == Uploading && next == Verifying)
    || (was == Verifying && next in {Ready, VersionFailed})
    || (was == VersionFailed && next == Uploading)
  }

  function LogicalBytes(blobs: map<Id, BlobRow>, entries: seq<EntryRow>): int {
    if |entries| == 0 then 0
    else
      LogicalBytes(blobs, entries[..|entries| - 1]) +
      var b := entries[|entries| - 1].blobId;
      if b in blobs then blobs[b].size else 0
  }

  /** Entries whose Blob no earlier entry uses. */
  function DistinctBlobs(entries: seq<EntryRow>): seq<Id> {
    if |entries| == 0 then []
    else
      var before, b := DistinctBlobs(entries[..|entries| - 1]), entries[|entries| - 1].blobId;
      if b in before then before else before + [b]
  }

  function SumBlobSizes(blobs: map<Id, BlobRow>, ids: seq<Id>): int {
    if |ids| == 0 then 0
    else
      SumBlobSizes(blobs, ids[..|ids| - 1]) +
      var b := ids[|ids| - 1];
      if b in blobs then blobs[b].size else 0
  }

  /** What sealing recounts from the entry rows. */
  function Recount(blobs: map<Id, BlobRow>, entries: seq<EntryRow>): Totals {
    Totals(|entries|, LogicalBytes(blobs, entries), |DistinctBlobs(entries)|, SumBlobSizes(blobs, DistinctBlobs(entries)))
  }

  predicate VersionContentUnchanged(was: VersionRow, next: VersionRow) {
    && next.datasetId == was.datasetId && next.number == was.number && next.manifest == was.manifest
    && next.totals == was.totals && next.sealedAt == was.sealedAt
  }

  predicate VersionUpdateAllowed(was: VersionRow, next: VersionRow, recount: Totals) {
    && (was.state == Ready ==> next == was)
    && (was.sealedAt.Some? ==> VersionContentUnchanged(was, next))
    && (was.sealedAt.None? && next.sealedAt.Some? ==> next.totals == recount)
    && (next.state != was.state ==> VersionEdge(was.state, next.state))
  }

  // ---------------------------------------------------- indexes and commit time

  /** The unique index on digests. */
  predicate DigestFree(db: Db, sha256: string) {
    forall b :: b in db.blobs ==> db.blobs[b].sha256 != sha256
  }

  /** The unique indexes on the numbers and the manifests of a Dataset. */
  predicate VersionSlotFree(db: Db, row: VersionRow) {
    forall v :: v in db.versions ==>
      !(db.versions[v].datasetId == row.datasetId && (db.versions[v].number == row.number || db.versions[v].manifest == row.manifest))
  }

  /** The unique index on unfinished sessions of one Blob. */
  predicate ActiveSlotFree(db: Db, blobId: Id) {
    forall s :: s in db.sessions ==> !(db.sessions[s].blobId == blobId && Active(db.sessions[s].state))
  }

  predicate GenerationFree(db: Db, blobId: Id, generation: int) {
    forall s :: s in db.sessions ==>
      !(db.sessions[s].blobId == blobId && db.sessions[s].frozen.Some? && db.sessions[s].frozen.value.generation == generation)
  }

  predicate HasMultipart(db: Db, blobId: Id) {
    exists s :: s in db.sessions && db.sessions[s].blobId == blobId && db.sessions[s].strategy == Multipart
  }

  predicate IsCompletedFor(db: Db, s: Id, blobId: Id) {
    s in db.sessions && db.sessions[s].blobId == blobId && db.sessions[s].strategy == Multipart && db.sessions[s].state == Completed
  }

  predicate HasCompleted(db: Db, blobId: Id) {
    exists s :: s in db.sessions && IsCompletedFor(db, s, blobId)
  }

  predicate HasValidCompletion(db: Db, blobId: Id)
    requires blobId in db.blobs
  {
    exists s :: s in db.sessions && IsCompletedFor(db, s, blobId)
      && db.sessions[s].completionPhase == Some(FinalVerification)
      && EvidenceMatches(db.sessions[s], db.blobs[blobId])
      && db.sessions[s].evidence.value.verifier != ""
  }

  predicate HasNonterminal(db: Db, blobId: Id) {
    exists s :: s in db.sessions && db.sessions[s].blobId == blobId && db.sessions[s].strategy == Multipart && Active(db.sessions[s].state)
  }

  predicate RetainsOwnership(db: Db, s: Id, blobId: Id, clock: int)
    requires s in db.sessions
  {
    && db.sessions[s].blobId == blobId && db.sessions[s].strategy == Multipart
    && db.sessions[s].state == Failed && db.sessions[s].failure == Some(ProviderAttemptInvalidated)
    && s in db.completion && db.completion[s].expiresAt > clock
  }

  /** The deferred check run for a Blob whose row or sessions changed. */
  predicate PublicationConsistent(db: Db, blobId: Id, clock: int) {
    blobId in db.blobs && HasMultipart(db, blobId) ==>
      var state := db.blobs[blobId].state;
      && state != BlobVerifying
      && (state == BlobAvailable ==> HasValidCompletion(db, blobId) && !HasNonterminal(db, blobId))
      && (HasCompleted(db, blobId) ==> state == BlobAvailable)
      && (forall s :: s in db.sessions ==> !RetainsOwnership(db, s, blobId, clock))
  }
}
