/** The registry tables of one PostgreSQL database, as values. */
module Rows {
  import opened Base
  import opened PartRanges

  /** A row identifier (UUID). Fresh ones are drawn from a counter. */
  type Id = nat

  /** The hash of a canonical text, identified with the text it hashes. */
  datatype Sha = Sha(text: string)

  datatype Error =
    | NotFound
    | ContentConflict
    | IdempotencyConflict
    | IllegalTransition
    | ManifestMismatch
    | LeaseHeld
    | CapacityExhausted
    | LeaseLost
    | InvalidPartNumber
    | ChecksumRejected
    | TriggerRejected       // a row guard or check constraint refused a flush
    | IndexViolated         // a unique index refused a flush
    | CommitRejected        // a deferred constraint refused the commit

  // ------------------------------------------------------------------ sessions

  datatype Strategy = SinglePut | Multipart

  datatype SessionState = Created | Initiating | InProgress | Completing | Completed | Aborting | Aborted | Cancelled | Failed

  datatype Phase = Pending | Assembling | FinalPresent | FinalVerification

  datatype Reason = PartsReady | FinalPresentReason

  datatype CompletionResult = Ambiguous | EmbeddedError | Conflict409 | NoSuchUpload

  datatype Failure = InitiationAmbiguous | ProviderAttemptInvalidated | StoredObjectMismatch

  /** The frozen plan columns; a check constraint sets all or none of them. */
  datatype Frozen = Frozen(generation: int, partSize: int, plannedCount: int, schema: int, planSha: Sha)

  /** The verification columns; a check constraint sets all or none of them. */
  datatype Evidence = Evidence(sha256: string, size: int, readBytes: int, completedAt: int, verifier: string)

  datatype SessionRow = SessionRow(
    blobId: Id,
    versionId: Id,
    strategy: Strategy,
    state: SessionState,
    frozen: Option<Frozen>,
    provider: Option<string>,
    initiationStartedAt: Option<int>,
    initiationAmbiguousAt: Option<int>,
    completionRequestedAt: Option<int>,
    completionReason: Option<Reason>,
    completionPhase: Option<Phase>,
    completionAttemptedAt: Option<int>,
    lastResult: Option<CompletionResult>,
    reconciledAt: Option<int>,
    finalAbsenceAt: Option<int>,
    invalidatedAt: Option<int>,
    evidence: Option<Evidence>,
    abortRequestedAt: Option<int>,
    failure: Option<Failure>,
    etag: Option<string>,
    createdAt: int,
    lastActivityAt: int,
    completedAt: Option<int>)

  datatype PartState = PartPending | PartUploaded | PartVerified

  datatype PartRow = PartRow(
    number: int,
    offset: int,
    size: int,
    sha256: string,
    state: PartState,
    responseEtag: Option<string>,
    responseChecksum: Option<string>,
    responseAt: Option<int>,
    uploadedAt: Option<int>,
    listedEtag: Option<string>,
    listedChecksum: Option<string>,
    listedSize: Option<int>,
    listedAt: Option<int>,
    verifiedAt: Option<int>,
    lastError: Option<string>)

  datatype AdmissionLease = AdmissionLease(invocation: Id, owner: Id, epoch: int, acquiredAt: int, renewedAt: int, expiresAt: int)

  datatype CompletionLease = CompletionLease(owner: Id, epoch: int, acquiredAt: int, renewedAt: int, expiresAt: int)

  datatype BlobState = BlobPending | BlobUploading | BlobVerifying | BlobAvailable | BlobFailed

  datatype BlobRow = BlobRow(sha256: string, size: int, state: BlobState, failure: Option<Failure>, verifiedAt: Option<int>)

  datatype VersionState = Draft | Uploading | Verifying | Ready | VersionFailed

  /** One entry of a sealed Version, in manifest order. */
  datatype EntryRow = EntryRow(path: string, blobId: Id)

  datatype Totals = Totals(fileCount: int, logicalBytes: int, blobCount: int, blobBytes: int)

  datatype VersionRow = VersionRow(
    datasetId: Id,
    number: int,
    manifest: seq<ManifestLine>,
    state: VersionState,
    totals: Totals,
    failure: Option<Failure>,
    sealedAt: Option<int>,
    verifyingAt: Option<int>,
    readyAt: Option<int>)

  /** One line of a canonical manifest. */
  datatype ManifestLine = ManifestLine(path: string, size: int, sha256: string)

  // --------------------------------------------------------------- idempotency

  /** The semantic payload a request hash is taken over. */
  datatype Request =
    | ResolveRequest(versionId: Id, blobId: Id, planSha: Sha)
    | AcquireRequest(sessionId: Id, invocation: Id)
    | AcceptRequest(sessionId: Id)
    | RegisterRequest(fingerprint: Sha)
    | PrepareRequest(fingerprint: Sha)

  datatype Scope = ResolveScope | AcquireScope | AcceptScope | RegisterScope | PrepareScope

  datatype Key = Key(scope: Scope, request: Id)

  datatype AdmissionRecord = AdmissionRecord(sessionId: Id, invocation: Id, owner: Id, epoch: int, expiresAt: int, renewedAt: int)

  /** `lease` is the stored response body of an admission record. */
  datatype IdempotencyRow = IdempotencyRow(request: Request, resourceId: Id, lease: Option<AdmissionRecord>)

  // ------------------------------------------------------------------ database

  datatype Db = Db(
    clock: int,
    nextId: Id,
    datasets: set<Id>,
    sessions: map<Id, SessionRow>,
    parts: map<Id, seq<PartRow>>,
    admission: map<Id, AdmissionLease>,
    completion: map<Id, CompletionLease>,
    blobs: map<Id, BlobRow>,
    versions: map<Id, VersionRow>,
    entries: map<Id, seq<EntryRow>>,
    idempotency: map<Key, IdempotencyRow>)

  /** The instants one transaction reads from the server clock: the value its
      own checks compare with, a later one that triggers read while rows are
      flushed, and the one at commit. `wall` is the application's own clock, of
      which nothing is known: it may stand still or run backwards. */
  datatype Instants = Instants(now: int, flush: int, commit: int, wall: int)

  predicate ValidInstants(db: Db, at: Instants) {
    db.clock < at.now <= at.flush <= at.commit
  }

  predicate Active(state: SessionState) {
    state == Created || state == Initiating || state == InProgress || state == Completing || state == Aborting
  }

  predicate Terminal(state: SessionState) {
    state == Completed || state == Aborted || state == Cancelled || state == Failed
  }

  function PartsOf(db: Db, s: Id): seq<PartRow> {
    if s in db.parts then db.parts[s] else []
  }

  predicate AllVerified(parts: seq<PartRow>) {
    forall i :: 0 <= i < |parts| ==> parts[i].state == PartVerified
  }

  function RowRanges(parts: seq<PartRow>): (ranges: seq<Range>)
    ensures |ranges| == |parts|
  {
    seq(|parts|, i requires 0 <= i < |parts| => Range(parts[i].number, parts[i].offset, parts[i].size))
  }

  function Definitions(parts: seq<PartRow>): (definitions: seq<PartDefinition>)
    ensures |definitions| == |parts|
  {
    seq(|parts|, i requires 0 <= i < |parts| =>
      PartDefinition(Range(parts[i].number, parts[i].offset, parts[i].size), parts[i].sha256))
  }
}
