/** The multipart transactions of the store, each as one function from the
    database it begins with to the one it commits, or to the error it raises. */
module Multipart {
  import opened Base
  import opened Digest
  import opened Flush
  import opened PartRanges
  import opened Rows
  import PlanCodec

  // --------------------------------------------------------- argument records

  datatype Receipt = Receipt(number: int, etag: string, checksum: string)

  datatype Observation = Observation(number: int, size: int, etag: string, checksum: string)

  datatype RecoveryReason = RecoverReady | RecoverPartial | RecoverConflict409 | RecoverSessionNotFound

  datatype RecoveryAction = RetryCompletion | ResumePartUpload | StartNewGeneration

  datatype RecoveryEvidence = RecoveryEvidence(
    reason: RecoveryReason,
    finalAbsenceAt: int,
    reconciledAt: int,
    observations: seq<Observation>,
    result: Option<CompletionResult>)

  datatype Claim = Claim(sessionId: Id, lease: CompletionLease, phase: Phase)

  datatype Context = Context(
    sessionId: Id,
    session: SessionRow,
    plan: PartPlan,
    blob: BlobRow,
    parts: seq<PartRow>)

  datatype Reconciliation = Reconciliation(count: int, bytes: int)

  datatype Recovered = Recovered(action: RecoveryAction, context: Context)

  /** Constructor checks of an UploadPart receipt. */
  function CheckReceipt(receipt: Receipt): Check<Error> {
    if !(1 <= receipt.number <= MAX_PARTS) || receipt.etag == "" then Fail(ContentConflict)
    else if ChecksumToDigest(receipt.checksum).None? then Fail(ChecksumRejected)
    else Pass
  }

  function CheckObservation(observation: Observation): Check<Error> {
    if observation.number <= 0 || observation.size <= 0 || observation.etag == "" then Fail(ContentConflict)
    else if ChecksumToDigest(observation.checksum).None? then Fail(ChecksumRejected)
    else Pass
  }

  function CheckObservations(observations: seq<Observation>): Check<Error> {
    if |observations| == 0 then Pass
    else
      var earlier := CheckObservations(observations[..|observations| - 1]);
      if earlier.Fail? then earlier else CheckObservation(observations[|observations| - 1])
  }

  predicate DistinctObservations(observations: seq<Observation>) {
    forall i, j :: 0 <= i < j < |observations| ==> observations[i].number != observations[j].number
  }

  /** The dictionary entry of a part number. */
  function ObservationFor(observations: seq<Observation>, number: int): Option<Observation> {
    if |observations| == 0 then None
    else if observations[|observations| - 1].number == number then Some(observations[|observations| - 1])
    else ObservationFor(observations[..|observations| - 1], number)
  }

  predicate Planned(parts: seq<PartRow>, number: int) {
    1 <= number <= |parts|
  }

  predicate AllPlanned(parts: seq<PartRow>, observations: seq<Observation>) {
    forall i :: 0 <= i < |observations| ==> Planned(parts, observations[i].number)
  }

  /** Constructor checks of recovery evidence. */
  function CheckEvidence(evidence: RecoveryEvidence): Check<Error> {
    var allowed :=
      match evidence.reason
      case RecoverReady => evidence.result in {None, Some(Ambiguous), Some(EmbeddedError)}
      case RecoverPartial => evidence.result in {None, Some(Ambiguous), Some(EmbeddedError)}
      case RecoverConflict409 => evidence.result in {None, Some(Conflict409)}
      case RecoverSessionNotFound => evidence.result in {None, Some(NoSuchUpload)};
    if !allowed then Fail(ContentConflict)
    else if Invalidates(evidence.reason) && |evidence.observations| > 0 then Fail(ContentConflict)
    else Pass
  }

  predicate Invalidates(reason: RecoveryReason) {
    reason == RecoverConflict409 || reason == RecoverSessionNotFound
  }

  function PersistedResult(evidence: RecoveryEvidence): CompletionResult {
    if evidence.result.Some? then evidence.result.value
    else
      match evidence.reason
      case RecoverConflict409 => Conflict409
      case RecoverSessionNotFound => NoSuchUpload
      case _ => Ambiguous
  }

  // ------------------------------------------------------------------- reading

  /** The receipt stored in a part row, revalidated as it is read. */
  function StoredReceipt(part: PartRow): Result<Option<Receipt>, Error> {
    if part.responseEtag.Some? && part.responseChecksum.Some? then
      var receipt := Receipt(part.number, part.responseEtag.value, part.responseChecksum.value);
      :- CheckReceipt(receipt);
      :- Require(ChecksumToDigest(receipt.checksum) == Some(part.sha256), ChecksumRejected);
      Ok(Some(receipt))
    else Ok(None)
  }

  predicate ReceiptsReadable(parts: seq<PartRow>) {
    forall i :: 0 <= i < |parts| ==> StoredReceipt(parts[i]).Ok?
  }

  /** Rebuild the frozen plan and the part records of a session. */
  function LoadContext(db: Db, s: Id): Result<Context, Error> {
    if s !in db.sessions || db.sessions[s].blobId !in db.blobs || db.sessions[s].frozen.None? then Err(ContentConflict)
    else
      var row := db.sessions[s];
      var blob, frozen := db.blobs[row.blobId], row.frozen.value;
      match PlanCodec.Build(frozen.schema, blob.size, frozen.partSize, Definitions(PartsOf(db, s)))
      case Err(_) => Err(Rows.ManifestMismatch)
      case Ok(plan) =>
        if ReceiptsReadable(PartsOf(db, s)) then Ok(Context(s, row, plan, blob, PartsOf(db, s))) else Err(ChecksumRejected)
  }

  predicate IsMultipart(db: Db, s: Id) {
    s in db.sessions && db.sessions[s].strategy == Multipart
  }

  /** The admission fence: the lease row names this owner and epoch and runs. */
  predicate Admitted(db: Db, s: Id, owner: Id, epoch: int, clock: int) {
    && s in db.admission
    && db.admission[s].owner == owner && db.admission[s].epoch == epoch
    && db.admission[s].expiresAt > clock
  }

  /** The completion fence. */
  predicate Claimed(db: Db, s: Id, owner: Id, epoch: int, clock: int) {
    && s in db.completion
    && db.completion[s].owner == owner && db.completion[s].epoch == epoch
    && db.completion[s].expiresAt > clock
  }

  predicate AdmittedIn(db: Db, s: Id, owner: Id, epoch: int, state: SessionState, clock: int) {
    s in db.sessions && db.sessions[s].state == state && Admitted(db, s, owner, epoch, clock)
  }

  // ------------------------------------------------------- create or resolve

  function MaxGeneration(db: Db, blobId: Id, below: Id): (g: int)
    ensures g >= 0
  {
    if below == 0 then 0
    else
      var rest, s := MaxGeneration(db, blobId, below - 1), below - 1;
      if s in db.sessions && db.sessions[s].blobId == blobId && db.sessions[s].frozen.Some?
         && db.sessions[s].frozen.value.generation > rest
      then db.sessions[s].frozen.value.generation
      else rest
  }

  /** The unfinished session of a Blob, if there is one. */
  function ActiveSession(db: Db, blobId: Id, below: Id): (found: Option<Id>)
    ensures found.Some? ==> found.value < below && found.value in db.sessions && db.sessions[found.value].blobId == blobId
                            && Active(db.sessions[found.value].state)
    ensures found.None? ==> forall s :: s in db.sessions && s < below ==> !(db.sessions[s].blobId == blobId && Active(db.sessions[s].state))
  {
    if below == 0 then None
    else if below - 1 in db.sessions && db.sessions[below - 1].blobId == blobId && Active(db.sessions[below - 1].state) then Some(below - 1)
    else ActiveSession(db, blobId, below - 1)
  }

  predicate References(db: Db, versionId: Id, blobId: Id) {
    exists i :: 0 <= i < |EntriesOf(db, versionId)| && EntriesOf(db, versionId)[i].blobId == blobId
  }

  function EmptySession(blobId: Id, versionId: Id, strategy: Strategy, clock: int): SessionRow {
    SessionRow(blobId, versionId, strategy, Created, None, None, None, None, None, None, None, None, None, None, None,
               None, None, None, None, None, clock, clock, None)
  }

  function PlannedPart(part: PartDefinition): PartRow {
    PartRow(part.range.number, part.range.offset, part.range.size, part.sha256, PartPending,
            None, None, None, None, None, None, None, None, None, None)
  }

  function PlannedParts(plan: PartPlan): (rows: seq<PartRow>)
    ensures |rows| == |plan.parts|
  {
    seq(|plan.parts|, i requires 0 <= i < |plan.parts| => PlannedPart(plan.parts[i]))
  }

  function PlanSha(plan: PartPlan): Sha {
    Sha(PlanCodec.CanonicalText(plan))
  }

  function NewMultipart(db: Db, versionId: Id, blobId: Id, plan: PartPlan, clock: int): SessionRow {
    EmptySession(blobId, versionId, Multipart, clock).(
      frozen := Some(Frozen(MaxGeneration(db, blobId, db.nextId) + 1, plan.partSize, |plan.parts|, plan.schema, PlanSha(plan))))
  }

  function CreateOrResolve(db: Db, request: Id, versionId: Id,
                           blobId: Id, plan: PartPlan, at: Instants): (result: Result<Done<Context>, Error>)
    ensures result.Ok? ==>
      result.value.db == db.(clock := at.commit, nextId := result.value.db.nextId, sessions := result.value.db.sessions,
        parts := result.value.db.parts, idempotency := result.value.db.idempotency)
  {
    var canonical := PlanCodec.ValidPlan(plan);
    :- Require(canonical, Rows.ManifestMismatch);
    var key, payload := Key(ResolveScope, request), ResolveRequest(versionId, blobId, PlanSha(plan));
    if key in db.idempotency then
      :- Require(db.idempotency[key].request == payload && IsMultipart(db, db.idempotency[key].resourceId), IdempotencyConflict);
      var context :- LoadContext(db, db.idempotency[key].resourceId);
      Ok(Finish(db, at, context))
    else
      :- Require(blobId in db.blobs && versionId in db.versions && References(db, versionId, blobId), NotFound);
      :- Require(db.blobs[blobId].size == plan.blobSize, ContentConflict);
      match ActiveSession(db, blobId, db.nextId)
      case Some(s) =>
        :- Require(db.sessions[s].strategy == Multipart && db.sessions[s].frozen.Some?
                   && db.sessions[s].frozen.value.planSha == PlanSha(plan), ContentConflict);
        var bound := Bind(db, key, IdempotencyRow(payload, s, None));
        var context :- LoadContext(bound, s);
        Ok(Finish(bound, at, context))
      case None =>
        var s := db.nextId;
        var created :- InsertSession(db.(nextId := s + 1), s, NewMultipart(db, versionId, blobId, plan, at.wall));
        var planned :- InsertParts(created, s, PlannedParts(plan));
        var bound := Bind(planned, key, IdempotencyRow(payload, s, None));
        var context :- LoadContext(bound, s);
        Commit(bound, blobId, at, context)
  }

  // --------------------------------------------------------- admission leases

  function LiveAdmissions(db: Db, clock: int): set<Id> {
    set s | s in db.admission && db.admission[s].expiresAt > clock
  }

  function LiveCompletions(db: Db, clock: int): set<Id> {
    set s | s in db.completion && db.completion[s].expiresAt > clock
  }

  function AdmissionAnswer(s: Id, lease: AdmissionLease): AdmissionRecord {
    AdmissionRecord(s, lease.invocation, lease.owner, lease.epoch, lease.expiresAt, lease.renewedAt)
  }

  function UploadOwned(state: SessionState): bool {
    state == Created || state == Initiating || state == InProgress
  }

  /** The lease an acquisition leaves behind, or why it is refused. */
  function GrantAdmission(db: Db, s: Id, invocation: Id, ttl: int, capacity: int, at: Instants): Result<AdmissionLease, Error> {
    if s in db.admission && db.admission[s].expiresAt > at.now then
      if db.admission[s].invocation != invocation then Err(LeaseHeld)
      else Ok(db.admission[s].(renewedAt := at.now, expiresAt := at.now + ttl))
    else if |LiveAdmissions(db, at.now)| >= capacity then Err(CapacityExhausted)
    else
      var epoch := if s in db.admission then db.admission[s].epoch + 1 else 1;
      Ok(AdmissionLease(invocation, db.nextId, epoch, at.now, at.now, at.now + ttl))
  }

  function Acquire(db: Db, request: Id, invocation: Id,
                   s: Id, ttl: int, capacity: int, at: Instants): (result: Result<Done<AdmissionRecord>, Error>)
    ensures result.Ok? ==>
      result.value.db == db.(clock := at.commit, nextId := result.value.db.nextId,
        admission := result.value.db.admission, idempotency := result.value.db.idempotency)
  {
    var valid := ttl > 0 && capacity > 0;
    :- Require(valid, ContentConflict);
    var key, payload := Key(AcquireScope, request), AcquireRequest(s, invocation);
    if key in db.idempotency then
      :- Require(db.idempotency[key].request == payload && db.idempotency[key].lease.Some?, IdempotencyConflict);
      Ok(Finish(db, at, db.idempotency[key].lease.value))
    else
      :- Require(IsMultipart(db, s), NotFound);
      :- Require(UploadOwned(db.sessions[s].state), IllegalTransition);
      var lease :- GrantAdmission(db, s, invocation, ttl, capacity, at);
      var leased :- PutAdmission(db.(nextId := db.nextId + 1), s, lease, at);
      var answer := AdmissionAnswer(s, lease);
      var bound := Bind(leased, key, IdempotencyRow(payload, s, Some(answer)));
      Ok(Finish(bound, at, answer))
  }

  function ReleasedAdmission(lease: AdmissionLease, clock: int): AdmissionLease {
    lease.(renewedAt := clock, expiresAt := clock)
  }

  function ReleasedCompletion(lease: CompletionLease, clock: int): CompletionLease {
    lease.(renewedAt := clock, expiresAt := clock)
  }

  function Release(db: Db, s: Id, owner: Id, epoch: int, at: Instants): (result: Result<Done<()>, Error>)
    ensures result.Ok? ==> result.value.db == db.(clock := at.commit, admission := result.value.db.admission)
    ensures result.Ok? ==> s in db.admission && result.value.db.admission == db.admission[s := ReleasedAdmission(db.admission[s], at.flush)]
  {
    var held := Admitted(db, s, owner, epoch, at.now);
    :- Require(held, LeaseLost);
    var released :- PutAdmission(db, s, ReleasedAdmission(db.admission[s], at.flush), at);
    Ok(Finish(released, at, ()))
  }

  // ------------------------------------------------------------------- upload

  // The session rows the transactions write.

  function Begun(row: SessionRow, clock: int): SessionRow {
    row.(state := Initiating, initiationStartedAt := Some(clock), lastActivityAt := clock)
  }

  function Started(row: SessionRow, provider: string, clock: int): SessionRow {
    row.(state := InProgress, provider := Some(provider), lastActivityAt := clock)
  }

  function Touched(row: SessionRow, clock: int): SessionRow {
    row.(lastActivityAt := clock)
  }

  function Reconciling(row: SessionRow, clock: int): SessionRow {
    row.(reconciledAt := Some(clock), lastActivityAt := clock)
  }

  function InitiationFailed(row: SessionRow, clock: int): SessionRow {
    row.(state := Failed, failure := Some(InitiationAmbiguous), initiationAmbiguousAt := Some(clock),
         completedAt := Some(clock), lastActivityAt := clock)
  }

  function Accepted(row: SessionRow, clock: int): SessionRow {
    row.(state := Completing, completionRequestedAt := Some(clock), completionReason := Some(PartsReady),
         completionPhase := Some(Pending), lastActivityAt := clock)
  }

  function MovedTo(row: SessionRow, target: Phase, clock: int): SessionRow {
    row.(completionPhase := Some(target), lastActivityAt := clock)
  }

  function Invalidated(row: SessionRow, evidence: RecoveryEvidence, clock: int): SessionRow {
    WithEvidence(row, evidence).(invalidatedAt := Some(clock), failure := Some(ProviderAttemptInvalidated), state := Failed,
                                 completedAt := Some(clock), lastActivityAt := clock)
  }

  function Requeued(row: SessionRow, clock: int): SessionRow {
    row.(state := InProgress, completionReason := None, completionPhase := None, lastActivityAt := clock)
  }

  function Proven(row: SessionRow, evidence: Evidence): SessionRow {
    row.(evidence := Some(evidence))
  }

  function Finished(row: SessionRow, evidence: Evidence, clock: int): SessionRow {
    Proven(row, evidence).(state := Completed, completedAt := Some(evidence.completedAt), lastActivityAt := clock)
  }

  function BeginInitiation(db: Db, s: Id, owner: Id, epoch: int, at: Instants): (result: Result<Done<()>, Error>)
    ensures result.Ok? ==> result.value.db == db.(clock := at.commit, sessions := result.value.db.sessions)
  {
    var held := AdmittedIn(db, s, owner, epoch, Created, at.now);
    :- Require(held, LeaseLost);
    var row := db.sessions[s];
    var begun :- PutSession(db, s, Begun(row, at.flush));
    Commit(begun, row.blobId, at, ())
  }

  function RecordProvider(db: Db, s: Id, owner: Id, epoch: int, provider: string, at: Instants): (result: Result<Done<()>, Error>)
    ensures result.Ok? ==>
      result.value.db == db.(clock := at.commit, sessions := result.value.db.sessions, blobs := result.value.db.blobs)
  {
    var valid := provider != "";
    :- Require(valid, ContentConflict);
    :- Require(AdmittedIn(db, s, owner, epoch, Initiating, at.now), LeaseLost);
    var row := db.sessions[s];
    var started :- PutSession(db, s, Started(row, provider, at.flush));
    :- Require(row.blobId in db.blobs, ContentConflict);
    var blob := db.blobs[row.blobId];
    if blob.state == BlobPending then
      var uploading :- PutBlob(started, row.blobId, blob.(state := BlobUploading));
      Commit(uploading, row.blobId, at, ())
    else
      :- Require(blob.state == BlobUploading, IllegalTransition);
      Commit(started, row.blobId, at, ())
  }

  predicate HasReceiptField(part: PartRow) {
    part.responseEtag.Some? || part.responseChecksum.Some? || part.responseAt.Some? || part.uploadedAt.Some?
  }

  function Uploaded(part: PartRow, receipt: Receipt, clock: int): PartRow {
    part.(state := PartUploaded, responseEtag := Some(receipt.etag), responseChecksum := Some(receipt.checksum),
          responseAt := Some(clock), uploadedAt := Some(clock))
  }

  function RecordPart(db: Db, s: Id,
                      owner: Id, epoch: int, receipt: Receipt, at: Instants): (result: Result<Done<PartRow>, Error>)
    ensures result.Ok? ==>
      result.value.db == db.(clock := at.commit, sessions := result.value.db.sessions, parts := result.value.db.parts)
  {
    var checked := CheckReceipt(receipt);
    :- checked;
    :- Require(AdmittedIn(db, s, owner, epoch, InProgress, at.now), LeaseLost);
    var row, parts := db.sessions[s], PartsOf(db, s);
    var touched :- PutSession(db, s, Touched(row, at.flush));
    :- Require(Planned(parts, receipt.number), InvalidPartNumber);
    var part := parts[receipt.number - 1];
    :- Require(ChecksumToDigest(receipt.checksum) == Some(part.sha256), ChecksumRejected);
    var existing :- StoredReceipt(part);
    if HasReceiptField(part) then
      :- Require(existing == Some(receipt), ContentConflict);
      Commit(touched, row.blobId, at, part)
    else
      var recorded := Uploaded(part, receipt, at.flush);
      var stored :- PutParts(touched, s, parts[receipt.number - 1 := recorded]);
      Commit(stored, row.blobId, at, recorded)
  }

  /** Diagnostics written when an observation does not resolve its part. */
  function MismatchCode(part: PartRow, observation: Observation): Option<string> {
    if observation.size != part.size then Some("PART_SIZE_MISMATCH")
    else if observation.checksum != ChecksumBase64(part.sha256) then Some("PART_CHECKSUM_REJECTED")
    else if part.responseEtag.None? || part.responseChecksum.None? then Some("PART_RECEIPT_MISSING")
    else if part.responseEtag != Some(observation.etag) || part.responseChecksum != Some(observation.checksum) then Some("PART_RECEIPT_MISMATCH")
    else None
  }

  /** Receipt, expected digest, planned size and observation all agree. */
  predicate Agrees(part: PartRow, observation: Option<Observation>) {
    observation.Some? && MismatchCode(part, observation.value).None?
  }

  /** Store the safe part of one observation. */
  function Observed(part: PartRow, observation: Option<Observation>, clock: int): PartRow {
    match observation
    case None =>
      part.(listedEtag := None, listedChecksum := None, listedSize := None, listedAt := None, verifiedAt := None,
            lastError := Some("PART_NOT_PRESENT"))
    case Some(seen) =>
      var listed := part.(
        listedEtag := Some(seen.etag),
        listedChecksum := if seen.checksum == ChecksumBase64(part.sha256) then Some(seen.checksum) else None,
        listedSize := Some(seen.size),
        listedAt := Some(clock),
        lastError := MismatchCode(part, seen));
      if listed.lastError.Some? then listed.(verifiedAt := None) else listed
  }

  /** The first flush of a reconciliation: evidence, and the state reset or
      advanced to UPLOADED. */
  function Observing(part: PartRow, observation: Option<Observation>, clock: int): PartRow {
    var listed := Observed(part, observation, clock);
    if !Agrees(part, observation) then listed.(state := PartPending)
    else if listed.state == PartPending then listed.(state := PartUploaded)
    else listed
  }

  /** The second flush verifies the newly resolved parts. */
  function Reconciled(part: PartRow, observation: Option<Observation>, clock: int): PartRow {
    var listed := Observing(part, observation, clock);
    if Agrees(part, observation) && part.state != PartVerified
    then listed.(state := PartVerified, verifiedAt := listed.listedAt)
    else listed
  }

  predicate NewlyResolved(part: PartRow, observation: Option<Observation>) {
    Agrees(part, observation) && part.state != PartVerified
  }

  function ObserveAll(parts: seq<PartRow>, observations: seq<Observation>, clock: int): (rows: seq<PartRow>)
    ensures |rows| == |parts|
  {
    seq(|parts|, i requires 0 <= i < |parts| => Observing(parts[i], ObservationFor(observations, parts[i].number), clock))
  }

  function ReconcileAll(parts: seq<PartRow>, observations: seq<Observation>, clock: int): (rows: seq<PartRow>)
    ensures |rows| == |parts|
  {
    seq(|parts|, i requires 0 <= i < |parts| => Reconciled(parts[i], ObservationFor(observations, parts[i].number), clock))
  }

  function Resolved(parts: seq<PartRow>, observations: seq<Observation>): Reconciliation {
    if |parts| == 0 then Reconciliation(0, 0)
    else
      var before, part := Resolved(parts[..|parts| - 1], observations), parts[|parts| - 1];
      if NewlyResolved(part, ObservationFor(observations, part.number))
      then Reconciliation(before.count + 1, before.bytes + part.size)
      else before
  }

  function Reconcile(db: Db, s: Id, owner: Id, epoch: int,
                     observations: seq<Observation>, at: Instants): (result: Result<Done<Reconciliation>, Error>)
    ensures result.Ok? ==>
      result.value.db == db.(clock := at.commit, sessions := result.value.db.sessions, parts := result.value.db.parts)
  {
    var checked := CheckObservations(observations);
    :- checked;
    :- Require(DistinctObservations(observations), ContentConflict);
    :- Require(AdmittedIn(db, s, owner, epoch, InProgress, at.now), LeaseLost);
    var row, parts := db.sessions[s], PartsOf(db, s);
    var touched :- PutSession(db, s, Reconciling(row, at.flush));
    :- Require(AllPlanned(parts, observations), InvalidPartNumber);
    var observed :- PutParts(touched, s, ObserveAll(parts, observations, at.flush));
    var verified :- PutParts(observed, s, ReconcileAll(parts, observations, at.flush));
    Commit(verified, row.blobId, at, Resolved(parts, observations))
  }

  function MarkAmbiguous(db: Db, s: Id, owner: Id, epoch: int, at: Instants): (result: Result<Done<()>, Error>)
    ensures result.Ok? ==>
      result.value.db == db.(clock := at.commit, sessions := result.value.db.sessions,
        admission := result.value.db.admission)
    ensures result.Ok? ==> s in db.admission && result.value.db.admission == db.admission[s := ReleasedAdmission(db.admission[s], at.flush)]
  {
    var held := AdmittedIn(db, s, owner, epoch, Initiating, at.now);
    :- Require(held, LeaseLost);
    var row := db.sessions[s];
    var failed :- PutSession(db, s, InitiationFailed(row, at.flush));
    var released :- PutAdmission(failed, s, ReleasedAdmission(db.admission[s], at.flush), at);
    Commit(released, row.blobId, at, ())
  }

  // --------------------------------------------------------------- completion

  function Accept(db: Db, s: Id, owner: Id, epoch: int, request: Id, at: Instants): (result: Result<Done<Id>, Error>)
    ensures result.Ok? ==>
      result.value.db == db.(clock := at.commit, sessions := result.value.db.sessions,
        admission := result.value.db.admission, idempotency := result.value.db.idempotency)
  {
    var key, payload := Key(AcceptScope, request), AcceptRequest(s);
    if key in db.idempotency then
      :- Require(db.idempotency[key].request == payload, IdempotencyConflict);
      Ok(Finish(db, at, db.idempotency[key].resourceId))
    else
      :- Require(IsMultipart(db, s), NotFound);
      :- Require(Admitted(db, s, owner, epoch, at.now), LeaseLost);
      var row := db.sessions[s];
      :- Require(row.state == InProgress && AllVerified(PartsOf(db, s)), IllegalTransition);
      var accepted :- PutSession(db, s, Accepted(row, at.flush));
      var released :- PutAdmission(accepted, s, ReleasedAdmission(db.admission[s], at.flush), at);
      var bound := Bind(released, key, IdempotencyRow(payload, s, None));
      Commit(bound, row.blobId, at, s)
  }

  predicate Claimable(db: Db, s: Id, clock: int) {
    && IsMultipart(db, s)
    && db.sessions[s].state == Completing
    && (s in db.completion ==> db.completion[s].expiresAt <= clock)
  }

  /** Work order: request time, unset times last, then row id. */
  predicate RequestedBefore(db: Db, left: Id, right: Id)
    requires left in db.sessions && right in db.sessions
  {
    var l, r := db.sessions[left].completionRequestedAt, db.sessions[right].completionRequestedAt;
    if l.Some? && r.Some? then l.value < r.value || (l.value == r.value && left < right)
    else if l.Some? != r.Some? then l.Some?
    else left < right
  }

  /** The first claimable session in work order among ids below `below`. */
  function NextWork(db: Db, clock: int, below: Id): (work: Option<Id>)
    ensures work.Some? ==> Claimable(db, work.value, clock)
  {
    if below == 0 then None
    else
      var rest, s := NextWork(db, clock, below - 1), below - 1;
      if !Claimable(db, s, clock) then rest
      else if rest.Some? && RequestedBefore(db, rest.value, s) then rest
      else Some(s)
  }

  function ClaimWork(db: Db, owner: Id, ttl: int, capacity: int, at: Instants): (result: Result<Done<Option<Claim>>, Error>)
    ensures result.Ok? ==> result.value.db == db.(clock := at.commit, completion := result.value.db.completion)
  {
    var valid := ttl > 0 && capacity > 0;
    :- Require(valid, ContentConflict);
    if |LiveCompletions(db, at.now)| >= capacity then Ok(Finish(db, at, None))
    else
      match NextWork(db, at.now, db.nextId)
      case None => Ok(Finish(db, at, None))
      case Some(s) =>
        var epoch := if s in db.completion then db.completion[s].epoch + 1 else 1;
        var lease := CompletionLease(owner, epoch, at.now, at.now, at.now + ttl);
        var leased :- PutCompletion(db, s, lease, at);
        :- Require(db.sessions[s].completionPhase.Some?, ContentConflict);
        Ok(Finish(leased, at, Some(Claim(s, lease, db.sessions[s].completionPhase.value))))
  }

  function Renew(db: Db, s: Id, owner: Id, epoch: int, ttl: int, at: Instants): (result: Result<Done<CompletionLease>, Error>)
    ensures result.Ok? ==> result.value.db == db.(clock := at.commit, completion := result.value.db.completion)
  {
    var valid := ttl > 0;
    :- Require(valid, ContentConflict);
    :- Require(Claimed(db, s, owner, epoch, at.now), LeaseLost);
    var lease := db.completion[s].(renewedAt := at.flush, expiresAt := at.flush + ttl);
    var renewed :- PutCompletion(db, s, lease, at);
    Ok(Finish(renewed, at, lease))
  }

  datatype PhaseFlags = PhaseFlags(finalPresentObserved: bool, retryableReconciliation: bool, transientReadFailure: bool)

  predicate PhaseTransition(current: Phase, target: Phase, flags: PhaseFlags) {
    || current == target
    || (current == Pending && target == Assembling)
    || (current == Assembling && target == FinalPresent)
    || (current == FinalPresent && target == FinalVerification)
    || (flags.finalPresentObserved && current == Pending && target == FinalPresent)
    || (flags.retryableReconciliation && current == Assembling && target == Pending)
    || (flags.transientReadFailure && current == FinalVerification && target == FinalPresent)
  }

  function SetPhase(db: Db, s: Id, owner: Id,
                    epoch: int, target: Phase, flags: PhaseFlags, at: Instants): (result: Result<Done<()>, Error>)
    ensures result.Ok? ==> result.value.db == db.(clock := at.commit, sessions := result.value.db.sessions)
  {
    var held := s in db.sessions && db.sessions[s].state == Completing;
    :- Require(held, LeaseLost);
    var row := db.sessions[s];
    :- Require(row.completionPhase.Some?, ContentConflict);
    :- Require(PhaseTransition(row.completionPhase.value, target, flags), IllegalTransition);
    :- Require(Claimed(db, s, owner, epoch, at.now), LeaseLost);
    var moved :- PutSession(db, s, MovedTo(row, target, at.flush));
    Commit(moved, row.blobId, at, ())
  }

  function Recheck(part: PartRow, observation: Option<Observation>, clock: int): PartRow {
    var listed := Observing(part, observation, clock);
    if Agrees(part, observation) then listed.(state := PartVerified, verifiedAt := Some(clock)) else listed
  }

  function RecheckAll(parts: seq<PartRow>, observations: seq<Observation>, clock: int): (rows: seq<PartRow>)
    ensures |rows| == |parts|
  {
    seq(|parts|, i requires 0 <= i < |parts| => Recheck(parts[i], ObservationFor(observations, parts[i].number), clock))
  }

  function WithEvidence(row: SessionRow, evidence: RecoveryEvidence): SessionRow {
    row.(finalAbsenceAt := Some(evidence.finalAbsenceAt), reconciledAt := Some(evidence.reconciledAt),
         lastResult := Some(PersistedResult(evidence)))
  }

  /** Terminalize an invalidated provider attempt and end its ownership. */
  function Invalidate(db: Db, s: Id, evidence: RecoveryEvidence, at: Instants): (result: Result<Done<Recovered>, Error>)
    requires s in db.sessions && s in db.completion
    ensures result.Ok? ==>
      result.value.db == db.(clock := at.commit, sessions := result.value.db.sessions,
        completion := result.value.db.completion)
    ensures result.Ok? ==> s in db.completion && result.value.db.completion == db.completion[s := ReleasedCompletion(db.completion[s], at.now)]
  {
    var row := db.sessions[s];
    var failed :- PutSession(db, s, Invalidated(row, evidence, at.now));
    var released :- PutCompletion(failed, s, ReleasedCompletion(db.completion[s], at.now), at);
    var context :- LoadContext(released, s);
    Commit(released, row.blobId, at, Recovered(StartNewGeneration, context))
  }

  /** Return a session with unresolved parts to part upload. */
  function Requeue(db: Db, s: Id, at: Instants): (result: Result<Done<Recovered>, Error>)
    requires s in db.sessions && s in db.completion
    ensures result.Ok? ==>
      result.value.db == db.(clock := at.commit, sessions := result.value.db.sessions,
        completion := result.value.db.completion)
    ensures result.Ok? ==> s in db.completion && result.value.db.completion == db.completion[s := ReleasedCompletion(db.completion[s], at.now)]
  {
    var row := db.sessions[s];
    var requeued :- PutSession(db, s, Requeued(row, at.now));
    var released :- PutCompletion(requeued, s, ReleasedCompletion(db.completion[s], at.now), at);
    var context :- LoadContext(released, s);
    Commit(released, row.blobId, at, Recovered(ResumePartUpload, context))
  }

  function Recover(db: Db, s: Id, owner: Id,
                   epoch: int, evidence: RecoveryEvidence, at: Instants): (result: Result<Done<Recovered>, Error>)
    ensures result.Ok? ==>
      result.value.db == db.(clock := at.commit, sessions := result.value.db.sessions, parts := result.value.db.parts,
        completion := result.value.db.completion)
    ensures result.Ok? && evidence.reason == RecoverReady ==> result.value.db.completion == db.completion
    ensures result.Ok? && evidence.reason != RecoverReady ==>
      s in db.completion && result.value.db.completion == db.completion[s := ReleasedCompletion(db.completion[s], at.now)]
  {
    var checked := CheckObservations(evidence.observations);
    :- checked;
    :- CheckEvidence(evidence);
    :- Require(DistinctObservations(evidence.observations), ContentConflict);
    :- Require(s in db.sessions && db.sessions[s].state == Completing && db.sessions[s].provider.Some?
               && Claimed(db, s, owner, epoch, at.now), LeaseLost);
    var row, parts := db.sessions[s], PartsOf(db, s);
    :- Require(AllPlanned(parts, evidence.observations), InvalidPartNumber);
    if Invalidates(evidence.reason) then Invalidate(db, s, evidence, at)
    else
      var noted :- PutSession(db, s, WithEvidence(row, evidence));
      var observed :- PutParts(noted, s, ObserveAll(parts, evidence.observations, evidence.reconciledAt));
      var rows := RecheckAll(parts, evidence.observations, evidence.reconciledAt);
      var verified :- PutParts(observed, s, rows);
      if evidence.reason == RecoverReady then
        :- Require(AllVerified(rows), ContentConflict);
        var context :- LoadContext(verified, s);
        Commit(verified, row.blobId, at, Recovered(RetryCompletion, context))
      else
        :- Require(!AllVerified(rows), ContentConflict);
        Requeue(verified, s, at)
  }

  /** Constructor checks of verification evidence. */
  predicate WellFormedEvidence(evidence: Evidence) {
    && IsDigest(evidence.sha256)
    && evidence.size >= 0 && evidence.readBytes >= 0
    && 1 <= |evidence.verifier| <= 128
  }

  function RecordVerified(db: Db, s: Id, owner: Id,
                          epoch: int, evidence: Evidence, at: Instants): (result: Result<Done<Context>, Error>)
    ensures result.Ok? ==>
      result.value.db == db.(clock := at.commit, sessions := result.value.db.sessions, blobs := result.value.db.blobs,
        completion := result.value.db.completion)
    ensures result.Ok? ==> s in db.completion && result.value.db.completion == db.completion[s := ReleasedCompletion(db.completion[s], at.now)]
  {
    var valid := WellFormedEvidence(evidence);
    :- Require(valid, ContentConflict);
    :- Require(s in db.sessions && db.sessions[s].state == Completing && Claimed(db, s, owner, epoch, at.now), LeaseLost);
    var row := db.sessions[s];
    :- Require(row.completionPhase == Some(FinalVerification), IllegalTransition);
    :- Require(row.blobId in db.blobs, ContentConflict);
    var blob := db.blobs[row.blobId];
    :- Require(evidence.sha256 == blob.sha256 && evidence.size == blob.size && evidence.readBytes == blob.size, ContentConflict);
    :- Require(blob.state == BlobUploading, IllegalTransition);
    var noted :- PutSession(db, s, Proven(row, evidence));
    var verifying :- PutBlob(noted, row.blobId, blob.(state := BlobVerifying));
    var available :- PutBlob(verifying, row.blobId, blob.(state := BlobAvailable, verifiedAt := Some(evidence.completedAt)));
    var completed :- PutSession(available, s, Finished(row, evidence, at.now));
    var released :- PutCompletion(completed, s, ReleasedCompletion(db.completion[s], at.now), at);
    var context :- LoadContext(released, s);
    Commit(released, row.blobId, at, context)
  }
}
