/** The theorems about reachable states speak of something: each case in which the
    database refuses a write is met on some run, a part is reset under its receipt,
    and one run leads to a COMPLETED session and a READY Version. */
module Inhabited {
  import opened Base
  import opened Digest
  import opened Fencing
  import opened Flush
  import opened Guards
  import opened Invariant
  import opened Journeys
  import opened Multipart
  import opened PartRanges
  import opened Registry
  import opened Rows
  import opened Runs
  import opened Scenes
  import Coverage
  import P = PublishSafety
  import PlanCodec
  import R = Receipts
  import Restarts

  // -------------------------------------------------------------------- the plan

  function Parts(ranges: seq<Range>, digest: string): seq<PartDefinition> {
    seq(|ranges|, i requires 0 <= i < |ranges| => PartDefinition(ranges[i], digest))
  }

  /** The plan of a file whose parts all have one digest. */
  function PlanOf(size: int, digest: string): PartPlan
    requires MAX_SINGLE_PUT_BYTES < size <= MAX_MULTIPART_BLOB_BYTES
  {
    PartPlan(PART_PLAN_SCHEMA_VERSION, size, PartSizeFor(size), Parts(Boundaries(size), digest))
  }

  lemma RangesOfParts(ranges: seq<Range>, digest: string)
    ensures PlanCodec.Ranges(Parts(ranges, digest)) == ranges
  {
  }

  /** Every size of the protocol has a plan. */
  lemma PlanIsValid(size: int, digest: string)
    requires MAX_SINGLE_PUT_BYTES < size <= MAX_MULTIPART_BLOB_BYTES && IsDigest(digest)
    ensures PlanCodec.ValidPlan(PlanOf(size, digest))
  {
    hide Boundaries, PartSizeFor, RangesAccepted, IsDigest;
    RangesOfParts(Boundaries(size), digest);
    BoundariesAccepted(size);
  }

  // ------------------------------------------------------------------ milestones

  /** A registry with Datasets only, and a file that goes up in parts. */
  ghost predicate Departure(start: Db, datasetId: Id, line: ManifestLine) {
    Fresh(start) && datasetId in start.datasets && SoundLine(line) && MAX_SINGLE_PUT_BYTES < line.size <= MAX_MULTIPART_BLOB_BYTES
  }

  /** The identifiers are handed out in order: Version, Blob, session, owner. */
  function TripOf(start: Db, line: ManifestLine): Trip
    requires MAX_SINGLE_PUT_BYTES < line.size <= MAX_MULTIPART_BLOB_BYTES
  {
    Trip(line, PlanOf(line.size, line.sha256), start.nextId, start.nextId + 1, start.nextId + 2, start.nextId + 3, "upload", "etag")
  }

  /** Long enough for a step per part and the steps around them. */
  const TTL := MAX_PARTS + 10

  lemma ToCreated(start: Db, datasetId: Id, line: ManifestLine) returns (db: Db)
    requires Departure(start, datasetId, line)
    ensures var trip := TripOf(start, line);
      Reaches(start, db) && On(db, trip, Created, BlobPending) && KeysBelow(db, 2) && Feasible(trip)
      && db.admission == map[] && db.completion == map[] && db.parts[trip.s] == PlannedParts(trip.plan) && db.nextId == trip.owner
  {
    hide Reaches, Inv, SoundLine, PlanCodec.ValidPlan, Fresh, PlanOf;
    var trip := TripOf(start, line);
    PlanFits(line);
    var registered := Registers(start, datasetId, line);
    db := Creates(start, registered, trip);
  }

  lemma PlanFits(line: ManifestLine)
    requires SoundLine(line) && MAX_SINGLE_PUT_BYTES < line.size <= MAX_MULTIPART_BLOB_BYTES
    ensures var plan := PlanOf(line.size, line.sha256); PlanCodec.ValidPlan(plan) && plan.blobSize == line.size
  {
    hide PlanCodec.ValidPlan, IsDigest;
    PlanIsValid(line.size, line.sha256);
  }

  lemma ToInitiating(start: Db, datasetId: Id, line: ManifestLine) returns (db: Db)
    requires Departure(start, datasetId, line)
    ensures var trip := TripOf(start, line);
      Reaches(start, db) && On(db, trip, Initiating, BlobPending) && KeysBelow(db, 3) && Held(db, trip, TTL - 2)
      && Feasible(trip) && db.parts[trip.s] == PlannedParts(trip.plan)
  {
    hide Reaches, Inv, SoundLine, PlanCodec.ValidPlan, Fresh, PlanOf, On, Held, Feasible;
    var trip := TripOf(start, line);
    var created := ToCreated(start, datasetId, line);
    OnHasRows(created, trip, Created, BlobPending);
    var held := Acquires(start, created, trip, TTL);
    db := Begins(start, held, trip, TTL - 1);
    OnHasRows(db, trip, Initiating, BlobPending);
  }

  lemma OnHasRows(db: Db, trip: Trip, state: SessionState, blobState: BlobState)
    requires On(db, trip, state, blobState)
    ensures trip.s in db.parts && Inv(db)
  {
  }

  /** In upload, with no receipt yet. */
  lemma ToUpload(start: Db, datasetId: Id, line: ManifestLine) returns (db: Db)
    requires Departure(start, datasetId, line)
    ensures var trip := TripOf(start, line);
      Reaches(start, db) && On(db, trip, InProgress, BlobUploading) && KeysBelow(db, 3) && Held(db, trip, TTL - 3)
      && 0 < |db.parts[trip.s]| <= MAX_PARTS && ReceivedUpTo(db.parts[trip.s], trip.etag, 0)
  {
    hide Reaches, Inv, SoundLine, PlanCodec.ValidPlan, Fresh, On, Held;
    var trip := TripOf(start, line);
    var begun := ToInitiating(start, datasetId, line);
    OnHasRows(begun, trip, Initiating, BlobPending);
    db := Provides(start, begun, trip, TTL - 2);
    OnHasRows(db, trip, InProgress, BlobUploading);
    PlannedCount(trip.plan);
  }

  lemma PlannedCount(plan: PartPlan)
    requires PlanCodec.ValidPlan(plan)
    ensures 0 < |PlannedParts(plan)| <= MAX_PARTS
    ensures forall i :: 0 <= i < |PlannedParts(plan)| ==> PlannedParts(plan)[i].responseEtag.None?
  {
  }

  /** All parts uploaded, reconciled and accepted for completion. */
  lemma ToAccepted(start: Db, datasetId: Id, line: ManifestLine) returns (db: Db)
    requires Departure(start, datasetId, line)
    ensures var trip := TripOf(start, line);
      Reaches(start, db) && InPhase(db, trip, Pending) && db.completion == map[] && KeysBelow(db, 4)
  {
    hide Reaches, Inv, SoundLine, Fresh, On, ReceivedUpTo, InPhase;
    var trip := TripOf(start, line);
    var upload := ToUpload(start, datasetId, line);
    OnHasRows(upload, trip, InProgress, BlobUploading);
    Lasts(upload, trip, TTL - 3, 2 + |upload.parts[trip.s]|);
    var uploaded := Uploads(start, upload, trip, 0, 2);
    OnHasRows(uploaded, trip, InProgress, BlobUploading);
    var verified := Reconciles(start, uploaded, trip, 2);
    db := Accepts(start, verified, trip, 1);
  }

  lemma Lasts(db: Db, trip: Trip, left: int, less: int)
    requires Held(db, trip, left) && less <= left
    ensures Held(db, trip, less)
  {
  }

  /** Claimed by the completion owner for one hundred seconds. */
  lemma ToClaimed(start: Db, datasetId: Id, line: ManifestLine) returns (db: Db)
    requires Departure(start, datasetId, line)
    ensures var trip := TripOf(start, line);
      Reaches(start, db) && InPhase(db, trip, Pending) && KeysBelow(db, 4) && Working(db, trip, 99)
      && db.completion[trip.s].expiresAt == db.clock + 100
  {
    hide Reaches, Inv, SoundLine, Fresh, On;
    var trip := TripOf(start, line);
    var accepted := ToAccepted(start, datasetId, line);
    db := Claims(start, accepted, trip, 100);
  }

  lemma ToFinalVerification(start: Db, datasetId: Id, line: ManifestLine) returns (db: Db)
    requires Departure(start, datasetId, line)
    ensures var trip := TripOf(start, line);
      Reaches(start, db) && InPhase(db, trip, FinalVerification) && KeysBelow(db, 4) && Working(db, trip, 96)
      && db.completion[trip.s].expiresAt == db.clock + 97
  {
    hide Reaches, Inv, SoundLine, Fresh, On, Working;
    var trip := TripOf(start, line);
    var claimed := ToClaimed(start, datasetId, line);
    var assembling := Proceeds(start, claimed, trip, Pending, Assembling, 99);
    var present := Proceeds(start, assembling, trip, Assembling, FinalPresent, 98);
    db := Proceeds(start, present, trip, FinalPresent, FinalVerification, 97);
    WorkingHasLease(claimed, trip, 99);
  }

  lemma WorkingHasLease(db: Db, trip: Trip, left: int)
    requires Working(db, trip, left)
    ensures trip.s in db.completion
  {
  }

  // --------------------------------------------------------------------- a success

  /** A run that leads from Datasets only to a COMPLETED session and a READY
      Version, for every file of the protocol's range. */
  lemma PublicationIsReached(start: Db, datasetId: Id, line: ManifestLine) returns (db: Db)
    requires Departure(start, datasetId, line)
    ensures var trip := TripOf(start, line);
      && Reaches(start, db)
      && trip.v in db.versions && db.versions[trip.v].state == Ready
      && trip.s in db.sessions && db.sessions[trip.s].state == Completed
  {
    hide Reaches, Inv, SoundLine, Fresh, On, InPhase, Working;
    var trip := TripOf(start, line);
    var checked := ToFinalVerification(start, datasetId, line);
    var published := Publishes(start, checked, trip, 96);
    db := Finalizes(start, published, trip);
  }

  // ------------------------------------------------------------------- the refusals

  /** On some run from `start` the database refuses this transaction. */
  ghost predicate IsMet(start: Db, db: Db, op: Op, at: Instants) {
    Reaches(start, db) && ValidInstants(db, at) && Refusal(db, op, at) && Outcome(db, op, at) == Err(Refuser(op))
  }

  lemma Meets(start: Db, db: Db, op: Op, at: Instants)
    requires Reaches(start, db) && Inv(db) && ValidInstants(db, at) && Refusal(db, op, at)
    ensures IsMet(start, db, op, at)
  {
    hide Reaches, Inv, Refusal, Outcome;
    OutcomeSound(db, op, at);
  }

  /** The store's check sees the lease, the flush comes a second too late. */
  function Late(db: Db, expiresAt: int): Instants {
    Instants(db.clock + 1, expiresAt, expiresAt, 0)
  }

  /** A new session on an AVAILABLE Blob, refused by the deferred check. */
  lemma CreationRefused(start: Db, datasetId: Id, line: ManifestLine) returns (db: Db, op: Op, at: Instants)
    requires Departure(start, datasetId, line)
    ensures IsMet(start, db, op, at) && op.CreateOrResolveOp?
  {
    hide Reaches, Inv, SoundLine, Fresh, IsMet, Working, InPhase, PlanCodec.ValidPlan, PlanOf;
    var trip := TripOf(start, line);
    var checked := ToFinalVerification(start, datasetId, line);
    db := Publishes(start, checked, trip, 96);
    PlanFits(line);
    NoneActive(db, trip.b);
    assert References(db, trip.v, trip.b) by { assert EntriesOf(db, trip.v)[0].blobId == trip.b; }
    op, at := CreateOrResolveOp(9, trip.v, trip.b, trip.plan), Tick(db, 0);
    Meets(start, db, op, at);
  }

  /** PENDING to FINAL_PRESENT, refused by the session guard. */
  lemma PendingToPresentRefused(start: Db, datasetId: Id, line: ManifestLine) returns (db: Db, op: Op, at: Instants)
    requires Departure(start, datasetId, line)
    ensures IsMet(start, db, op, at) && op.SetPhaseOp? && op.target == FinalPresent
  {
    hide Reaches, Inv, SoundLine, Fresh, IsMet, PlanCodec.ValidPlan, PlanOf;
    var trip := TripOf(start, line);
    db := ToClaimed(start, datasetId, line);
    op, at := SetPhaseOp(trip.s, 0, 1, FinalPresent, PhaseFlags(true, false, false)), Tick(db, 0);
    Meets(start, db, op, at);
  }

  /** ASSEMBLING back to PENDING, refused by the session guard. */
  lemma AssemblingToPendingRefused(start: Db, datasetId: Id, line: ManifestLine) returns (db: Db, op: Op, at: Instants)
    requires Departure(start, datasetId, line)
    ensures IsMet(start, db, op, at) && op.SetPhaseOp? && op.target == Pending
  {
    hide Reaches, Inv, SoundLine, Fresh, IsMet, PlanCodec.ValidPlan, PlanOf;
    var trip := TripOf(start, line);
    var claimed := ToClaimed(start, datasetId, line);
    db := Proceeds(start, claimed, trip, Pending, Assembling, 99);
    op, at := SetPhaseOp(trip.s, 0, 1, Pending, PhaseFlags(false, true, false)), Tick(db, 0);
    Meets(start, db, op, at);
  }

  /** A heartbeat whose lease runs out before the flush, refused by the lease guard. */
  lemma RenewalRefused(start: Db, datasetId: Id, line: ManifestLine) returns (db: Db, op: Op, at: Instants)
    requires Departure(start, datasetId, line)
    ensures IsMet(start, db, op, at) && op.RenewOp?
  {
    hide Reaches, Inv, SoundLine, Fresh, IsMet, PlanCodec.ValidPlan, PlanOf;
    var trip := TripOf(start, line);
    db := ToClaimed(start, datasetId, line);
    op, at := RenewOp(trip.s, 0, 1, 100), Late(db, db.clock + 100);
    InPhaseIsSound(db, trip, Pending);
    Meets(start, db, op, at);
  }

  lemma InPhaseIsSound(db: Db, trip: Trip, phase: Phase)
    requires InPhase(db, trip, phase)
    ensures Inv(db) && On(db, trip, Completing, BlobUploading) && db.sessions[trip.s].completionPhase == Some(phase)
  {
  }

  /** A recovery that gives up a lease which has just run out. */
  lemma RecoveryRefused(start: Db, datasetId: Id, line: ManifestLine) returns (db: Db, op: Op, at: Instants)
    requires Departure(start, datasetId, line)
    ensures IsMet(start, db, op, at) && op.RecoverOp?
  {
    hide Reaches, Inv, SoundLine, Fresh, IsMet, PlanCodec.ValidPlan, PlanOf;
    var trip := TripOf(start, line);
    db := ToClaimed(start, datasetId, line);
    InPhaseIsSound(db, trip, Pending);
    CompletingHasProvider(db, trip);
    op, at := RecoverOp(trip.s, 0, 1, RecoveryEvidence(RecoverConflict409, 0, 0, [], None)), Late(db, db.clock + 100);
    Meets(start, db, op, at);
  }

  lemma CompletingHasProvider(db: Db, trip: Trip)
    requires On(db, trip, Completing, BlobUploading)
    ensures db.sessions[trip.s].provider.Some?
  {
    hide Inv, PlanFrozen, PartsSound;
    Coverage.FrozenParts(db, trip.s);
  }

  /** Final publication under a lease that has just run out. */
  lemma VerificationRefused(start: Db, datasetId: Id, line: ManifestLine) returns (db: Db, op: Op, at: Instants)
    requires Departure(start, datasetId, line)
    ensures IsMet(start, db, op, at) && op.RecordVerifiedOp?
  {
    hide Reaches, Inv, Fresh, IsMet, PlanCodec.ValidPlan, PlanOf, IsDigest;
    var trip := TripOf(start, line);
    db := ToFinalVerification(start, datasetId, line);
    InPhaseIsSound(db, trip, FinalVerification);
    op, at := RecordVerifiedOp(trip.s, 0, 1, EvidenceOf(trip, 0)), Late(db, db.clock + 97);
    Meets(start, db, op, at);
  }

  /** Preparation while an INITIATING session holds the slot, refused by the index. */
  lemma PreparationRefused(start: Db, datasetId: Id, line: ManifestLine) returns (db: Db, op: Op, at: Instants)
    requires Departure(start, datasetId, line)
    ensures IsMet(start, db, op, at) && op.PrepareOp?
  {
    hide Reaches, Inv, SoundLine, Fresh, IsMet, PlanCodec.ValidPlan, PlanOf;
    var trip := TripOf(start, line);
    db := ToInitiating(start, datasetId, line);
    FindsBlob(db, line, trip.v, trip.b);
    HolderIsActive(db, trip);
    op, at := PrepareOp(trip.v, line.sha256, 9, Sha("")), Tick(db, 0);
    Meets(start, db, op, at);
  }

  lemma HolderIsActive(db: Db, trip: Trip)
    requires On(db, trip, Initiating, BlobPending)
    ensures ActiveSession(db, trip.b, db.nextId).Some? && StartedSession(db, trip.b, db.nextId).None?
  {
    hide Inv;
    IdBelow(db, trip.s);
  }

  /** Single-PUT verification of a Blob with multipart history, refused by the
      deferred check. */
  lemma SingleVerificationRefused(start: Db, datasetId: Id, line: ManifestLine) returns (db: Db, op: Op, at: Instants)
    requires Departure(start, datasetId, line)
    ensures IsMet(start, db, op, at) && op.MarkVerifiedOp?
  {
    hide Reaches, Inv, SoundLine, Fresh, IsMet, PlanCodec.ValidPlan, PlanOf;
    var trip := TripOf(start, line);
    var begun := ToInitiating(start, datasetId, line);
    var failed := TurnsAmbiguous(start, begun, trip, TTL - 2);
    var prepared := Prepares(start, failed, line, trip.v, trip.b, 3, 0);
    db := StartsAttempt(start, prepared, line, trip.v, trip.b, failed.nextId);
    FreshIs(failed, trip);
    assert HasMultipart(db, trip.b) by { assert db.sessions[trip.s].strategy == Multipart; }
    op, at := MarkVerifiedOp(failed.nextId, None), Tick(db, 0);
    Meets(start, db, op, at);
  }

  lemma FreshIs(db: Db, trip: Trip)
    requires On(db, trip, Failed, BlobPending)
    ensures trip.s != db.nextId
  {
    hide Inv;
    IdBelow(db, trip.s);
  }

  /** A single-PUT attempt that failed, created when the clock showed one. */
  lemma ToFailure(start: Db, datasetId: Id, line: ManifestLine) returns (db: Db)
    requires Departure(start, datasetId, line)
    ensures var v, b, r := start.nextId, start.nextId + 1, start.nextId + 2;
      && Reaches(start, db) && Attempt(db, line, v, b, r, Failed) && KeysBelow(db, 2)
      && db.blobs[b].state == BlobFailed && db.versions[v].state == VersionFailed
      && db.sessions.Keys == {r} && db.sessions[r].createdAt == 1 && db.nextId == r + 1
  {
    hide Reaches, Inv, SoundLine, Fresh;
    var v, b, r := start.nextId, start.nextId + 1, start.nextId + 2;
    var registered := Registers(start, datasetId, line);
    var prepared := Prepares(start, registered, line, v, b, 1, 1);
    var started := StartsAttempt(start, prepared, line, v, b, r);
    db := FailsAttempt(start, started, line, v, b, r);
  }

  /** A restart of a failed upload while a multipart session, created later by a
      clock that runs behind, holds the slot; refused by the index. */
  lemma RestartIsRefused(start: Db, datasetId: Id, line: ManifestLine) returns (db: Db, op: Op, at: Instants)
    requires Departure(start, datasetId, line)
    ensures IsMet(start, db, op, at) && op.RestartOp?
  {
    hide Reaches, Inv, SoundLine, Fresh, IsMet, PlanCodec.ValidPlan, PlanOf, MaxGeneration, PlanSha, P.RestartRefused;
    var trip := TripOf(start, line);
    PlanFits(line);
    var failed := ToFailure(start, datasetId, line);
    var r := start.nextId + 2;
    db := CreatesAfterFailure(start, failed, line, trip.plan, trip.v, trip.b, 2, 0);
    RestartFindsHolder(db, line, trip.v, trip.b, r, failed.nextId);
    op, at := RestartOp(trip.v, trip.b, 9, Sha("")), Tick(db, 0);
    Meets(start, db, op, at);
  }

  lemma RestartFindsHolder(db: Db, line: ManifestLine, v: Id, b: Id, r: Id, s: Id)
    requires Scene(db, line, v, b) && db.versions[v].state == VersionFailed && db.blobs[b].state == BlobFailed
    requires r in db.sessions && s in db.sessions && db.sessions.Keys == {r, s} && r < db.nextId && s < db.nextId
    requires db.sessions[r].blobId == db.sessions[s].blobId == b && db.sessions[r].createdAt > db.sessions[s].createdAt
    requires IsSingle(db, r) && Active(db.sessions[s].state) && KeysBelow(db, 3)
    ensures P.RestartRefused(db, v, b, 9)
  {
    hide Inv, LatestSession, ActiveSession;
    LatestIsTheSingle(db, b, r, s);
    assert References(db, v, b) by { assert EntriesOf(db, v)[0].blobId == b; }
  }

  /** Creation time decides, not the order of creation. */
  lemma LatestIsTheSingle(db: Db, b: Id, r: Id, s: Id)
    requires r in db.sessions && s in db.sessions && db.sessions.Keys == {r, s} && r < db.nextId && s < db.nextId
    requires db.sessions[r].blobId == db.sessions[s].blobId == b && db.sessions[r].createdAt > db.sessions[s].createdAt
    requires Active(db.sessions[s].state)
    ensures LatestSession(db, b, db.nextId) == Some(r) && ActiveSession(db, b, db.nextId).Some?
  {
    Restarts.LatestIsLatest(db, b, r, db.nextId);
  }

  // --------------------------------------------------------------------- the reset

  /** A part that was reset to PENDING and keeps its receipt. */
  lemma ResetIsReached(start: Db, datasetId: Id, line: ManifestLine) returns (db: Db)
    requires Departure(start, datasetId, line)
    ensures var trip := TripOf(start, line);
      Reaches(start, db) && HasReceipt(db, trip.s, 0, trip.etag) && db.parts[trip.s][0].state == PartPending
  {
    hide Reaches, Inv, SoundLine, Fresh, PlanCodec.ValidPlan, PlanOf, Reconcile, ReceivedUpTo, Held;
    var trip := TripOf(start, line);
    var upload := ToUpload(start, datasetId, line);
    var uploaded := Records(start, upload, trip, 0, TTL - 3);
    FirstHasReceipt(uploaded.parts[trip.s], trip.etag);
    HolderIsAdmitted(uploaded, trip, TTL - 4);
    var at := Tick(uploaded, 0);
    ReconcileLeaves(uploaded, trip.s, trip.owner, 1, [], at);
    R.ResetKeepsReceipt(uploaded, trip.s, trip.owner, 1, [], at, 0, trip.etag);
    db := Reconcile(uploaded, trip.s, trip.owner, 1, [], at).value.db;
    GoOn(start, uploaded, ReconcileOp(trip.s, trip.owner, 1, []), at, db);
  }

  lemma FirstHasReceipt(parts: seq<PartRow>, etag: string)
    requires ReceivedUpTo(parts, etag, 1)
    ensures |parts| > 0 && parts[0].responseEtag == Some(etag)
  {
  }

  lemma HolderIsAdmitted(db: Db, trip: Trip, left: int)
    requires Held(db, trip, left) && left >= 1
    ensures Admitted(db, trip.s, trip.owner, 1, db.clock + 1)
  {
  }
}
