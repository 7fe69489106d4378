/** Runs put together from steps: every kind of refusal is met on some run from a
    registry that holds Datasets only, and one run publishes a Version. */
module Journeys {
  import opened Base
  import opened Digest
  import opened Flush
  import opened Invariant
  import opened Multipart
  import opened PartRanges
  import opened Registry
  import opened Rows
  import opened Runs
  import opened Safety
  import opened Scenes
  import opened Sealing
  import A = LeaseEffects
  import B = PublishEffects
  import Coverage
  import E = CompletionEffects
  import H = History
  import P = PublishSafety
  import PlanCodec
  import R = Receipts
  import S = SingleSafety
  import U = UploadEffects

  // ------------------------------------------------------------------------ runs

  ghost predicate Reaches(start: Db, db: Db) {
    exists run :: ReachedBy(start, run, db)
  }

  /** One second later on every clock; the application's shows `wall`. */
  function Tick(db: Db, wall: int): Instants {
    Instants(db.clock + 1, db.clock + 1, db.clock + 1, wall)
  }

  lemma SetOut(start: Db)
    requires Fresh(start)
    ensures Reaches(start, start) && Inv(start)
  {
    hide Inv;
    FreshSatisfiesInv(start);
    assert ReachedBy(start, [], start);
  }

  lemma GoOn(start: Db, db: Db, op: Op, at: Instants, after: Db)
    requires Reaches(start, db) && Inv(db) && ValidInstants(db, at) && Outcome(db, op, at) == Ok(after)
    ensures Reaches(start, after) && Inv(after)
  {
    hide Outcome, Fresh, Inv, H.Advances;
    StepSound(db, op, at);
    var run: seq<Event> :| ReachedBy(start, run, db);
    var longer := run + [Event(op, at)];
    assert longer[..|longer| - 1] == run;
    assert ReachedBy(start, longer, after);
  }

  // ------------------------------------------------------------ a multipart upload

  /** The file uploaded, its plan, the rows that stand for it, and what clients send. */
  datatype Trip = Trip(line: ManifestLine, plan: PartPlan, v: Id, b: Id, s: Id, owner: Id, provider: string, etag: string)

  predicate Feasible(trip: Trip) {
    && SoundLine(trip.line) && PlanCodec.ValidPlan(trip.plan) && trip.plan.blobSize == trip.line.size
    && trip.provider != "" && trip.etag != ""
  }

  predicate KeysBelow(db: Db, n: Id) {
    forall key :: key in db.idempotency ==> key.request < n
  }

  /** The file's one session is a multipart one in this state. */
  ghost predicate On(db: Db, trip: Trip, state: SessionState, blobState: BlobState) {
    && Scene(db, trip.line, trip.v, trip.b)
    && db.sessions.Keys == {trip.s} && IsMultipart(db, trip.s) && trip.s in db.parts
    && db.sessions[trip.s].blobId == trip.b && db.sessions[trip.s].state == state
    && db.blobs[trip.b].state == blobState && db.versions[trip.v].state == Draft
  }

  /** The admission lease runs for so many more seconds. */
  predicate Held(db: Db, trip: Trip, left: int) {
    Admitted(db, trip.s, trip.owner, 1, db.clock + left) && db.completion == map[]
  }

  lemma Registers(start: Db, datasetId: Id, line: ManifestLine) returns (db: Db)
    requires Fresh(start) && datasetId in start.datasets && SoundLine(line)
    ensures Reaches(start, db) && Registered(db, line, start.nextId, start.nextId + 1) && KeysBelow(db, 1)
  {
    hide Inv, SoundLine, Register, Reaches, Fresh;
    var at := Tick(start, 0);
    SetOut(start);
    RegisterLeads(start, datasetId, line, Sha(""), at);
    db := Register(start, datasetId, [line], 0, Sha(""), at).value.db;
    GoOn(start, start, RegisterOp(datasetId, [line], 0, Sha("")), at, db);
  }

  lemma Creates(start: Db, db: Db, trip: Trip) returns (after: Db)
    requires Reaches(start, db) && Registered(db, trip.line, trip.v, trip.b) && KeysBelow(db, 1) && Feasible(trip)
    requires trip.s == db.nextId
    ensures Reaches(start, after) && On(after, trip, Created, BlobPending) && KeysBelow(after, 2)
    ensures after.admission == map[] && after.completion == map[] && after.parts[trip.s] == PlannedParts(trip.plan)
    ensures after.nextId == trip.s + 1
  {
    hide Inv, SoundLine, CreateOrResolve, Reaches, PlanCodec.ValidPlan, MaxGeneration, PlanSha;
    var at := Tick(db, 0);
    assert References(db, trip.v, trip.b) by { assert EntriesOf(db, trip.v)[0].blobId == trip.b; }
    CreationLeaves(db, 1, trip.v, trip.b, trip.plan, at);
    after := CreateOrResolve(db, 1, trip.v, trip.b, trip.plan, at).value.db;
    GoOn(start, db, CreateOrResolveOp(1, trip.v, trip.b, trip.plan), at, after);
  }

  lemma Acquires(start: Db, db: Db, trip: Trip, ttl: int) returns (after: Db)
    requires Reaches(start, db) && On(db, trip, Created, BlobPending) && KeysBelow(db, 2) && ttl > 1
    requires db.admission == map[] && db.completion == map[] && trip.owner == db.nextId
    ensures Reaches(start, after) && On(after, trip, Created, BlobPending) && KeysBelow(after, 3)
    ensures Held(after, trip, ttl - 1) && after.parts == db.parts
  {
    hide Inv, Acquire, Reaches;
    var at := Tick(db, 0);
    AcquireLeaves(db, 2, trip.s, ttl, at);
    after := Granted(db, 2, trip.s, ttl, at);
    GoOn(start, db, AcquireOp(2, 0, trip.s, ttl, 1), at, after);
  }

  lemma Begins(start: Db, db: Db, trip: Trip, left: int) returns (after: Db)
    requires Reaches(start, db) && On(db, trip, Created, BlobPending) && Held(db, trip, left) && left >= 1
    ensures Reaches(start, after) && On(after, trip, Initiating, BlobPending) && Held(after, trip, left - 1)
    ensures after.parts == db.parts && after.idempotency == db.idempotency
  {
    hide Inv, BeginInitiation, Reaches;
    var at := Tick(db, 0);
    U.BeginDecides(db, trip.s, trip.owner, 1, at, BeginInitiation(db, trip.s, trip.owner, 1, at));
    after := BeginInitiation(db, trip.s, trip.owner, 1, at).value.db;
    GoOn(start, db, BeginInitiationOp(trip.s, trip.owner, 1), at, after);
  }

  lemma Provides(start: Db, db: Db, trip: Trip, left: int) returns (after: Db)
    requires Reaches(start, db) && On(db, trip, Initiating, BlobPending) && Held(db, trip, left) && left >= 1
    requires Feasible(trip)
    ensures Reaches(start, after) && On(after, trip, InProgress, BlobUploading) && Held(after, trip, left - 1)
    ensures after.parts == db.parts && after.idempotency == db.idempotency
  {
    hide Inv, RecordProvider, Reaches, SoundLine, PlanCodec.ValidPlan;
    var at := Tick(db, 0);
    U.ProviderDecides(db, trip.s, trip.owner, 1, trip.provider, at, RecordProvider(db, trip.s, trip.owner, 1, trip.provider, at));
    after := RecordProvider(db, trip.s, trip.owner, 1, trip.provider, at).value.db;
    GoOn(start, db, RecordProviderOp(trip.s, trip.owner, 1, trip.provider), at, after);
  }

  // ----------------------------------------------------------------------- parts

  /** The first `k` parts carry a receipt, the others none. */
  predicate ReceivedUpTo(parts: seq<PartRow>, etag: string, k: nat) {
    && k <= |parts|
    && (forall i :: 0 <= i < k ==> parts[i].responseEtag == Some(etag))
    && (forall i :: k <= i < |parts| ==> parts[i].responseEtag.None?)
  }

  function ReceiptOf(parts: seq<PartRow>, etag: string, k: nat): Receipt
    requires k < |parts|
  {
    Receipt(k + 1, etag, ChecksumBase64(parts[k].sha256))
  }

  lemma PartOf(db: Db, s: Id, i: nat)
    requires Inv(db) && IsMultipart(db, s) && s in db.parts && i < |db.parts[s]|
    ensures PartSound(db.parts[s][i]) && db.parts[s][i].number == i + 1 && IsDigest(db.parts[s][i].sha256)
    ensures i + 1 <= MAX_PARTS && db.parts[s][i].size > 0
    ensures ChecksumToDigest(ChecksumBase64(db.parts[s][i].sha256)).Some?
  {
    hide Inv, PlanFrozen, StateSound, BlobFollows, ChecksumToDigest, ChecksumBase64, IsDigest;
    Coverage.FrozenParts(db, s);
    var blobSize := db.blobs[db.sessions[s].blobId].size;
    NumberedFromOne(db.sessions[s], db.parts[s], blobSize, i);
    FrozenChecks(db.sessions[s], db.parts[s], blobSize);
    PartCountIs(db.sessions[s], db.parts[s], blobSize);
    var part := db.parts[s][i];
    ChecksumBijection(ChecksumBase64(part.sha256), part.sha256);
  }

  lemma PartCountIs(row: SessionRow, parts: seq<PartRow>, blobSize: int)
    requires PlanFrozen(row, parts, blobSize)
    ensures |parts| == row.frozen.value.plannedCount
  {
  }

  /** The next part can be recorded. */
  lemma NextIsRecordable(db: Db, trip: Trip, k: nat)
    requires On(db, trip, InProgress, BlobUploading) && Held(db, trip, 1) && trip.etag != ""
    requires ReceivedUpTo(db.parts[trip.s], trip.etag, k) && k < |db.parts[trip.s]|
    ensures R.Recordable(db, trip.s, trip.owner, 1, ReceiptOf(db.parts[trip.s], trip.etag, k), db.clock + 1)
  {
    hide Inv, ChecksumToDigest, ChecksumBase64, IsDigest, PartSound;
    PartOf(db, trip.s, k);
  }

  lemma Records(start: Db, db: Db, trip: Trip, k: nat, left: int) returns (after: Db)
    requires Reaches(start, db) && On(db, trip, InProgress, BlobUploading) && Held(db, trip, left) && left >= 1
    requires trip.etag != "" && ReceivedUpTo(db.parts[trip.s], trip.etag, k) && k < |db.parts[trip.s]|
    ensures Reaches(start, after) && On(after, trip, InProgress, BlobUploading) && Held(after, trip, left - 1)
    ensures |after.parts[trip.s]| == |db.parts[trip.s]| && ReceivedUpTo(after.parts[trip.s], trip.etag, k + 1)
    ensures after.idempotency == db.idempotency
  {
    hide Inv, RecordPart, Reaches, R.Recordable, ChecksumBase64;
    var at, receipt := Tick(db, 0), ReceiptOf(db.parts[trip.s], trip.etag, k);
    NextIsRecordable(db, trip, k);
    U.PartDecides(db, trip.s, trip.owner, 1, receipt, at, RecordPart(db, trip.s, trip.owner, 1, receipt, at));
    after := RecordPart(db, trip.s, trip.owner, 1, receipt, at).value.db;
    GoOn(start, db, RecordPartOp(trip.s, trip.owner, 1, receipt), at, after);
  }

  lemma {:induction false} Uploads(start: Db, db: Db, trip: Trip, k: nat, left: int) returns (after: Db)
    requires Reaches(start, db) && On(db, trip, InProgress, BlobUploading)
    requires Held(db, trip, left + |db.parts[trip.s]| - k) && left >= 0
    requires trip.etag != "" && ReceivedUpTo(db.parts[trip.s], trip.etag, k)
    ensures Reaches(start, after) && On(after, trip, InProgress, BlobUploading) && Held(after, trip, left)
    ensures |after.parts[trip.s]| == |db.parts[trip.s]|
    ensures ReceivedUpTo(after.parts[trip.s], trip.etag, |after.parts[trip.s]|)
    ensures after.idempotency == db.idempotency
    decreases |db.parts[trip.s]| - k
  {
    hide Inv, Reaches, On, Held;
    assert trip.s in db.parts by { OnHasParts(db, trip); }
    if k < |db.parts[trip.s]| {
      var next := Records(start, db, trip, k, left + |db.parts[trip.s]| - k);
      after := Uploads(start, next, trip, k + 1, left);
    } else {
      after := db;
    }
  }

  lemma OnHasParts(db: Db, trip: Trip)
    requires On(db, trip, InProgress, BlobUploading)
    ensures trip.s in db.parts
  {
  }

  // ---------------------------------------------------------------- reconciliation

  /** The provider lists the first `n` parts as they were sent. */
  function Listed(parts: seq<PartRow>, etag: string, n: nat): (observations: seq<Observation>)
    requires n <= |parts|
    ensures |observations| == n
  {
    seq(n, i requires 0 <= i < n => Observation(i + 1, parts[i].size, etag, ChecksumBase64(parts[i].sha256)))
  }

  predicate Listable(parts: seq<PartRow>, etag: string) {
    && etag != ""
    && forall i :: 0 <= i < |parts| ==> parts[i].size > 0 && ChecksumToDigest(ChecksumBase64(parts[i].sha256)).Some?
  }

  lemma {:induction false} ListedIsWellFormed(parts: seq<PartRow>, etag: string, n: nat)
    requires n <= |parts| && Listable(parts, etag)
    ensures CheckObservations(Listed(parts, etag, n)).Pass?
  {
    hide ChecksumToDigest, ChecksumBase64;
    if n > 0 {
      ListedIsWellFormed(parts, etag, n - 1);
      assert Listed(parts, etag, n)[..n - 1] == Listed(parts, etag, n - 1);
    }
  }

  lemma {:induction false} ListedFinds(parts: seq<PartRow>, etag: string, n: nat, i: nat)
    requires i < n <= |parts|
    ensures ObservationFor(Listed(parts, etag, n), i + 1) == Some(Listed(parts, etag, n)[i])
  {
    hide ChecksumBase64;
    if i < n - 1 {
      assert Listed(parts, etag, n)[..n - 1] == Listed(parts, etag, n - 1);
      ListedFinds(parts, etag, n - 1, i);
    }
  }

  /** Listed as it was sent, a part agrees with everything known of it. */
  lemma ListedAgrees(part: PartRow, number: int, etag: string)
    requires PartSound(part) && part.responseEtag == Some(etag)
    ensures Agrees(part, Some(Observation(number, part.size, etag, ChecksumBase64(part.sha256))))
  {
    hide ChecksumBase64, IsDigest;
  }

  lemma AllListed(db: Db, trip: Trip)
    requires On(db, trip, InProgress, BlobUploading) && trip.etag != ""
    requires ReceivedUpTo(db.parts[trip.s], trip.etag, |db.parts[trip.s]|)
    ensures var parts := db.parts[trip.s];
      var observations := Listed(parts, trip.etag, |parts|);
      && CheckObservations(observations).Pass? && DistinctObservations(observations) && AllPlanned(parts, observations)
      && forall i :: 0 <= i < |parts| ==> Agrees(parts[i], ObservationFor(observations, parts[i].number))
  {
    hide Inv, ChecksumToDigest, ChecksumBase64, IsDigest, PartSound, Agrees, CheckObservations, ObservationFor;
    var parts := db.parts[trip.s];
    forall i | 0 <= i < |parts|
      ensures parts[i].size > 0 && ChecksumToDigest(ChecksumBase64(parts[i].sha256)).Some?
      ensures Agrees(parts[i], ObservationFor(Listed(parts, trip.etag, |parts|), parts[i].number))
    {
      PartOf(db, trip.s, i);
      ListedFinds(parts, trip.etag, |parts|, i);
      ListedAgrees(parts[i], i + 1, trip.etag);
    }
    ListedIsWellFormed(parts, trip.etag, |parts|);
  }

  lemma AllReconciled(parts: seq<PartRow>, observations: seq<Observation>, clock: int)
    requires forall i :: 0 <= i < |parts| ==> Agrees(parts[i], ObservationFor(observations, parts[i].number))
    ensures AllVerified(ReconcileAll(parts, observations, clock))
  {
    hide Agrees, ObservationFor;
    forall i | 0 <= i < |parts|
      ensures Reconciled(parts[i], ObservationFor(observations, parts[i].number), clock).state == PartVerified
    {
      AgreedIsVerified(parts[i], ObservationFor(observations, parts[i].number), clock);
    }
  }

  lemma AgreedIsVerified(part: PartRow, observation: Option<Observation>, clock: int)
    requires Agrees(part, observation)
    ensures Reconciled(part, observation, clock).state == PartVerified
  {
  }

  lemma Reconciles(start: Db, db: Db, trip: Trip, left: int) returns (after: Db)
    requires Reaches(start, db) && On(db, trip, InProgress, BlobUploading) && Held(db, trip, left) && left >= 1
    requires trip.etag != "" && ReceivedUpTo(db.parts[trip.s], trip.etag, |db.parts[trip.s]|)
    ensures Reaches(start, after) && On(after, trip, InProgress, BlobUploading) && Held(after, trip, left - 1)
    ensures AllVerified(after.parts[trip.s]) && after.idempotency == db.idempotency
  {
    hide Inv, Reconcile, Reaches, ReconcileAll, Listed, CheckObservations, DistinctObservations, Agrees, ReceivedUpTo;
    var at, parts := Tick(db, 0), db.parts[trip.s];
    var observations := Listed(parts, trip.etag, |parts|);
    AllListed(db, trip);
    AllReconciled(parts, observations, at.flush);
    ReconcileLeaves(db, trip.s, trip.owner, 1, observations, at);
    after := Reconcile(db, trip.s, trip.owner, 1, observations, at).value.db;
    GoOn(start, db, ReconcileOp(trip.s, trip.owner, 1, observations), at, after);
  }

  // -------------------------------------------------------------------- completion

  /** The completion lease of owner 0 runs for so many more seconds. */
  predicate Working(db: Db, trip: Trip, left: int) {
    Claimed(db, trip.s, 0, 1, db.clock + left)
  }

  ghost predicate InPhase(db: Db, trip: Trip, phase: Phase) {
    On(db, trip, Completing, BlobUploading) && db.sessions[trip.s].completionPhase == Some(phase)
  }

  lemma Accepts(start: Db, db: Db, trip: Trip, left: int) returns (after: Db)
    requires Reaches(start, db) && On(db, trip, InProgress, BlobUploading) && Held(db, trip, left) && left >= 1
    requires AllVerified(db.parts[trip.s]) && KeysBelow(db, 3)
    ensures Reaches(start, after) && InPhase(after, trip, Pending) && after.completion == map[] && KeysBelow(after, 4)
  {
    hide Inv, Accept, Reaches;
    var at := Tick(db, 0);
    E.AcceptDecides(db, trip.s, trip.owner, 1, 3, at, Accept(db, trip.s, trip.owner, 1, 3, at));
    after := Accept(db, trip.s, trip.owner, 1, 3, at).value.db;
    GoOn(start, db, AcceptOp(trip.s, trip.owner, 1, 3), at, after);
  }

  lemma Claims(start: Db, db: Db, trip: Trip, ttl: int) returns (after: Db)
    requires Reaches(start, db) && InPhase(db, trip, Pending) && db.completion == map[] && KeysBelow(db, 4) && ttl > 1
    ensures Reaches(start, after) && InPhase(after, trip, Pending) && KeysBelow(after, 4)
    ensures Working(after, trip, ttl - 1)
    ensures after.completion[trip.s].expiresAt == after.clock + ttl
  {
    hide Inv, ClaimWork, Reaches;
    var at := Tick(db, 0);
    A.ClaimDecides(db, 0, ttl, 1, at, ClaimWork(db, 0, ttl, 1, at));
    assert A.Waits(db, trip.s, at.now) && A.RunningCompletions(db, at.now) == {};
    after := ClaimWork(db, 0, ttl, 1, at).value.db;
    GoOn(start, db, ClaimWorkOp(0, ttl, 1), at, after);
  }

  const NO_FLAGS := PhaseFlags(false, false, false)

  predicate NextPhase(phase: Phase, target: Phase) {
    || (phase == Pending && target == Assembling)
    || (phase == Assembling && target == FinalPresent)
    || (phase == FinalPresent && target == FinalVerification)
  }

  lemma NextPhaseIsFree(phase: Phase, target: Phase)
    requires NextPhase(phase, target)
    ensures E.Moves(phase, target, NO_FLAGS)
  {
  }

  lemma Proceeds(start: Db, db: Db, trip: Trip, phase: Phase, target: Phase, left: int) returns (after: Db)
    requires Reaches(start, db) && InPhase(db, trip, phase) && KeysBelow(db, 4) && Working(db, trip, left) && left >= 1
    requires NextPhase(phase, target)
    ensures Reaches(start, after) && InPhase(after, trip, target) && KeysBelow(after, 4)
    ensures Working(after, trip, left - 1)
    ensures after.completion == db.completion && after.clock == db.clock + 1
  {
    hide Inv, SetPhase, Reaches, NextPhase, E.Moves, E.PhaseError;
    var at := Tick(db, 0);
    NextPhaseIsFree(phase, target);
    E.PhaseDecides(db, trip.s, 0, 1, target, NO_FLAGS, at, SetPhase(db, trip.s, 0, 1, target, NO_FLAGS, at));
    after := SetPhase(db, trip.s, 0, 1, target, NO_FLAGS, at).value.db;
    GoOn(start, db, SetPhaseOp(trip.s, 0, 1, target, NO_FLAGS), at, after);
  }

  function EvidenceOf(trip: Trip, at: int): Evidence {
    Evidence(trip.line.sha256, trip.line.size, trip.line.size, at, "verifier")
  }

  lemma Publishes(start: Db, db: Db, trip: Trip, left: int) returns (after: Db)
    requires Reaches(start, db) && InPhase(db, trip, FinalVerification) && KeysBelow(db, 4) && Working(db, trip, left)
    requires left >= 1 && SoundLine(trip.line)
    ensures Reaches(start, after) && On(after, trip, Completed, BlobAvailable) && KeysBelow(after, 4)
  {
    hide Inv, RecordVerified, Reaches, IsDigest;
    var at, evidence := Tick(db, 0), EvidenceOf(trip, 0);
    E.VerifiedDecides(db, trip.s, 0, 1, evidence, at, RecordVerified(db, trip.s, 0, 1, evidence, at));
    after := RecordVerified(db, trip.s, 0, 1, evidence, at).value.db;
    GoOn(start, db, RecordVerifiedOp(trip.s, 0, 1, evidence), at, after);
  }

  lemma Finalizes(start: Db, db: Db, trip: Trip) returns (after: Db)
    requires Reaches(start, db) && On(db, trip, Completed, BlobAvailable)
    ensures Reaches(start, after) && trip.v in after.versions && after.versions[trip.v].state == Ready
    ensures trip.s in after.sessions && after.sessions[trip.s].state == Completed
  {
    hide Inv, Finalize, Reaches;
    var at := Tick(db, 0);
    B.FinalizeDecides(db, trip.v, at, Finalize(db, trip.v, at));
    after := Finalize(db, trip.v, at).value.db;
    GoOn(start, db, FinalizeOp(trip.v), at, after);
  }

  // ------------------------------------------------------------- single-PUT attempts

  lemma TurnsAmbiguous(start: Db, db: Db, trip: Trip, left: int) returns (after: Db)
    requires Reaches(start, db) && On(db, trip, Initiating, BlobPending) && Held(db, trip, left) && left >= 1
    ensures Reaches(start, after) && On(after, trip, Failed, BlobPending) && after.idempotency == db.idempotency
  {
    hide Inv, MarkAmbiguous, Reaches;
    var at := Tick(db, 0);
    U.AmbiguousDecides(db, trip.s, trip.owner, 1, at, MarkAmbiguous(db, trip.s, trip.owner, 1, at));
    after := MarkAmbiguous(db, trip.s, trip.owner, 1, at).value.db;
    GoOn(start, db, MarkAmbiguousOp(trip.s, trip.owner, 1), at, after);
  }

  /** Session `r` is a single-PUT attempt at the file. */
  ghost predicate Attempt(db: Db, line: ManifestLine, v: Id, b: Id, r: Id, state: SessionState) {
    && Scene(db, line, v, b) && IsSingle(db, r) && db.sessions[r].state == state
    && db.sessions[r].blobId == b && db.sessions[r].versionId == v
  }

  lemma NoneActive(db: Db, b: Id)
    requires forall s :: s in db.sessions ==> !Active(db.sessions[s].state)
    ensures ActiveSession(db, b, db.nextId).None?
  {
  }

  lemma SceneIsSound(db: Db, line: ManifestLine, v: Id, b: Id)
    requires Scene(db, line, v, b)
    ensures Inv(db) && b in db.blobs && v in db.versions
  {
  }

  lemma Unbound(db: Db, n: Id, key: Key)
    requires KeysBelow(db, n) && key.request == n
    ensures key !in db.idempotency
  {
  }

  lemma FirstPreparedIs(db: Db, line: ManifestLine, v: Id, b: Id, n: Id, at: Instants)
    requires Scene(db, line, v, b) && KeysBelow(db, n) && Inv(FirstPrepared(db, v, b, n, Sha(""), at))
    ensures var after := FirstPrepared(db, v, b, n, Sha(""), at);
      && Attempt(after, line, v, b, db.nextId, Created) && KeysBelow(after, n + 1)
      && after.sessions == db.sessions[db.nextId := EmptySession(b, v, SinglePut, at.wall)]
      && after.blobs == db.blobs && after.versions == db.versions && after.nextId == db.nextId + 1
  {
    hide Inv;
  }

  lemma Prepares(start: Db, db: Db, line: ManifestLine, v: Id, b: Id, n: Id, wall: int) returns (after: Db)
    requires Reaches(start, db) && Scene(db, line, v, b) && KeysBelow(db, n) && db.blobs[b].state == BlobPending
    requires forall s :: s in db.sessions ==> !Active(db.sessions[s].state)
    ensures Reaches(start, after) && Attempt(after, line, v, b, db.nextId, Created) && KeysBelow(after, n + 1)
    ensures after.sessions == db.sessions[db.nextId := EmptySession(b, v, SinglePut, wall)]
    ensures after.blobs == db.blobs && after.versions == db.versions && after.nextId == db.nextId + 1
  {
    hide Inv, Prepare, Reaches, FirstPrepared, Attempt, EmptySession, KeysBelow, Scene, Active;
    var at := Tick(db, wall);
    NoneActive(db, b);
    SceneIsSound(db, line, v, b);
    Unbound(db, n, Key(PrepareScope, n));
    PrepareLeaves(db, line, v, b, n, Sha(""), at);
    FirstPreparedIs(db, line, v, b, n, at);
    after := FirstPrepared(db, v, b, n, Sha(""), at);
    GoOn(start, db, PrepareOp(v, line.sha256, n, Sha("")), at, after);
  }

  lemma StartsAttempt(start: Db, db: Db, line: ManifestLine, v: Id, b: Id, r: Id) returns (after: Db)
    requires Reaches(start, db) && Attempt(db, line, v, b, r, Created) && db.blobs[b].state == BlobPending
    requires db.versions[v].state == Draft
    ensures Reaches(start, after) && Attempt(after, line, v, b, r, InProgress)
    ensures after.blobs[b].state == BlobUploading && after.versions[v].state == Uploading
    ensures after.sessions == db.sessions[r := S.OpenedSession(db.sessions[r], db.clock)]
    ensures after.idempotency == db.idempotency && after.nextId == db.nextId
  {
    hide Inv, MarkInProgress, Reaches;
    var at := Tick(db, db.clock);
    B.StartDecides(db, r, at, MarkInProgress(db, r, at));
    after := MarkInProgress(db, r, at).value.db;
    GoOn(start, db, MarkInProgressOp(r), at, after);
  }

  lemma FailsAttempt(start: Db, db: Db, line: ManifestLine, v: Id, b: Id, r: Id) returns (after: Db)
    requires Reaches(start, db) && Attempt(db, line, v, b, r, InProgress)
    requires db.versions[v].state == Uploading
    ensures Reaches(start, after) && Attempt(after, line, v, b, r, Failed)
    ensures after.blobs[b].state == BlobFailed && after.versions[v].state == VersionFailed
    ensures after.sessions == db.sessions[r := P.FailedSession(db.sessions[r], StoredObjectMismatch, db.clock)]
    ensures after.idempotency == db.idempotency && after.nextId == db.nextId
  {
    hide Inv, MarkFailed, Reaches;
    var at := Tick(db, db.clock);
    B.FailedDecides(db, r, StoredObjectMismatch, at, MarkFailed(db, r, StoredObjectMismatch, at));
    after := MarkFailed(db, r, StoredObjectMismatch, at).value.db;
    GoOn(start, db, MarkFailedOp(r, StoredObjectMismatch), at, after);
  }

  /** A multipart session on a Blob whose single-PUT attempt failed, created by a
      clock that shows `wall`. */
  lemma CreatesAfterFailure(start: Db, db: Db, line: ManifestLine, plan: PartPlan, v: Id, b: Id, n: Id, wall: int)
    returns (after: Db)
    requires Reaches(start, db) && Scene(db, line, v, b) && KeysBelow(db, n) && db.blobs[b].state == BlobFailed
    requires PlanCodec.ValidPlan(plan) && plan.blobSize == line.size
    requires forall s :: s in db.sessions ==> !Active(db.sessions[s].state)
    ensures Reaches(start, after) && Scene(after, line, v, b) && KeysBelow(after, n + 1)
    ensures after.sessions == db.sessions[db.nextId := NewMultipart(db, v, b, plan, wall)]
    ensures after.blobs == db.blobs && after.versions == db.versions && after.nextId == db.nextId + 1
  {
    hide Inv, CreateOrResolve, Reaches, PlanCodec.ValidPlan, MaxGeneration, PlanSha;
    var at := Tick(db, wall);
    NoneActive(db, b);
    assert References(db, v, b) by { assert EntriesOf(db, v)[0].blobId == b; }
    CreationLeaves(db, n, v, b, plan, at);
    after := CreateOrResolve(db, n, v, b, plan, at).value.db;
    GoOn(start, db, CreateOrResolveOp(n, v, b, plan), at, after);
  }
}
