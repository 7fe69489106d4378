/** Creation, field by field: the rows a new multipart session begins with, the
    session an old one resolves to, and what a repeated request answers. */
module CreationEffects {
  import opened Base
  import opened CompletionEffects
  import opened Flush
  import opened History
  import opened Insertion
  import opened Invariant
  import opened Multipart
  import opened PartRanges
  import opened Registry
  import opened Rows
  import N = CreateSafety
  import PlanCodec

  /** An unfinished session of the Blob, of either strategy. */
  predicate Unfinished(db: Db, b: Id, s: Id) {
    && s in db.sessions && db.sessions[s].blobId == b
    && db.sessions[s].state in {Created, Initiating, InProgress, Completing, Aborting}
  }

  predicate IsUnfinished(db: Db, b: Id) {
    exists s :: s in db.sessions && Unfinished(db, b, s)
  }

  /** The plan is canonical and sized for a Blob that the Version references. */
  predicate Plannable(db: Db, v: Id, b: Id, plan: PartPlan) {
    && PlanCodec.ValidPlan(plan) && b in db.blobs && v in db.versions && v in db.entries
    && (exists i :: 0 <= i < |db.entries[v]| && db.entries[v][i].blobId == b)
    && db.blobs[b].size == plan.blobSize
  }

  /** The session was frozen from this very plan. */
  predicate FrozenFrom(row: SessionRow, plan: PartPlan) {
    row.strategy == Multipart && row.frozen.Some? && row.frozen.value.planSha == Sha(PlanCodec.CanonicalText(plan))
  }

  /** One more than the highest generation of the Blob's sessions. */
  ghost predicate NextGeneration(db: Db, b: Id, generation: int) {
    && (forall s :: s in db.sessions ==> GenerationOf(db.sessions[s], b) < generation)
    && (generation == 1 || exists s :: s in db.sessions && GenerationOf(db.sessions[s], b) == generation - 1)
  }

  function GenerationOf(row: SessionRow, b: Id): int {
    if row.blobId == b && row.frozen.Some? then row.frozen.value.generation else 0
  }

  /** A CREATED session with the plan frozen and everything else unset. */
  predicate NewSession(row: SessionRow, v: Id, b: Id, plan: PartPlan, generation: int, wall: int) {
    && row.blobId == b && row.versionId == v && row.strategy == Multipart && row.state == Created
    && row.frozen == Some(Frozen(generation, plan.partSize, |plan.parts|, plan.schema, Sha(PlanCodec.CanonicalText(plan))))
    && row.createdAt == wall && row.lastActivityAt == wall
    && row.provider.None? && row.initiationStartedAt.None? && row.initiationAmbiguousAt.None?
    && row.completionRequestedAt.None? && row.completionReason.None? && row.completionPhase.None?
    && row.completionAttemptedAt.None? && row.lastResult.None? && row.reconciledAt.None? && row.finalAbsenceAt.None?
    && row.invalidatedAt.None? && row.evidence.None? && row.abortRequestedAt.None? && row.failure.None?
    && row.etag.None? && row.completedAt.None?
  }

  /** A PENDING part for each planned range, with neither receipt nor evidence. */
  predicate NewPart(row: PartRow, part: PartDefinition) {
    && row.number == part.range.number && row.offset == part.range.offset && row.size == part.range.size
    && row.sha256 == part.sha256 && row.state == PartPending
    && row.responseEtag.None? && row.responseChecksum.None? && row.responseAt.None? && row.uploadedAt.None?
    && row.listedEtag.None? && row.listedChecksum.None? && row.listedSize.None? && row.listedAt.None?
    && row.verifiedAt.None? && row.lastError.None?
  }

  /** The rows of a new session, which belongs to no one yet. */
  ghost predicate CreationLeaves(db: Db, request: Id, v: Id, b: Id, plan: PartPlan, at: Instants, done: Done<Context>) {
    var s := done.value.sessionId;
    && s !in db.sessions && s !in db.parts && s !in db.admission && s !in db.completion
    && s in done.db.sessions && s in done.db.parts
    && (exists generation :: NextGeneration(db, b, generation) && NewSession(done.db.sessions[s], v, b, plan, generation, at.wall))
    && |done.db.parts[s]| == |plan.parts|
    && (forall i :: 0 <= i < |plan.parts| ==> NewPart(done.db.parts[s][i], plan.parts[i]))
    && done.db == db.(
         clock := at.commit, nextId := done.db.nextId, sessions := db.sessions[s := done.db.sessions[s]],
         parts := db.parts[s := done.db.parts[s]],
         idempotency := db.idempotency[Key(ResolveScope, request) :=
           IdempotencyRow(ResolveRequest(v, b, Sha(PlanCodec.CanonicalText(plan))), s, None)])
    && Describes(done.db, s, done.value)
  }

  /** A new request that finds an unfinished session is bound to it. */
  ghost predicate ResolutionLeaves(db: Db, request: Id, v: Id, b: Id, plan: PartPlan, at: Instants, done: Done<Context>) {
    var s := done.value.sessionId;
    && Unfinished(db, b, s)
    && done.db == db.(
         clock := at.commit,
         idempotency := db.idempotency[Key(ResolveScope, request) :=
           IdempotencyRow(ResolveRequest(v, b, Sha(PlanCodec.CanonicalText(plan))), s, None)])
    && Describes(done.db, s, done.value)
  }

  function CreateError(db: Db, v: Id, b: Id, plan: PartPlan): Error {
    if !PlanCodec.ValidPlan(plan) then Rows.ManifestMismatch
    else if !(b in db.blobs && v in db.versions && References(db, v, b)) then NotFound
    else if db.blobs[b].size != plan.blobSize || IsUnfinished(db, b) then ContentConflict
    else CommitRejected
  }

  lemma UnfinishedIsActive(db: Db, b: Id)
    requires Inv(db)
    ensures ActiveSession(db, b, db.nextId).Some? <==> IsUnfinished(db, b)
    ensures forall s: Id :: Unfinished(db, b, s) ==> ActiveSession(db, b, db.nextId) == Some(s)
  {
    hide PairsOk, GenerationsOk, BlobsOk, VersionsOk, BindingsOk, MultipartSound, SingleSound, LeasesSound;
    var found := ActiveSession(db, b, db.nextId);
    assert found.Some? ==> Unfinished(db, b, found.value);
    forall s: Id | Unfinished(db, b, s)
      ensures found == Some(s)
    {
      assert SessionSound(db, s);
      OneUnfinished(db, b, s, found.value);
    }
  }

  lemma OneUnfinished(db: Db, b: Id, s: Id, r: Id)
    requires Inv(db) && Unfinished(db, b, s) && Unfinished(db, b, r)
    ensures r == s
  {
    hide Inv;
    if r != s {
      SessionsAreCompatible(db, s, r);
    }
  }

  lemma SessionsAreCompatible(db: Db, s: Id, r: Id)
    requires Inv(db) && s in db.sessions && r in db.sessions && s != r
    ensures Compatible(db.sessions[s], db.sessions[r])
  {
    hide SessionsOk, GenerationsOk, BlobsOk, VersionsOk, BindingsOk, Compatible;
  }

  lemma GenerationIsNext(db: Db, b: Id)
    requires Inv(db)
    ensures NextGeneration(db, b, MaxGeneration(db, b, db.nextId) + 1)
  {
    hide PairsOk, GenerationsOk, BlobsOk, VersionsOk, BindingsOk, MultipartSound, SingleSound, LeasesSound;
    MaxGenerationBounds(db, b, db.nextId);
    var highest := MaxGeneration(db, b, db.nextId);
    forall s | s in db.sessions
      ensures GenerationOf(db.sessions[s], b) <= highest
    {
      assert SessionSound(db, s);
    }
    if highest > 0 {
      var s :| s in db.sessions && db.sessions[s].blobId == b && db.sessions[s].frozen.Some?
        && db.sessions[s].frozen.value.generation == highest;
      assert GenerationOf(db.sessions[s], b) == highest;
    }
  }

  lemma NewRows(db: Db, v: Id, b: Id, plan: PartPlan, wall: int)
    ensures NewSession(NewMultipart(db, v, b, plan, wall), v, b, plan, MaxGeneration(db, b, db.nextId) + 1, wall)
    ensures forall i :: 0 <= i < |plan.parts| ==> NewPart(PlannedParts(plan)[i], plan.parts[i])
  {
  }

  lemma NewIsMultipart(row: SessionRow, v: Id, b: Id, plan: PartPlan, generation: int, wall: int)
    requires NewSession(row, v, b, plan, generation, wall)
    ensures row.strategy == Multipart
  {
  }

  lemma FreshRows(db: Db)
    requires Inv(db)
    ensures db.nextId !in db.sessions && db.nextId !in db.parts && db.nextId !in db.admission && db.nextId !in db.completion
  {
    hide Inv;
    FreshId(db);
  }

  lemma CreationCase(db: Db, request: Id, v: Id, b: Id, plan: PartPlan, at: Instants, result: Result<Done<Context>, Error>)
    requires Inv(db) && ValidInstants(db, at) && result == CreateOrResolve(db, request, v, b, plan, at)
    requires Key(ResolveScope, request) !in db.idempotency && N.Creatable(db, v, b, plan)
    ensures if db.blobs[b].state != BlobAvailable then result.Ok? else result == Err(CommitRejected)
    ensures result.Ok? ==> CreationLeaves(db, request, v, b, plan, at, result.value)
  {
    hide Inv, Advances, PlanCodec.ValidPlan, LoadContext, InsertSession, InsertParts, References, Commit, MaxGeneration;
    hide ActiveSession, NewSession, NewPart, NextGeneration, PlannedParts, NewMultipart, PlanCodec.CanonicalText;
    N.CreationCommits(db, request, v, b, plan, at);
    N.CreationWrites(db, v, b, plan, at.wall);
    NewRows(db, v, b, plan, at.wall);
    GenerationIsNext(db, b);
    FreshRows(db);
    assert db.blobs[b := db.blobs[b]] == db.blobs;
    if result.Ok? {
      var s, done := db.nextId, result.value;
      assert NewSession(done.db.sessions[s], v, b, plan, MaxGeneration(db, b, db.nextId) + 1, at.wall);
      NewIsMultipart(done.db.sessions[s], v, b, plan, MaxGeneration(db, b, db.nextId) + 1, at.wall);
      ContextDescribes(done.db.(clock := db.clock), s, at.commit);
    }
  }

  lemma ReferencesByEntry(db: Db, v: Id, b: Id)
    ensures References(db, v, b) <==> v in db.entries && exists i :: 0 <= i < |db.entries[v]| && db.entries[v][i].blobId == b
  {
    if v in db.entries {
      assert EntriesOf(db, v) == db.entries[v];
      if i :| 0 <= i < |db.entries[v]| && db.entries[v][i].blobId == b {
        assert EntriesOf(db, v)[i].blobId == b;
      }
    }
  }

  lemma ResolutionCase(db: Db, request: Id, v: Id, b: Id, plan: PartPlan, s: Id, at: Instants, result: Result<Done<Context>, Error>)
    requires Inv(db) && ValidInstants(db, at) && result == CreateOrResolve(db, request, v, b, plan, at)
    requires Key(ResolveScope, request) !in db.idempotency && Plannable(db, v, b, plan) && ActiveSession(db, b, db.nextId) == Some(s)
    ensures if FrozenFrom(db.sessions[s], plan) then result.Ok? else result == Err(ContentConflict)
    ensures result.Ok? ==> ResolutionLeaves(db, request, v, b, plan, at, result.value)
  {
    hide Inv, Advances, PlanCodec.ValidPlan, LoadContext, ActiveSession, PlanCodec.CanonicalText;
    hide InsertSession, InsertParts, Commit, NewMultipart, PlannedParts;
    hide References;
    ReferencesByEntry(db, v, b);
    var key := Key(ResolveScope, request);
    var binding := IdempotencyRow(ResolveRequest(v, b, PlanSha(plan)), s, None);
    N.ResolveBinds(db, s, b, key, binding, at);
    if result.Ok? {
      ContextDescribes(Bind(db, key, binding), s, at.commit);
    }
  }

  /** A new request begins a session exactly when the Blob is free and not
      AVAILABLE, and joins the unfinished one exactly when that was frozen from the
      same plan. */
  lemma CreateDecides(db: Db, request: Id, v: Id, b: Id, plan: PartPlan, at: Instants, result: Result<Done<Context>, Error>)
    requires Inv(db) && ValidInstants(db, at) && result == CreateOrResolve(db, request, v, b, plan, at)
    requires Key(ResolveScope, request) !in db.idempotency
    ensures !IsUnfinished(db, b) ==> (result.Ok? <==> Plannable(db, v, b, plan) && db.blobs[b].state != BlobAvailable)
    ensures !IsUnfinished(db, b) && result.Ok? ==> CreationLeaves(db, request, v, b, plan, at, result.value)
    ensures forall s: Id :: Unfinished(db, b, s) ==>
      (result.Ok? <==> Plannable(db, v, b, plan) && FrozenFrom(db.sessions[s], plan))
    ensures IsUnfinished(db, b) && result.Ok? ==> ResolutionLeaves(db, request, v, b, plan, at, result.value)
    ensures result.Err? ==> result.error == CreateError(db, v, b, plan)
  {
    hide Inv, Advances, PlanCodec.ValidPlan, LoadContext, InsertSession, InsertParts, Commit, MaxGeneration, FrozenFrom;
    hide ActiveSession, PlanCodec.CanonicalText, NewMultipart, PlannedParts, CreationLeaves, ResolutionLeaves;
    hide References;
    ReferencesByEntry(db, v, b);
    UnfinishedIsActive(db, b);
    if Plannable(db, v, b, plan) {
      match ActiveSession(db, b, db.nextId)
      case Some(s) => ResolutionCase(db, request, v, b, plan, s, at, result);
      case None => CreationCase(db, request, v, b, plan, at, result);
    }
  }

  // ----------------------------------------------------------------- repetitions

  /** The request was made before, with this very payload. */
  predicate Repeated(db: Db, key: Key, payload: Request) {
    key in db.idempotency && db.idempotency[key].request == payload
  }

  /** A repeated creation answers with its session as it now stands; the request
      id with another payload is refused. */
  lemma CreateRepeats(db: Db, request: Id, v: Id, b: Id, plan: PartPlan, at: Instants, result: Result<Done<Context>, Error>)
    requires Inv(db) && ValidInstants(db, at) && result == CreateOrResolve(db, request, v, b, plan, at)
    requires Key(ResolveScope, request) in db.idempotency && PlanCodec.ValidPlan(plan)
    ensures if Repeated(db, Key(ResolveScope, request), ResolveRequest(v, b, Sha(PlanCodec.CanonicalText(plan))))
      then result.Ok? else result == Err(IdempotencyConflict)
    ensures result.Ok? ==>
      && result.value.db == db.(clock := at.commit)
      && Describes(result.value.db, db.idempotency[Key(ResolveScope, request)].resourceId, result.value.value)
  {
    hide Inv, Advances, PlanCodec.ValidPlan, LoadContext, PlanCodec.CanonicalText, BindingSound;
    var key := Key(ResolveScope, request);
    Bound(db, key);
    N.CreateOrResolveSafe(db, request, v, b, plan, at);
    var s := db.idempotency[key].resourceId;
    if IsMultipart(db, s) {
      N.ReplayResolves(db, s, at);
      ContextDescribes(db, s, at.commit);
    }
  }

  lemma Bound(db: Db, key: Key)
    requires Inv(db) && key in db.idempotency
    ensures key.scope == ResolveScope ==> IsMultipart(db, db.idempotency[key].resourceId)
    ensures key.scope == AcquireScope ==> db.idempotency[key].lease.Some?
    ensures key.scope == AcceptScope ==> db.idempotency[key].request == AcceptRequest(db.idempotency[key].resourceId)
    ensures key.scope == RegisterScope ==> db.idempotency[key].resourceId in db.versions
    ensures key.scope == PrepareScope ==> IsSingle(db, db.idempotency[key].resourceId)
  {
    hide SessionsOk, PairsOk, GenerationsOk, BlobsOk, VersionsOk;
    assert BindingSound(db, key, db.idempotency[key]);
  }

  /** A repeated acquisition answers with the lease it was first given, whatever
      has become of it, and leaves the lease row alone. */
  lemma AcquireRepeats(db: Db, request: Id, invocation: Id, s: Id, ttl: int, capacity: int, at: Instants,
                       result: Result<Done<AdmissionRecord>, Error>)
    requires Inv(db) && result == Acquire(db, request, invocation, s, ttl, capacity, at)
    requires Key(AcquireScope, request) in db.idempotency
    ensures ttl <= 0 || capacity <= 0 ==> result == Err(ContentConflict)
    ensures ttl > 0 && capacity > 0 ==>
      if Repeated(db, Key(AcquireScope, request), AcquireRequest(s, invocation)) then result.Ok? else result == Err(IdempotencyConflict)
    ensures result.Ok? ==>
      result.value.db == db.(clock := at.commit) && Some(result.value.value) == db.idempotency[Key(AcquireScope, request)].lease
  {
    hide Inv;
    Bound(db, Key(AcquireScope, request));
  }

  /** So does a repeated acceptance, even once its session is completed. */
  lemma AcceptRepeats(db: Db, s: Id, owner: Id, epoch: int, request: Id, at: Instants, result: Result<Done<Id>, Error>)
    requires Inv(db) && result == Accept(db, s, owner, epoch, request, at)
    requires Key(AcceptScope, request) in db.idempotency
    ensures result ==
      if Repeated(db, Key(AcceptScope, request), AcceptRequest(s)) then Ok(Done(db.(clock := at.commit), s)) else Err(IdempotencyConflict)
  {
    hide Inv;
    Bound(db, Key(AcceptScope, request));
  }
}
