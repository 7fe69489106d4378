/** Creating or resolving a multipart session. The store does not look at the
    Blob's state; the deferred publication check refuses a new session exactly
    on an AVAILABLE Blob. */
module CreateSafety {
  import opened Base
  import opened Flush
  import opened Guards
  import opened History
  import opened Insertion
  import opened Invariant
  import opened LeaseSafety
  import opened Multipart
  import opened PartRanges
  import opened RecoverySafety
  import opened Rewrite
  import opened Rows
  import opened Safety
  import opened Sealing
  import PlanCodec

  // ------------------------------------------------------------ the planned rows

  lemma PlannedDefinitions(plan: PartPlan)
    ensures Definitions(PlannedParts(plan)) == plan.parts
  {
  }

  /** The rows of a new session are frozen, sound, and accepted by the guards. */
  lemma NewRowsFrozen(db: Db, versionId: Id, blobId: Id, plan: PartPlan, at: int)
    requires PlanCodec.ValidPlan(plan)
    ensures var row := NewMultipart(db, versionId, blobId, plan, at);
      PlanFrozen(row, PlannedParts(plan), plan.blobSize) && SessionChecks(row)
  {
    PlannedDefinitions(plan);
    var row := NewMultipart(db, versionId, blobId, plan, at);
    MaxGenerationBounds(db, blobId, db.nextId);
    assert FrozenPlan(row, PlannedParts(plan), plan.blobSize) == plan;
    hide PlanCodec.ValidPlan, PlanSha, MaxGeneration;
    FrozenChecks(row, PlannedParts(plan), plan.blobSize);
  }

  lemma PlannedPartSound(plan: PartPlan, i: int)
    requires PlanCodec.ValidPlan(plan) && 0 <= i < |plan.parts|
    ensures PartSound(PlannedParts(plan)[i]) && PartChecks(PlannedParts(plan)[i])
    ensures ChecksumsMatchPlan(PlannedParts(plan)[i])
    ensures PlannedParts(plan)[i].state == PartPending
    ensures PlannedParts(plan)[i].number == i + 1
  {
    assert PlanCodec.ValidDefinition(plan.parts[i]);
    assert StepAccepted(plan.partSize, PlanCodec.Ranges(plan.parts), i);
  }

  lemma PlannedOffsets(plan: PartPlan, i: int, j: int)
    requires PlanCodec.ValidPlan(plan) && 0 <= i < j < |plan.parts|
    ensures plan.parts[i].range.offset < plan.parts[j].range.offset
  {
    var ranges := PlanCodec.Ranges(plan.parts);
    assert StepAccepted(plan.partSize, ranges, i) && StepAccepted(plan.partSize, ranges, j);
    PrefixGrows(plan, i, j);
  }

  lemma {:induction false} PrefixGrows(plan: PartPlan, i: int, j: int)
    requires PlanCodec.ValidPlan(plan) && 0 <= i < j <= |plan.parts|
    ensures SumSizes(PlanCodec.Ranges(plan.parts)[..i]) < SumSizes(PlanCodec.Ranges(plan.parts)[..j])
    decreases j
  {
    var ranges := PlanCodec.Ranges(plan.parts);
    assert PlanCodec.ValidDefinition(plan.parts[j - 1]);
    assert ranges[..j][..j - 1] == ranges[..j - 1];
    if i < j - 1 {
      PrefixGrows(plan, i, j - 1);
    }
  }

  lemma PlannedInsertable(db: Db, s: Id, row: SessionRow, plan: PartPlan)
    requires PlanCodec.ValidPlan(plan) && s in db.sessions && db.sessions[s] == row && s !in db.parts
    requires row.strategy == Multipart && row.state == Created && row.frozen.Some?
    requires row.frozen.value.plannedCount == |plan.parts|
    ensures InsertParts(db, s, PlannedParts(plan)) == Ok(db.(parts := db.parts[s := PlannedParts(plan)]))
    ensures PartsSound(PlannedParts(plan))
  {
    hide PlanCodec.ValidPlan, PartSound, PartChecks, ChecksumsMatchPlan;
    forall i | 0 <= i < |plan.parts|
      ensures PartInsertAllowed(row, PlannedParts(plan)[i]) && PartSound(PlannedParts(plan)[i])
    {
      PlannedPartSound(plan, i);
    }
    forall i, j | 0 <= i < j < |plan.parts|
      ensures PlannedParts(plan)[i].number != PlannedParts(plan)[j].number
      ensures PlannedParts(plan)[i].offset != PlannedParts(plan)[j].offset
    {
      PlannedPartSound(plan, i);
      PlannedPartSound(plan, j);
      PlannedOffsets(plan, i, j);
    }
  }

  // --------------------------------------------------------------- the free slot

  /** No session in the half-open id range means none at all. */
  lemma NoActiveSession(db: Db, blobId: Id)
    requires Inv(db) && ActiveSession(db, blobId, db.nextId).None?
    ensures ActiveSlotFree(db, blobId)
  {
    hide PairsOk, GenerationsOk, BlobsOk, VersionsOk, BindingsOk, MultipartSound, SingleSound, LeasesSound;
    forall s | s in db.sessions
      ensures !(db.sessions[s].blobId == blobId && Active(db.sessions[s].state))
    {
      assert SessionSound(db, s);
    }
  }

  lemma NextGenerationFree(db: Db, blobId: Id)
    requires Inv(db)
    ensures GenerationFree(db, blobId, MaxGeneration(db, blobId, db.nextId) + 1)
  {
    hide PairsOk, GenerationsOk, BlobsOk, VersionsOk, BindingsOk, MultipartSound, SingleSound, LeasesSound;
    MaxGenerationBounds(db, blobId, db.nextId);
    forall s | s in db.sessions
      ensures db.sessions[s].blobId == blobId && db.sessions[s].frozen.Some? ==>
        db.sessions[s].frozen.value.generation <= MaxGeneration(db, blobId, db.nextId)
    {
      assert SessionSound(db, s);
    }
  }

  // ------------------------------------------------------------------- creation

  /** The database after a new session and its parts, before its binding. */
  function Planned(db: Db, versionId: Id, blobId: Id, plan: PartPlan, at: int): Db
    requires blobId in db.blobs
  {
    Inserted(db, NewMultipart(db, versionId, blobId, plan, at), Some(PlannedParts(plan)), db.blobs[blobId])
  }

  /** With the session row alone. */
  function Opened(db: Db, versionId: Id, blobId: Id, plan: PartPlan, at: int): Db {
    db.(nextId := db.nextId + 1, sessions := db.sessions[db.nextId := NewMultipart(db, versionId, blobId, plan, at)])
  }

  predicate Creatable(db: Db, versionId: Id, blobId: Id, plan: PartPlan) {
    && PlanCodec.ValidPlan(plan)
    && blobId in db.blobs && versionId in db.versions && References(db, versionId, blobId)
    && db.blobs[blobId].size == plan.blobSize
    && ActiveSession(db, blobId, db.nextId).None?
  }

  /** Every row of a creation is accepted, and its context reads back. */
  lemma CreationWrites(db: Db, versionId: Id, blobId: Id, plan: PartPlan, at: int)
    requires Inv(db) && Creatable(db, versionId, blobId, plan)
    ensures InsertSession(db.(nextId := db.nextId + 1), db.nextId, NewMultipart(db, versionId, blobId, plan, at))
      == Ok(Opened(db, versionId, blobId, plan, at))
    ensures InsertParts(Opened(db, versionId, blobId, plan, at), db.nextId, PlannedParts(plan))
      == Ok(Planned(db, versionId, blobId, plan, at))
  {
    hide Inv, PlanCodec.ValidPlan, PartsSound, PlanFrozen, SessionChecks, InsertParts, ActiveSlotFree, GenerationFree;
    hide MaxGeneration, PlanSha;
    hide ActiveSession, References;
    var s, row := db.nextId, NewMultipart(db, versionId, blobId, plan, at);
    FreshId(db);
    NewRowsFrozen(db, versionId, blobId, plan, at);
    NoActiveSession(db, blobId);
    NextGenerationFree(db, blobId);
    SlotIgnoresCounter(db, blobId, row.frozen.value.generation);
    PlannedInsertable(Opened(db, versionId, blobId, plan, at), s, row, plan);
    assert db.blobs[blobId := db.blobs[blobId]] == db.blobs;
  }

  lemma SlotIgnoresCounter(db: Db, blobId: Id, generation: int)
    ensures var after := db.(nextId := db.nextId + 1);
      && ActiveSlotFree(after, blobId) == ActiveSlotFree(db, blobId)
      && GenerationFree(after, blobId, generation) == GenerationFree(db, blobId, generation)
  {
  }

  lemma CreationReads(db: Db, versionId: Id, blobId: Id, plan: PartPlan, key: Key, binding: IdempotencyRow, at: int)
    requires Inv(db) && Creatable(db, versionId, blobId, plan)
    ensures var after := Planned(db, versionId, blobId, plan, at);
      LoadContext(after.(idempotency := after.idempotency[key := binding]), db.nextId).Ok?
  {
    hide Inv, PlanCodec.ValidPlan, PartsSound, PlanFrozen, SessionChecks, LoadContext, MaxGeneration, PlanSha;
    hide ActiveSession, References;
    var row := NewMultipart(db, versionId, blobId, plan, at);
    NewRowsFrozen(db, versionId, blobId, plan, at);
    PlannedPartsSound(plan);
    var after := Planned(db, versionId, blobId, plan, at);
    ContextLoads(after.(idempotency := after.idempotency[key := binding]), db.nextId);
  }

  lemma PlannedPartsSound(plan: PartPlan)
    requires PlanCodec.ValidPlan(plan)
    ensures PartsSound(PlannedParts(plan))
  {
    hide PartSound, PlanCodec.ValidPlan;
    forall i | 0 <= i < |plan.parts|
      ensures PartSound(PlannedParts(plan)[i])
    {
      PlannedPartSound(plan, i);
    }
  }

  lemma CreationInsertable(db: Db, versionId: Id, blobId: Id, plan: PartPlan, at: int)
    requires Inv(db) && Creatable(db, versionId, blobId, plan) && db.blobs[blobId].state != BlobAvailable
    ensures Insertable(db, NewMultipart(db, versionId, blobId, plan, at), Some(PlannedParts(plan)), db.blobs[blobId])
  {
    hide Inv, PlanCodec.ValidPlan, PartsSound, PlanFrozen, SessionChecks, MaxGeneration, PlanSha, ActiveSession;
    hide References, ActiveSlotFree;
    NewRowsFrozen(db, versionId, blobId, plan, at);
    PlannedPartsSound(plan);
    NoActiveSession(db, blobId);
    BlobOf(db, blobId);
  }

  lemma BlobOf(db: Db, b: Id)
    requires Inv(db) && b in db.blobs
    ensures BlobSound(db, b)
  {
  }

  /** A new session on an AVAILABLE Blob never passes the deferred check. */
  lemma NoSessionOnAvailable(db: Db, s: Id, blobId: Id, commit: int)
    requires blobId in db.blobs && db.blobs[blobId].state == BlobAvailable
    requires s in db.sessions && db.sessions[s].blobId == blobId && db.sessions[s].strategy == Multipart
    requires Active(db.sessions[s].state)
    ensures !PublicationConsistent(db, blobId, commit)
  {
    assert HasMultipart(db, blobId) && HasNonterminal(db, blobId);
  }

  predicate CreateRefused(db: Db, request: Id, versionId: Id, blobId: Id, plan: PartPlan) {
    && Key(ResolveScope, request) !in db.idempotency
    && Creatable(db, versionId, blobId, plan)
    && db.blobs[blobId].state == BlobAvailable
  }

  /** A creation or resolution is refused exactly when it would start a session
      on an AVAILABLE Blob. */
  lemma CreateOrResolveSafe(db: Db, request: Id, versionId: Id, blobId: Id, plan: PartPlan, at: Instants)
    requires Inv(db) && ValidInstants(db, at)
    ensures SafeUnless(db, CreateOrResolve(db, request, versionId, blobId, plan, at), CreateRefused(db, request, versionId, blobId, plan), CommitRejected)
  {
    hide Inv, Advances, PlanCodec.ValidPlan, LoadContext, InsertSession, InsertParts, References, PlanSha, Planned;
    hide Opened, NewMultipart, Commit, Finish;
    var key, payload := Key(ResolveScope, request), ResolveRequest(versionId, blobId, PlanSha(plan));
    if PlanCodec.ValidPlan(plan) {
      if key in db.idempotency {
        if IsMultipart(db, db.idempotency[key].resourceId) {
          ReplayResolves(db, db.idempotency[key].resourceId, at);
        }
      } else if && blobId in db.blobs && versionId in db.versions && References(db, versionId, blobId)
                && db.blobs[blobId].size == plan.blobSize {
        match ActiveSession(db, blobId, db.nextId)
        case Some(s) => ResolveBinds(db, s, blobId, key, IdempotencyRow(payload, s, None), at);
        case None => CreationCommits(db, request, versionId, blobId, plan, at);
      }
    }
  }

  lemma ReplayResolves(db: Db, s: Id, at: Instants)
    requires Inv(db) && ValidInstants(db, at) && IsMultipart(db, s)
    ensures LoadContext(db, s).Ok?
    ensures var done := Finish(db, at, LoadContext(db, s).value); Inv(done.db) && Advances(db, done.db)
  {
    hide Inv, Advances, LoadContext;
    InvAfterTime(db, db.clock);
    ContextOf(db, s, db.clock);
    InvAfterTime(db, at.commit);
  }

  /** An unfinished multipart session of the Blob takes the new binding. */
  lemma ResolveBinds(db: Db, s: Id, blobId: Id, key: Key, binding: IdempotencyRow, at: Instants)
    requires Inv(db) && ValidInstants(db, at) && key !in db.idempotency && s in db.sessions
    requires db.sessions[s].blobId == blobId
    requires key.scope == ResolveScope && binding.request.ResolveRequest? && binding.request.blobId == blobId
    requires binding.resourceId == s
    ensures db.sessions[s].strategy == Multipart && db.sessions[s].frozen.Some? && db.sessions[s].frozen.value.planSha == binding.request.planSha ==>
      var bound := db.(idempotency := db.idempotency[key := binding]);
      LoadContext(bound, s).Ok? &&
      var done := Finish(bound, at, LoadContext(bound, s).value); Inv(done.db) && Advances(db, done.db)
  {
    hide Inv, Advances, LoadContext;
    if db.sessions[s].strategy == Multipart && db.sessions[s].frozen.Some? && db.sessions[s].frozen.value.planSha == binding.request.planSha {
      InvAfterBinding(db, key, binding);
      var bound := db.(idempotency := db.idempotency[key := binding]);
      ReplayResolves(bound, s, at);
      AdvancesTransitive(db, bound, bound.(clock := at.commit));
    }
  }

  lemma CreationCommits(db: Db, request: Id, versionId: Id, blobId: Id, plan: PartPlan, at: Instants)
    requires Inv(db) && ValidInstants(db, at) && Creatable(db, versionId, blobId, plan)
    requires Key(ResolveScope, request) !in db.idempotency
    ensures SafeUnless(db, CreateOrResolve(db, request, versionId, blobId, plan, at), CreateRefused(db, request, versionId, blobId, plan), CommitRejected)
    ensures db.blobs[blobId].state != BlobAvailable ==> CreateOrResolve(db, request, versionId, blobId, plan, at).Ok?
  {
    hide Inv, Advances, PlanCodec.ValidPlan, LoadContext, InsertSession, InsertParts, References, PlanSha, Commit;
    hide MaxGeneration, ActiveSession, BindingSound;
    var key, s := Key(ResolveScope, request), db.nextId;
    var binding := IdempotencyRow(ResolveRequest(versionId, blobId, PlanSha(plan)), s, None);
    CreationWrites(db, versionId, blobId, plan, at.wall);
    CreationReads(db, versionId, blobId, plan, key, binding, at.wall);
    var planned := Planned(db, versionId, blobId, plan, at.wall);
    var bound := planned.(idempotency := planned.idempotency[key := binding]);
    if db.blobs[blobId].state == BlobAvailable {
      NoSessionOnAvailable(bound, s, blobId, at.commit);
      CommitFails(bound, blobId, at, LoadContext(bound, s).value);
    } else {
      CreationInsertable(db, versionId, blobId, plan, at.wall);
      InsertionKeepsInv(db, NewMultipart(db, versionId, blobId, plan, at.wall), Some(PlannedParts(plan)), db.blobs[blobId], at.commit);
      NewBinding(planned.(clock := at.commit), key, binding, s);
      BindsNew(db, planned, key, binding, at, LoadContext(bound, s).value);
      CommitPasses(bound, blobId, at, LoadContext(bound, s).value);
    }
  }

  lemma NewBinding(db: Db, key: Key, binding: IdempotencyRow, s: Id)
    requires key.scope == ResolveScope && binding.request.ResolveRequest? && binding.resourceId == s
    requires IsMultipart(db, s)
    requires db.sessions[s].blobId == binding.request.blobId && db.sessions[s].frozen.Some?
    requires db.sessions[s].frozen.value.planSha == binding.request.planSha
    ensures BindingSound(db, key, binding)
  {
  }

  lemma CommitFails<T>(db: Db, blobId: Id, at: Instants, value: T)
    requires !PublicationConsistent(db, blobId, at.commit)
    ensures Commit(db, blobId, at, value) == Err(CommitRejected)
  {
  }
}
