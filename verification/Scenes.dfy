/** One Dataset, one file, one Blob: what each transaction of its upload does, step
    by step, so that runs can be put together from them. */
module Scenes {
  import opened Base
  import opened Digest
  import opened Flush
  import opened Guards
  import opened History
  import opened Insertion
  import opened Invariant
  import opened Multipart
  import opened PartRanges
  import opened Registry
  import opened Rows
  import opened Runs
  import G = RegisterSafety
  import L = LeaseSafety
  import N = CreateSafety
  import P = PublishSafety
  import PlanCodec
  import U = UploadSafety

  // --------------------------------------------------------------- the first file

  /** A registry with one Version of one file, whose Blob is `b`. */
  ghost predicate Scene(db: Db, line: ManifestLine, v: Id, b: Id) {
    && Inv(db)
    && v in db.versions && EntriesOf(db, v) == [EntryRow(line.path, b)]
    && b in db.blobs && db.blobs[b].sha256 == line.sha256 && db.blobs[b].size == line.size
  }

  /** Nothing but the file was ever registered. */
  ghost predicate Registered(db: Db, line: ManifestLine, v: Id, b: Id) {
    && Scene(db, line, v, b)
    && db.versions[v].state == Draft && db.blobs[b].state == BlobPending
    && db.sessions == map[] && db.parts == map[] && db.admission == map[] && db.completion == map[]
    && db.idempotency.Keys == {Key(RegisterScope, 0)} && db.nextId == b + 1
  }

  lemma FreshListing(db: Db, draft: VersionRow, line: ManifestLine)
    requires Fresh(db) && SoundLine(line) && draft.sealedAt.None?
    ensures var v := db.nextId;
      var inserted := db.(nextId := v + 1, versions := map[v := draft]);
      InsertEntries(inserted, v, [line]) ==
        Ok(Done(inserted.(nextId := v + 2, blobs := map[v + 1 := PendingBlob(line)]), [EntryRow(line.path, v + 1)]))
  {
    hide IsDigest;
    var v := db.nextId;
    var inserted := db.(nextId := v + 1, versions := map[v := draft]);
    assert [line][..0] == [] && [] + [EntryRow(line.path, v + 1)] == [EntryRow(line.path, v + 1)];
    assert InsertEntries(inserted, v, []) == Ok(Done(inserted, []));
    assert GetOrCreateBlob(inserted, line) == Ok(Done(inserted.(nextId := v + 2, blobs := map[v + 1 := PendingBlob(line)]), v + 1));
  }

  /** The rows a registration leaves. */
  function Sealed(db: Db, datasetId: Id, lines: seq<ManifestLine>, listed: Done<seq<EntryRow>>, key: Key,
                  payload: Request, at: Instants): Db {
    var sealed := G.Listed(db, listed.db, G.DraftVersion(db, datasetId, lines).(sealedAt := Some(at.wall)), listed.value);
    sealed.(idempotency := sealed.idempotency[key := IdempotencyRow(payload, db.nextId, None)], clock := at.commit)
  }

  /** A new manifest whose entries can be listed is sealed. */
  lemma RegisterCommits(db: Db, datasetId: Id, lines: seq<ManifestLine>, listed: Done<seq<EntryRow>>, request: Id,
                        fingerprint: Sha, at: Instants)
    requires Inv(db) && ValidInstants(db, at) && G.Registrable(db, datasetId, lines)
    requires Key(RegisterScope, request) !in db.idempotency
    requires var draft := G.DraftVersion(db, datasetId, lines);
      InsertEntries(db.(nextId := db.nextId + 1, versions := db.versions[db.nextId := draft]), db.nextId, lines) == Ok(listed)
    ensures var after := Sealed(db, datasetId, lines, listed, Key(RegisterScope, request), RegisterRequest(fingerprint), at);
      Register(db, datasetId, lines, request, fingerprint, at) == Ok(Done(after, db.nextId)) && Inv(after)
  {
    hide Inv, Advances, SoundLines, InsertEntries, PutVersion, InsertVersion, RequireSealed, VersionByManifest;
    hide MaxVersionNumber, ManifestTotals;
    var draft := G.DraftVersion(db, datasetId, lines);
    G.DraftInserted(db, datasetId, lines);
    G.SealedKeepsInv(db, datasetId, lines, listed, at.wall);
    G.SealedBinds(db, listed, draft.(sealedAt := Some(at.wall)), Key(RegisterScope, request), RegisterRequest(fingerprint), at);
  }

  lemma RegisterLeads(db: Db, datasetId: Id, line: ManifestLine, fingerprint: Sha, at: Instants)
    requires Fresh(db) && datasetId in db.datasets && SoundLine(line) && ValidInstants(db, at)
    ensures var result := Register(db, datasetId, [line], 0, fingerprint, at);
      result.Ok? && result.value.db.clock == at.commit && Registered(result.value.db, line, db.nextId, db.nextId + 1)
  {
    hide Inv, SoundLine, InsertEntries, MaxVersionNumber, ManifestTotals, VersionByManifest, Register;
    FreshSatisfiesInv(db);
    var draft := G.DraftVersion(db, datasetId, [line]);
    FreshListing(db, draft, line);
    VersionsEmpty(db, datasetId, [line]);
    var inserted := db.(nextId := db.nextId + 1, versions := map[db.nextId := draft]);
    var listed := Done(inserted.(nextId := db.nextId + 2, blobs := map[db.nextId + 1 := PendingBlob(line)]), [EntryRow(line.path, db.nextId + 1)]);
    RegisterCommits(db, datasetId, [line], listed, 0, fingerprint, at);
  }

  lemma VersionsEmpty(db: Db, datasetId: Id, lines: seq<ManifestLine>)
    requires db.versions == map[]
    ensures VersionByManifest(db, datasetId, lines, db.nextId).None?
  {
  }

  lemma IdBelow(db: Db, s: Id)
    requires Inv(db) && s in db.sessions
    ensures s < db.nextId
  {
    hide Inv, MultipartSound, SingleSound, LeasesSound;
    SoundOf(db, s);
  }

  // ------------------------------------------------------- what each step leaves

  lemma CreationLeaves(db: Db, request: Id, v: Id, b: Id, plan: PartPlan, at: Instants)
    requires Inv(db) && ValidInstants(db, at) && N.Creatable(db, v, b, plan) && db.blobs[b].state != BlobAvailable
    requires Key(ResolveScope, request) !in db.idempotency
    ensures var result, s := CreateOrResolve(db, request, v, b, plan, at), db.nextId;
      result.Ok? && Inv(result.value.db) &&
      result.value.db == db.(
        clock := at.commit, nextId := s + 1, sessions := db.sessions[s := NewMultipart(db, v, b, plan, at.wall)],
        parts := db.parts[s := PlannedParts(plan)],
        idempotency := db.idempotency[Key(ResolveScope, request) := IdempotencyRow(ResolveRequest(v, b, PlanSha(plan)), s, None)])
  {
    hide Inv, Advances, PlanCodec.ValidPlan, LoadContext, InsertSession, InsertParts, References, PlanSha, Commit;
    hide MaxGeneration, ActiveSession;
    N.CreationCommits(db, request, v, b, plan, at);
    N.CreationWrites(db, v, b, plan, at.wall);
    assert db.blobs[b := db.blobs[b]] == db.blobs;
  }

  /** The first admission lease of a session, with the record of its request. */
  function Granted(db: Db, request: Id, s: Id, ttl: int, at: Instants): Db {
    var lease := AdmissionLease(0, db.nextId, 1, at.now, at.now, at.now + ttl);
    db.(clock := at.commit, nextId := db.nextId + 1, admission := map[s := lease],
        idempotency := db.idempotency[Key(AcquireScope, request) :=
          IdempotencyRow(AcquireRequest(s, 0), s, Some(AdmissionAnswer(s, lease)))])
  }

  lemma AcquireLeaves(db: Db, request: Id, s: Id, ttl: int, at: Instants)
    requires Inv(db) && ValidInstants(db, at) && IsMultipart(db, s) && UploadOwned(db.sessions[s].state)
    requires db.admission == map[] && Key(AcquireScope, request) !in db.idempotency && ttl > 0
    ensures Database(Acquire(db, request, 0, s, ttl, 1, at)) == Ok(Granted(db, request, s, ttl, at))
    ensures Inv(Granted(db, request, s, ttl, at))
  {
    hide Inv, Advances, AdmissionUpdateAllowed;
    L.AcquireSafe(db, request, 0, s, ttl, 1, at);
    assert LiveAdmissions(db, at.now) == {};
  }

  lemma ReconcileLeaves(db: Db, s: Id, owner: Id, epoch: int, observations: seq<Observation>, at: Instants)
    requires Inv(db) && ValidInstants(db, at)
    requires CheckObservations(observations).Pass? && DistinctObservations(observations)
    requires AdmittedIn(db, s, owner, epoch, InProgress, at.now) && AllPlanned(PartsOf(db, s), observations)
    ensures var result := Reconcile(db, s, owner, epoch, observations, at);
      result.Ok? && Inv(result.value.db) && s in db.parts
      && result.value.db == db.(
           clock := at.commit, sessions := db.sessions[s := Reconciling(db.sessions[s], at.flush)],
           parts := db.parts[s := ReconcileAll(db.parts[s], observations, at.flush)])
  {
    hide Inv, Advances, SessionUpdateAllowed, PartsUpdateAllowed, Commit, Reconciling, CheckObservations;
    hide DistinctObservations, AllPlanned, ObserveAll, ReconcileAll, Resolved;
    U.ReconcileSafe(db, s, owner, epoch, observations, at);
    var observed, rows := ObserveAll(PartsOf(db, s), observations, at.flush), ReconcileAll(PartsOf(db, s), observations, at.flush);
    assert db.parts[s := observed][s := rows] == db.parts[s := rows];
  }

  // -------------------------------------------------------------- single-PUT steps

  /** The first session of a Blob, with the binding of its request. */
  function FirstPrepared(db: Db, v: Id, b: Id, request: Id, fingerprint: Sha, at: Instants): Db {
    var s := db.nextId;
    db.(clock := at.commit, nextId := s + 1, sessions := db.sessions[s := EmptySession(b, v, SinglePut, at.wall)],
        idempotency := db.idempotency[Key(PrepareScope, request) := IdempotencyRow(PrepareRequest(fingerprint), s, None)])
  }

  lemma PrepareLeaves(db: Db, line: ManifestLine, v: Id, b: Id, request: Id, fingerprint: Sha, at: Instants)
    requires Scene(db, line, v, b) && ValidInstants(db, at) && Key(PrepareScope, request) !in db.idempotency
    requires db.blobs[b].state == BlobPending && ActiveSession(db, b, db.nextId).None?
    ensures Database(Prepare(db, v, line.sha256, request, fingerprint, at)) == Ok(FirstPrepared(db, v, b, request, fingerprint, at))
    ensures Inv(FirstPrepared(db, v, b, request, fingerprint, at))
  {
    hide Inv, Advances, InsertSession, BindPrepared, Commit, ActiveSession, EmptySession;
    FindsBlob(db, line, v, b);
    NoneStarted(db, b);
    var key, payload := Key(PrepareScope, request), PrepareRequest(fingerprint);
    P.PrepareCreates(db, v, b, key, payload, at);
    FirstRow(db, v, b, at.wall, key, payload);
  }

  lemma FindsBlob(db: Db, line: ManifestLine, v: Id, b: Id)
    requires Scene(db, line, v, b)
    ensures ReferencedBlob(db, EntriesOf(db, v), line.sha256) == Some(b)
  {
    hide Inv;
  }

  lemma NoneStarted(db: Db, b: Id)
    requires Inv(db) && ActiveSession(db, b, db.nextId).None?
    ensures StartedSession(db, b, db.nextId).None?
  {
    hide Inv, MultipartSound, SingleSound, LeasesSound;
    var started := StartedSession(db, b, db.nextId);
    if started.Some? {
      SoundOf(db, started.value);
    }
  }

  lemma FirstRow(db: Db, v: Id, b: Id, at: int, key: Key, payload: Request)
    ensures var s, row := db.nextId, EmptySession(b, v, SinglePut, at);
      var created := InsertSession(db.(nextId := s + 1), s, row);
      created.Ok? ==>
        && created.value == db.(nextId := s + 1, sessions := db.sessions[s := row])
        && (key !in db.idempotency ==>
              BindPrepared(created.value, key, payload, b, s) ==
                Ok(created.value.(idempotency := db.idempotency[key := IdempotencyRow(payload, s, None)])))
  {
    hide SessionChecks, ActiveSlotFree;
  }
}
