/** The store object: tables held in fields that its methods update in place,
    statement by statement. Every public method commits what its specification
    function commits, and leaves all rows as they were when it raises. */
module Store {
  import opened Base
  import opened Digest
  import opened Flush
  import opened Guards
  import opened PartLoops
  import opened PartRanges
  import opened Rows
  import opened History
  import opened Invariant
  import opened Rewrite
  import opened Safety
  import C = CompletionSafety
  import G = RegisterSafety
  import L = LeaseSafety
  import M = Multipart
  import N = CreateSafety
  import P = PublishSafety
  import PlanCodec
  import R = Registry
  import S = SingleSafety
  import U = UploadSafety
  import V = RecoverySafety

  /** The method answered, and left the tables, as the specification says. */
  predicate Follows<T(==)>(spec: Result<Done<T>, Error>, result: Result<T, Error>, after: Db) {
    match spec
    case Ok(done) => result == Ok(done.value) && after == done.db
    case Err(error) => result == Err(error)
  }

  /** And a raised error left them as they were. */
  predicate Refines<T(==)>(before: Db, spec: Result<Done<T>, Error>, at: Instants, result: Result<T, Error>, after: Db) {
    Follows(spec, result, after) && (spec.Err? ==> after == before.(clock := at.commit))
  }

  /** On sound tables the method leaves sound ones, moves history forward, and
      meets a refusing guard in exactly the stated case, of the stated kind. */
  ghost predicate Keeps<T>(before: Db, at: Instants, result: Result<T, Error>, after: Db, refused: bool, refusal: Error) {
    Inv(before) && ValidInstants(before, at) ==> KeptSound(before, result, after, refused, refusal)
  }

  ghost predicate KeptSound<T>(before: Db, result: Result<T, Error>, after: Db, refused: bool, refusal: Error) {
    && Inv(after) && Advances(before, after)
    && (if refused then result.Err? && result.error == refusal else result.Err? ==> !Refused(result.error))
  }

  /** What is proved of a transaction holds of the method that refines it. */
  lemma RefinementKeeps<T>(before: Db, spec: Result<Done<T>, Error>, at: Instants, result: Result<T, Error>, after: Db,
                           refused: bool, refusal: Error)
    requires Refines(before, spec, at, result, after)
    requires Inv(before) && ValidInstants(before, at) ==>
      SafeUnless(before, spec, refused, refusal) || (!refused && Safe(before, spec))
    ensures Keeps(before, at, result, after, refused, refusal)
  {
    hide Inv, Advances;
    if Inv(before) && ValidInstants(before, at) {
      InvAfterTime(before, at.commit);
    }
  }

  class SqlAlchemyStore {
    var clock: int
    var nextId: Id
    var datasets: set<Id>
    var sessions: map<Id, SessionRow>
    var parts: map<Id, seq<PartRow>>
    var admission: map<Id, AdmissionLease>
    var completion: map<Id, CompletionLease>
    var blobs: map<Id, BlobRow>
    var versions: map<Id, VersionRow>
    var entries: map<Id, seq<EntryRow>>
    var idempotency: map<Key, IdempotencyRow>

    /** A registry that holds Datasets only. */
    constructor (datasets: set<Id>, clock: int, nextId: Id)
      ensures Snapshot() == Db(clock, nextId, datasets, map[], map[], map[], map[], map[], map[], map[], map[])
    {
      this.clock, this.nextId, this.datasets := clock, nextId, datasets;
      sessions, parts, admission, completion := map[], map[], map[], map[];
      blobs, versions, entries, idempotency := map[], map[], map[], map[];
    }

    function Snapshot(): Db
      reads this
    {
      Db(clock, nextId, datasets, sessions, parts, admission, completion, blobs, versions, entries, idempotency)
    }

    // ------------------------------------------------------------- transactions

    /** Leaving a transaction by an error puts every row back. */
    method Rollback(before: Db, at: Instants)
      modifies this
      ensures Snapshot() == before.(clock := at.commit)
    {
      nextId, datasets, sessions, parts := before.nextId, before.datasets, before.sessions, before.parts;
      admission, completion, blobs, versions := before.admission, before.completion, before.blobs, before.versions;
      entries, idempotency, clock := before.entries, before.idempotency, at.commit;
    }

    /** Commit after the deferred check on one Blob. */
    method CommitBlob<T(==)>(blobId: Id, at: Instants, value: T) returns (result: Result<T, Error>)
      modifies `clock
      ensures Follows(Commit(old(Snapshot()), blobId, at, value), result, Snapshot())
    {
      var consistent := PublicationConsistent(Snapshot(), blobId, at.commit);
      :- Require(consistent, CommitRejected);
      clock := at.commit;
      result := Ok(value);
    }

    // ------------------------------------------------------------------ flushes

    /** A flush either writes its rows or fails without writing. */
    static predicate Flushes(write: Result<Db, Error>, outcome: Check<Error>, after: Db) {
      match outcome
      case Pass => write == Ok(after)
      case Fail(error) => write == Err(error)
    }

    method FlushSession(s: Id, row: SessionRow) returns (outcome: Check<Error>)
      modifies `sessions
      ensures Flushes(PutSession(old(Snapshot()), s, row), outcome, Snapshot())
      ensures outcome.Pass? ==> sessions == old(sessions)[s := row]
    {
      outcome := Require(s in sessions && row.blobId in blobs
                         && SessionUpdateAllowed(sessions[s], row, PartsOf(Snapshot(), s), blobs[row.blobId]), TriggerRejected);
      if outcome.Pass? {
        sessions := sessions[s := row];
      }
    }

    method FlushParts(s: Id, rows: seq<PartRow>) returns (outcome: Check<Error>)
      modifies `parts
      ensures Flushes(PutParts(old(Snapshot()), s, rows), outcome, Snapshot())
    {
      outcome := Require(s in sessions && s in parts && PartsUpdateAllowed(sessions[s], parts[s], rows), TriggerRejected);
      if outcome.Pass? {
        parts := parts[s := rows];
      }
    }

    method FlushAdmission(s: Id, lease: AdmissionLease, at: Instants) returns (outcome: Check<Error>)
      modifies `admission
      ensures Flushes(PutAdmission(old(Snapshot()), s, lease, at), outcome, Snapshot())
    {
      outcome := Require(if s in admission then AdmissionUpdateAllowed(admission[s], lease, at.flush)
                         else lease.epoch == 1 && AdmissionChecks(lease), TriggerRejected);
      if outcome.Pass? {
        admission := admission[s := lease];
      }
    }

    method FlushCompletion(s: Id, lease: CompletionLease, at: Instants) returns (outcome: Check<Error>)
      modifies `completion
      ensures Flushes(PutCompletion(old(Snapshot()), s, lease, at), outcome, Snapshot())
    {
      outcome := Require(if s in completion then CompletionUpdateAllowed(completion[s], lease, at.flush)
                         else lease.epoch == 1 && CompletionChecks(lease), TriggerRejected);
      if outcome.Pass? {
        completion := completion[s := lease];
      }
    }

    method FlushBlob(b: Id, row: BlobRow) returns (outcome: Check<Error>)
      modifies `blobs
      ensures Flushes(PutBlob(old(Snapshot()), b, row), outcome, Snapshot())
    {
      outcome := Require(b in blobs && BlobUpdateAllowed(blobs[b], row), TriggerRejected);
      if outcome.Pass? {
        blobs := blobs[b := row];
      }
    }

    method FlushVersion(v: Id, row: VersionRow) returns (outcome: Check<Error>)
      modifies `versions
      ensures Flushes(PutVersion(old(Snapshot()), v, row), outcome, Snapshot())
    {
      outcome := Require(v in versions && VersionUpdateAllowed(versions[v], row, Recount(blobs, EntriesOf(Snapshot(), v))), TriggerRejected);
      if outcome.Pass? {
        versions := versions[v := row];
      }
    }

    method InsertSessionRow(s: Id, row: SessionRow) returns (outcome: Check<Error>)
      modifies `sessions
      ensures Flushes(InsertSession(old(Snapshot()), s, row), outcome, Snapshot())
    {
      if row.state != Created || !SessionChecks(row) {
        return Fail(TriggerRejected);
      }
      if s in sessions || !ActiveSlotFree(Snapshot(), row.blobId)
         || (row.frozen.Some? && !GenerationFree(Snapshot(), row.blobId, row.frozen.value.generation)) {
        return Fail(IndexViolated);
      }
      sessions := sessions[s := row];
      outcome := Pass;
    }

    /** Insert planned part rows one by one. */
    method InsertPartRows(s: Id, rows: seq<PartRow>) returns (outcome: Check<Error>)
      modifies `parts
      ensures Flushes(InsertParts(old(Snapshot()), s, rows), outcome, Snapshot())
    {
      for i := 0 to |rows|
        invariant Snapshot() == old(Snapshot())
        invariant i > 0 ==> s in sessions
        invariant forall j :: 0 <= j < i ==> PartInsertAllowed(sessions[s], rows[j])
      {
        if s !in sessions || !PartInsertAllowed(sessions[s], rows[i]) {
          return Fail(TriggerRejected);
        }
      }
      if s !in sessions {
        return Fail(TriggerRejected);
      }
      if s in parts || exists i, j :: 0 <= i < j < |rows| && (rows[i].number == rows[j].number || rows[i].offset == rows[j].offset) {
        return Fail(IndexViolated);
      }
      parts := parts[s := rows];
      outcome := Pass;
    }

    // -------------------------------------------------------- create or resolve

    method CreateOrResolveMultipart(request: Id, versionId: Id, blobId: Id, plan: PartPlan, at: Instants)
      returns (result: Result<M.Context, Error>)
      modifies this
      ensures Refines(old(Snapshot()),
                      M.CreateOrResolve(old(Snapshot()), request, versionId, blobId, plan, at), at, result, Snapshot())
      ensures Keeps(old(Snapshot()), at, result, Snapshot(),
                    N.CreateRefused(old(Snapshot()), request, versionId, blobId, plan), CommitRejected)
    {
      hide Inv, Advances, Safe, SafeUnless, M.CreateOrResolve, N.CreateRefused;
      var before := Snapshot();
      result := TryCreateOrResolveMultipart(request, versionId, blobId, plan, at);
      if result.Err? {
        Rollback(before, at);
      }
      if Inv(before) && ValidInstants(before, at) {
        N.CreateOrResolveSafe(before, request, versionId, blobId, plan, at);
      }
      RefinementKeeps(before, M.CreateOrResolve(before, request, versionId, blobId, plan, at), at, result, Snapshot(),
                      N.CreateRefused(before, request, versionId, blobId, plan), CommitRejected);
    }

    method TryCreateOrResolveMultipart(request: Id, versionId: Id, blobId: Id, plan: PartPlan, at: Instants)
      returns (result: Result<M.Context, Error>)
      modifies this
      ensures Follows(M.CreateOrResolve(old(Snapshot()), request, versionId, blobId, plan, at), result, Snapshot())
    {
      hide InsertSession, InsertParts, Commit, M.LoadContext, M.ActiveSession, M.References, M.NewMultipart, M.PlanSha;
      hide PlanCodec.ValidPlan, M.PlannedParts;
      :- Require(PlanCodec.ValidPlan(plan), Error.ManifestMismatch);
      var key, payload := Key(ResolveScope, request), ResolveRequest(versionId, blobId, M.PlanSha(plan));
      if key in idempotency {
        :- Require(idempotency[key].request == payload
                   && M.IsMultipart(Snapshot(), idempotency[key].resourceId), IdempotencyConflict);
        var replayed :- M.LoadContext(Snapshot(), idempotency[key].resourceId);
        clock := at.commit;
        return Ok(replayed);
      }
      :- Require(blobId in blobs && versionId in versions && M.References(Snapshot(), versionId, blobId), NotFound);
      :- Require(blobs[blobId].size == plan.blobSize, ContentConflict);
      var active := M.ActiveSession(Snapshot(), blobId, nextId);
      if active.Some? {
        var s := active.value;
        :- Require(sessions[s].strategy == Multipart && sessions[s].frozen.Some?
                   && sessions[s].frozen.value.planSha == M.PlanSha(plan), ContentConflict);
        idempotency := idempotency[key := IdempotencyRow(payload, s, None)];
        var resolved :- M.LoadContext(Snapshot(), s);
        clock := at.commit;
        return Ok(resolved);
      }
      var s := nextId;
      var row := M.NewMultipart(Snapshot(), versionId, blobId, plan, at.wall);
      nextId := s + 1;
      :- InsertSessionRow(s, row);
      :- InsertPartRows(s, M.PlannedParts(plan));
      idempotency := idempotency[key := IdempotencyRow(payload, s, None)];
      var context :- M.LoadContext(Snapshot(), s);
      result := CommitBlob(blobId, at, context);
    }

    // ---------------------------------------------------------------- admission

    method AcquireMultipartLease(request: Id, invocation: Id, s: Id, ttl: int, capacity: int, at: Instants)
      returns (result: Result<AdmissionRecord, Error>)
      modifies this
      ensures Refines(old(Snapshot()),
                      M.Acquire(old(Snapshot()), request, invocation, s, ttl, capacity, at), at, result, Snapshot())
      ensures Keeps(old(Snapshot()), at, result, Snapshot(), false, TriggerRejected)
    {
      hide Inv, Advances, Safe, SafeUnless, M.Acquire;
      var before := Snapshot();
      result := TryAcquireMultipartLease(request, invocation, s, ttl, capacity, at);
      if result.Err? {
        Rollback(before, at);
      }
      if Inv(before) && ValidInstants(before, at) {
        L.AcquireSafe(before, request, invocation, s, ttl, capacity, at);
      }
      RefinementKeeps(before, M.Acquire(before, request, invocation, s, ttl, capacity, at), at, result, Snapshot(),
                      false, TriggerRejected);
    }

    method TryAcquireMultipartLease(request: Id, invocation: Id, s: Id, ttl: int, capacity: int, at: Instants)
      returns (result: Result<AdmissionRecord, Error>)
      modifies this
      ensures Follows(M.Acquire(old(Snapshot()), request, invocation, s, ttl, capacity, at), result, Snapshot())
    {
      hide PutAdmission, M.GrantAdmission;
      :- Require(ttl > 0 && capacity > 0, ContentConflict);
      var key, payload := Key(AcquireScope, request), AcquireRequest(s, invocation);
      if key in idempotency {
        :- Require(idempotency[key].request == payload && idempotency[key].lease.Some?, IdempotencyConflict);
        clock := at.commit;
        return Ok(idempotency[key].lease.value);
      }
      :- Require(M.IsMultipart(Snapshot(), s), NotFound);
      :- Require(M.UploadOwned(sessions[s].state), IllegalTransition);
      var lease :- GrantLease(s, invocation, ttl, capacity, at);
      nextId := nextId + 1;
      :- FlushAdmission(s, lease, at);
      var answer := M.AdmissionAnswer(s, lease);
      idempotency := idempotency[key := IdempotencyRow(payload, s, Some(answer))];
      clock := at.commit;
      result := Ok(answer);
    }

    /** Extend the running lease of this invocation, or grant one within capacity. */
    method GrantLease(s: Id, invocation: Id, ttl: int, capacity: int, at: Instants)
      returns (result: Result<AdmissionLease, Error>)
      ensures result == M.GrantAdmission(Snapshot(), s, invocation, ttl, capacity, at)
    {
      hide M.LiveAdmissions;
      if s in admission && admission[s].expiresAt > at.now {
        :- Require(admission[s].invocation == invocation, LeaseHeld);
        return Ok(admission[s].(renewedAt := at.now, expiresAt := at.now + ttl));
      }
      :- Require(|M.LiveAdmissions(Snapshot(), at.now)| < capacity, CapacityExhausted);
      var epoch := 1;
      if s in admission {
        epoch := admission[s].epoch + 1;
      }
      result := Ok(AdmissionLease(invocation, nextId, epoch, at.now, at.now, at.now + ttl));
    }

    method ReleaseMultipartLease(s: Id, owner: Id, epoch: int, at: Instants) returns (result: Result<(), Error>)
      modifies this
      ensures Refines(old(Snapshot()), M.Release(old(Snapshot()), s, owner, epoch, at), at, result, Snapshot())
      ensures Keeps(old(Snapshot()), at, result, Snapshot(), false, TriggerRejected)
    {
      hide Inv, Advances, Safe, SafeUnless, M.Release;
      var before := Snapshot();
      result := TryReleaseMultipartLease(s, owner, epoch, at);
      if result.Err? {
        Rollback(before, at);
      }
      if Inv(before) && ValidInstants(before, at) {
        L.ReleaseSafe(before, s, owner, epoch, at);
      }
      RefinementKeeps(before, M.Release(before, s, owner, epoch, at), at, result, Snapshot(), false, TriggerRejected);
    }

    method TryReleaseMultipartLease(s: Id, owner: Id, epoch: int, at: Instants) returns (result: Result<(), Error>)
      modifies this
      ensures Follows(M.Release(old(Snapshot()), s, owner, epoch, at), result, Snapshot())
    {
      var held := M.Admitted(Snapshot(), s, owner, epoch, at.now);
      :- Require(held, LeaseLost);
      :- FlushAdmission(s, M.ReleasedAdmission(admission[s], at.flush), at);
      clock := at.commit;
      result := Ok(());
    }

    // ------------------------------------------------------------------- upload

    method BeginProviderInitiation(s: Id, owner: Id, epoch: int, at: Instants) returns (result: Result<(), Error>)
      modifies this
      ensures Refines(old(Snapshot()), M.BeginInitiation(old(Snapshot()), s, owner, epoch, at), at, result, Snapshot())
      ensures Keeps(old(Snapshot()), at, result, Snapshot(), false, TriggerRejected)
    {
      hide Inv, Advances, Safe, SafeUnless, M.BeginInitiation;
      var before := Snapshot();
      result := TryBeginProviderInitiation(s, owner, epoch, at);
      if result.Err? {
        Rollback(before, at);
      }
      if Inv(before) && ValidInstants(before, at) {
        U.BeginInitiationSafe(before, s, owner, epoch, at);
      }
      RefinementKeeps(before, M.BeginInitiation(before, s, owner, epoch, at), at, result, Snapshot(),
                      false, TriggerRejected);
    }

    method TryBeginProviderInitiation(s: Id, owner: Id, epoch: int, at: Instants) returns (result: Result<(), Error>)
      modifies this
      ensures Follows(M.BeginInitiation(old(Snapshot()), s, owner, epoch, at), result, Snapshot())
    {
      var held := M.AdmittedIn(Snapshot(), s, owner, epoch, Created, at.now);
      :- Require(held, LeaseLost);
      var row := sessions[s];
      :- FlushSession(s, row.(state := Initiating, initiationStartedAt := Some(at.flush), lastActivityAt := at.flush));
      result := CommitBlob(row.blobId, at, ());
    }

    method RecordProviderUpload(s: Id, owner: Id, epoch: int, provider: string, at: Instants)
      returns (result: Result<(), Error>)
      modifies this
      ensures Refines(old(Snapshot()),
                      M.RecordProvider(old(Snapshot()), s, owner, epoch, provider, at), at, result, Snapshot())
      ensures Keeps(old(Snapshot()), at, result, Snapshot(), false, TriggerRejected)
    {
      hide Inv, Advances, Safe, SafeUnless, M.RecordProvider;
      var before := Snapshot();
      result := TryRecordProviderUpload(s, owner, epoch, provider, at);
      if result.Err? {
        Rollback(before, at);
      }
      if Inv(before) && ValidInstants(before, at) {
        U.RecordProviderSafe(before, s, owner, epoch, provider, at);
      }
      RefinementKeeps(before, M.RecordProvider(before, s, owner, epoch, provider, at), at, result, Snapshot(),
                      false, TriggerRejected);
    }

    method TryRecordProviderUpload(s: Id, owner: Id, epoch: int, provider: string, at: Instants)
      returns (result: Result<(), Error>)
      modifies this
      ensures Follows(M.RecordProvider(old(Snapshot()), s, owner, epoch, provider, at), result, Snapshot())
    {
      var valid := provider != "";
      :- Require(valid, ContentConflict);
      :- Require(M.AdmittedIn(Snapshot(), s, owner, epoch, Initiating, at.now), LeaseLost);
      var row := sessions[s];
      :- FlushSession(s, row.(state := InProgress, provider := Some(provider), lastActivityAt := at.flush));
      :- Require(row.blobId in blobs, ContentConflict);
      var blob := blobs[row.blobId];
      if blob.state == BlobPending {
        :- FlushBlob(row.blobId, blob.(state := BlobUploading));
      } else {
        :- Require(blob.state == BlobUploading, IllegalTransition);
      }
      result := CommitBlob(row.blobId, at, ());
    }

    method RecordUploadedPart(s: Id, owner: Id, epoch: int, receipt: M.Receipt, at: Instants)
      returns (result: Result<PartRow, Error>)
      modifies this
      ensures Refines(old(Snapshot()), M.RecordPart(old(Snapshot()), s, owner, epoch, receipt, at), at, result, Snapshot())
      ensures Keeps(old(Snapshot()), at, result, Snapshot(), false, TriggerRejected)
    {
      hide Inv, Advances, Safe, SafeUnless, M.RecordPart;
      var before := Snapshot();
      result := TryRecordUploadedPart(s, owner, epoch, receipt, at);
      if result.Err? {
        Rollback(before, at);
      }
      if Inv(before) && ValidInstants(before, at) {
        U.RecordPartSafe(before, s, owner, epoch, receipt, at);
      }
      RefinementKeeps(before, M.RecordPart(before, s, owner, epoch, receipt, at), at, result, Snapshot(),
                      false, TriggerRejected);
    }

    method TryRecordUploadedPart(s: Id, owner: Id, epoch: int, receipt: M.Receipt, at: Instants)
      returns (result: Result<PartRow, Error>)
      modifies this
      ensures Follows(M.RecordPart(old(Snapshot()), s, owner, epoch, receipt, at), result, Snapshot())
    {
      hide PutSession, PutParts, Commit, M.StoredReceipt, M.CheckReceipt, ChecksumToDigest;
      var checked := M.CheckReceipt(receipt);
      :- checked;
      :- Require(M.AdmittedIn(Snapshot(), s, owner, epoch, InProgress, at.now), LeaseLost);
      var row, rows := sessions[s], PartsOf(Snapshot(), s);
      :- FlushSession(s, row.(lastActivityAt := at.flush));
      :- Require(M.Planned(rows, receipt.number), InvalidPartNumber);
      var part := rows[receipt.number - 1];
      :- Require(ChecksumToDigest(receipt.checksum) == Some(part.sha256), ChecksumRejected);
      var existing :- M.StoredReceipt(part);
      if M.HasReceiptField(part) {
        :- Require(existing == Some(receipt), ContentConflict);
        result := CommitBlob(row.blobId, at, part);
        return;
      }
      part := part.(state := PartUploaded, responseEtag := Some(receipt.etag), responseChecksum := Some(receipt.checksum),
                    responseAt := Some(at.flush), uploadedAt := Some(at.flush));
      :- FlushParts(s, rows[receipt.number - 1 := part]);
      result := CommitBlob(row.blobId, at, part);
    }

    method ReconcileParts(s: Id, owner: Id, epoch: int, observations: seq<M.Observation>, at: Instants)
      returns (result: Result<M.Reconciliation, Error>)
      modifies this
      ensures Refines(old(Snapshot()),
                      M.Reconcile(old(Snapshot()), s, owner, epoch, observations, at), at, result, Snapshot())
      ensures Keeps(old(Snapshot()), at, result, Snapshot(), false, TriggerRejected)
    {
      hide Inv, Advances, Safe, SafeUnless, M.Reconcile;
      var before := Snapshot();
      result := TryReconcileParts(s, owner, epoch, observations, at);
      if result.Err? {
        Rollback(before, at);
      }
      if Inv(before) && ValidInstants(before, at) {
        U.ReconcileSafe(before, s, owner, epoch, observations, at);
      }
      RefinementKeeps(before, M.Reconcile(before, s, owner, epoch, observations, at), at, result, Snapshot(),
                      false, TriggerRejected);
    }

    method TryReconcileParts(s: Id, owner: Id, epoch: int, observations: seq<M.Observation>, at: Instants)
      returns (result: Result<M.Reconciliation, Error>)
      modifies this
      ensures Follows(M.Reconcile(old(Snapshot()), s, owner, epoch, observations, at), result, Snapshot())
    {
      var checked := M.CheckObservations(observations);
      :- checked;
      :- Require(M.DistinctObservations(observations), ContentConflict);
      :- Require(M.AdmittedIn(Snapshot(), s, owner, epoch, InProgress, at.now), LeaseLost);
      var row, stored := sessions[s], PartsOf(Snapshot(), s);
      :- FlushSession(s, row.(reconciledAt := Some(at.flush), lastActivityAt := at.flush));
      :- Require(M.AllPlanned(stored, observations), InvalidPartNumber);
      var observed, resolved := ApplyObservations(stored, observations, at.flush);
      :- FlushParts(s, observed);
      var rows, summary := VerifyResolved(stored, observations, at.flush, observed, resolved);
      :- FlushParts(s, rows);
      result := CommitBlob(row.blobId, at, summary);
    }

    method MarkMultipartInitiationAmbiguous(s: Id, owner: Id, epoch: int, at: Instants)
      returns (result: Result<(), Error>)
      modifies this
      ensures Refines(old(Snapshot()), M.MarkAmbiguous(old(Snapshot()), s, owner, epoch, at), at, result, Snapshot())
      ensures Keeps(old(Snapshot()), at, result, Snapshot(), false, TriggerRejected)
    {
      hide Inv, Advances, Safe, SafeUnless, M.MarkAmbiguous;
      var before := Snapshot();
      result := TryMarkMultipartInitiationAmbiguous(s, owner, epoch, at);
      if result.Err? {
        Rollback(before, at);
      }
      if Inv(before) && ValidInstants(before, at) {
        L.MarkAmbiguousSafe(before, s, owner, epoch, at);
      }
      RefinementKeeps(before, M.MarkAmbiguous(before, s, owner, epoch, at), at, result, Snapshot(), false, TriggerRejected);
    }

    method TryMarkMultipartInitiationAmbiguous(s: Id, owner: Id, epoch: int, at: Instants)
      returns (result: Result<(), Error>)
      modifies this
      ensures Follows(M.MarkAmbiguous(old(Snapshot()), s, owner, epoch, at), result, Snapshot())
    {
      var held := M.AdmittedIn(Snapshot(), s, owner, epoch, Initiating, at.now);
      :- Require(held, LeaseLost);
      var row := sessions[s];
      :- FlushSession(s, row.(state := Failed, failure := Some(InitiationAmbiguous), initiationAmbiguousAt := Some(at.flush),
                              completedAt := Some(at.flush), lastActivityAt := at.flush));
      :- FlushAdmission(s, admission[s].(renewedAt := at.flush, expiresAt := at.flush), at);
      result := CommitBlob(row.blobId, at, ());
    }

    // --------------------------------------------------------------- completion

    method AcceptCompletion(s: Id, owner: Id, epoch: int, request: Id, at: Instants) returns (result: Result<Id, Error>)
      modifies this
      ensures Refines(old(Snapshot()), M.Accept(old(Snapshot()), s, owner, epoch, request, at), at, result, Snapshot())
      ensures Keeps(old(Snapshot()), at, result, Snapshot(), false, TriggerRejected)
    {
      hide Inv, Advances, Safe, SafeUnless, M.Accept;
      var before := Snapshot();
      result := TryAcceptCompletion(s, owner, epoch, request, at);
      if result.Err? {
        Rollback(before, at);
      }
      if Inv(before) && ValidInstants(before, at) {
        L.AcceptSafe(before, s, owner, epoch, request, at);
      }
      RefinementKeeps(before, M.Accept(before, s, owner, epoch, request, at), at, result, Snapshot(),
                      false, TriggerRejected);
    }

    method TryAcceptCompletion(s: Id, owner: Id, epoch: int, request: Id, at: Instants)
      returns (result: Result<Id, Error>)
      modifies this
      ensures Follows(M.Accept(old(Snapshot()), s, owner, epoch, request, at), result, Snapshot())
    {
      var key, payload := Key(AcceptScope, request), AcceptRequest(s);
      if key in idempotency {
        :- Require(idempotency[key].request == payload, IdempotencyConflict);
        clock := at.commit;
        return Ok(idempotency[key].resourceId);
      }
      :- Require(M.IsMultipart(Snapshot(), s), NotFound);
      :- Require(M.Admitted(Snapshot(), s, owner, epoch, at.now), LeaseLost);
      var row := sessions[s];
      :- Require(row.state == InProgress && AllVerified(PartsOf(Snapshot(), s)), IllegalTransition);
      :- FlushSession(s, row.(state := Completing, completionRequestedAt := Some(at.flush), completionReason := Some(PartsReady),
                              completionPhase := Some(Pending), lastActivityAt := at.flush));
      :- FlushAdmission(s, admission[s].(renewedAt := at.flush, expiresAt := at.flush), at);
      idempotency := idempotency[key := IdempotencyRow(payload, s, None)];
      result := CommitBlob(row.blobId, at, s);
    }

    method ClaimCompletion(owner: Id, ttl: int, capacity: int, at: Instants)
      returns (result: Result<Option<M.Claim>, Error>)
      modifies this
      ensures Refines(old(Snapshot()), M.ClaimWork(old(Snapshot()), owner, ttl, capacity, at), at, result, Snapshot())
      ensures Keeps(old(Snapshot()), at, result, Snapshot(), false, TriggerRejected)
    {
      hide Inv, Advances, Safe, SafeUnless, M.ClaimWork;
      var before := Snapshot();
      result := TryClaimCompletion(owner, ttl, capacity, at);
      if result.Err? {
        Rollback(before, at);
      }
      if Inv(before) && ValidInstants(before, at) {
        C.ClaimWorkSafe(before, owner, ttl, capacity, at);
      }
      RefinementKeeps(before, M.ClaimWork(before, owner, ttl, capacity, at), at, result, Snapshot(), false, TriggerRejected);
    }

    method TryClaimCompletion(owner: Id, ttl: int, capacity: int, at: Instants)
      returns (result: Result<Option<M.Claim>, Error>)
      modifies this
      ensures Follows(M.ClaimWork(old(Snapshot()), owner, ttl, capacity, at), result, Snapshot())
    {
      var valid := ttl > 0 && capacity > 0;
      :- Require(valid, ContentConflict);
      if |M.LiveCompletions(Snapshot(), at.now)| >= capacity {
        clock := at.commit;
        return Ok(None);
      }
      var work := M.NextWork(Snapshot(), at.now, nextId);
      if work.None? {
        clock := at.commit;
        return Ok(None);
      }
      var s, epoch := work.value, 1;
      if s in completion {
        epoch := completion[s].epoch + 1;
      }
      var lease := CompletionLease(owner, epoch, at.now, at.now, at.now + ttl);
      :- FlushCompletion(s, lease, at);
      :- Require(sessions[s].completionPhase.Some?, ContentConflict);
      clock := at.commit;
      result := Ok(Some(M.Claim(s, lease, sessions[s].completionPhase.value)));
    }

    method RenewCompletionLease(s: Id, owner: Id, epoch: int, ttl: int, at: Instants)
      returns (result: Result<CompletionLease, Error>)
      modifies this
      ensures Refines(old(Snapshot()), M.Renew(old(Snapshot()), s, owner, epoch, ttl, at), at, result, Snapshot())
      ensures Keeps(old(Snapshot()), at, result, Snapshot(),
                    C.RenewRefused(old(Snapshot()), s, owner, epoch, ttl, at), TriggerRejected)
    {
      hide Inv, Advances, Safe, SafeUnless, M.Renew, C.RenewRefused;
      var before := Snapshot();
      result := TryRenewCompletionLease(s, owner, epoch, ttl, at);
      if result.Err? {
        Rollback(before, at);
      }
      if Inv(before) && ValidInstants(before, at) {
        C.RenewSafe(before, s, owner, epoch, ttl, at);
      }
      RefinementKeeps(before, M.Renew(before, s, owner, epoch, ttl, at), at, result, Snapshot(),
                      C.RenewRefused(before, s, owner, epoch, ttl, at), TriggerRejected);
    }

    method TryRenewCompletionLease(s: Id, owner: Id, epoch: int, ttl: int, at: Instants)
      returns (result: Result<CompletionLease, Error>)
      modifies this
      ensures Follows(M.Renew(old(Snapshot()), s, owner, epoch, ttl, at), result, Snapshot())
    {
      var valid := ttl > 0;
      :- Require(valid, ContentConflict);
      :- Require(M.Claimed(Snapshot(), s, owner, epoch, at.now), LeaseLost);
      var lease := completion[s].(renewedAt := at.flush, expiresAt := at.flush + ttl);
      :- FlushCompletion(s, lease, at);
      clock := at.commit;
      result := Ok(lease);
    }

    method SetCompletionPhase(s: Id, owner: Id, epoch: int, target: Phase, flags: M.PhaseFlags, at: Instants)
      returns (result: Result<(), Error>)
      modifies this
      ensures Refines(old(Snapshot()),
                      M.SetPhase(old(Snapshot()), s, owner, epoch, target, flags, at), at, result, Snapshot())
      ensures Keeps(old(Snapshot()), at, result, Snapshot(),
                    C.SetPhaseRefused(old(Snapshot()), s, owner, epoch, target, flags, at), TriggerRejected)
    {
      hide Inv, Advances, Safe, SafeUnless, M.SetPhase, C.SetPhaseRefused;
      var before := Snapshot();
      result := TrySetCompletionPhase(s, owner, epoch, target, flags, at);
      if result.Err? {
        Rollback(before, at);
      }
      if Inv(before) && ValidInstants(before, at) {
        C.SetPhaseSafe(before, s, owner, epoch, target, flags, at);
      }
      RefinementKeeps(before, M.SetPhase(before, s, owner, epoch, target, flags, at), at, result, Snapshot(),
                      C.SetPhaseRefused(before, s, owner, epoch, target, flags, at), TriggerRejected);
    }

    method TrySetCompletionPhase(s: Id, owner: Id, epoch: int, target: Phase, flags: M.PhaseFlags, at: Instants)
      returns (result: Result<(), Error>)
      modifies this
      ensures Follows(M.SetPhase(old(Snapshot()), s, owner, epoch, target, flags, at), result, Snapshot())
    {
      var held := s in sessions && sessions[s].state == Completing;
      :- Require(held, LeaseLost);
      var row := sessions[s];
      :- Require(row.completionPhase.Some?, ContentConflict);
      :- Require(M.PhaseTransition(row.completionPhase.value, target, flags), IllegalTransition);
      :- Require(M.Claimed(Snapshot(), s, owner, epoch, at.now), LeaseLost);
      :- FlushSession(s, row.(completionPhase := Some(target), lastActivityAt := at.flush));
      result := CommitBlob(row.blobId, at, ());
    }

    method RecoverPartialCompletion(s: Id, owner: Id, epoch: int, evidence: M.RecoveryEvidence, at: Instants)
      returns (result: Result<M.Recovered, Error>)
      modifies this
      ensures Refines(old(Snapshot()), M.Recover(old(Snapshot()), s, owner, epoch, evidence, at), at, result, Snapshot())
      ensures Keeps(old(Snapshot()), at, result, Snapshot(),
                    V.RecoverRefused(old(Snapshot()), s, owner, epoch, evidence, at), TriggerRejected)
    {
      hide Inv, Advances, Safe, SafeUnless, M.Recover, V.RecoverRefused;
      var before := Snapshot();
      result := TryRecoverPartialCompletion(s, owner, epoch, evidence, at);
      if result.Err? {
        Rollback(before, at);
      }
      if Inv(before) && ValidInstants(before, at) {
        V.RecoverSafe(before, s, owner, epoch, evidence, at);
      }
      RefinementKeeps(before, M.Recover(before, s, owner, epoch, evidence, at), at, result, Snapshot(),
                      V.RecoverRefused(before, s, owner, epoch, evidence, at), TriggerRejected);
    }

    method TryRecoverPartialCompletion(s: Id, owner: Id, epoch: int, evidence: M.RecoveryEvidence, at: Instants)
      returns (result: Result<M.Recovered, Error>)
      modifies this
      ensures Follows(M.Recover(old(Snapshot()), s, owner, epoch, evidence, at), result, Snapshot())
    {
      hide PutSession, PutParts, PutCompletion, Commit, M.LoadContext, M.CheckObservations, M.CheckEvidence;
      hide M.ObserveAll, M.RecheckAll, AllVerified, M.AllPlanned, M.DistinctObservations, ResolvedIndexes;
      :- M.CheckObservations(evidence.observations);
      :- M.CheckEvidence(evidence);
      :- Require(M.DistinctObservations(evidence.observations), ContentConflict);
      :- Require(s in sessions && sessions[s].state == Completing && sessions[s].provider.Some?
                 && M.Claimed(Snapshot(), s, owner, epoch, at.now), LeaseLost);
      var row, stored, lease := sessions[s], PartsOf(Snapshot(), s), completion[s];
      :- Require(M.AllPlanned(stored, evidence.observations), InvalidPartNumber);
      if M.Invalidates(evidence.reason) {
        :- FlushSession(s, M.Invalidated(row, evidence, at.now));
        :- FlushCompletion(s, lease.(renewedAt := at.now, expiresAt := at.now), at);
        var failed :- M.LoadContext(Snapshot(), s);
        result := CommitBlob(row.blobId, at, M.Recovered(M.StartNewGeneration, failed));
        return;
      }
      row := M.WithEvidence(row, evidence);
      :- FlushSession(s, row);
      var observed, resolved := ApplyObservations(stored, evidence.observations, evidence.reconciledAt);
      :- FlushParts(s, observed);
      var rows := VerifyAgreeing(stored, evidence.observations, evidence.reconciledAt, observed);
      :- FlushParts(s, rows);
      if evidence.reason == M.RecoverReady {
        :- Require(AllVerified(rows), ContentConflict);
        var ready :- M.LoadContext(Snapshot(), s);
        result := CommitBlob(row.blobId, at, M.Recovered(M.RetryCompletion, ready));
        return;
      }
      :- Require(!AllVerified(rows), ContentConflict);
      :- FlushSession(s, row.(state := InProgress, completionReason := None, completionPhase := None, lastActivityAt := at.now));
      :- FlushCompletion(s, lease.(renewedAt := at.now, expiresAt := at.now), at);
      var context :- M.LoadContext(Snapshot(), s);
      result := CommitBlob(row.blobId, at, M.Recovered(M.ResumePartUpload, context));
    }

    method RecordVerifiedCompletion(s: Id, owner: Id, epoch: int, evidence: Evidence, at: Instants)
      returns (result: Result<M.Context, Error>)
      modifies this
      ensures Refines(old(Snapshot()),
                      M.RecordVerified(old(Snapshot()), s, owner, epoch, evidence, at), at, result, Snapshot())
      ensures Keeps(old(Snapshot()), at, result, Snapshot(),
                    V.VerifiedRefused(old(Snapshot()), s, owner, epoch, evidence, at), TriggerRejected)
    {
      hide Inv, Advances, Safe, SafeUnless, M.RecordVerified, V.VerifiedRefused;
      var before := Snapshot();
      result := TryRecordVerifiedCompletion(s, owner, epoch, evidence, at);
      if result.Err? {
        Rollback(before, at);
      }
      if Inv(before) && ValidInstants(before, at) {
        V.RecordVerifiedSafe(before, s, owner, epoch, evidence, at);
      }
      RefinementKeeps(before, M.RecordVerified(before, s, owner, epoch, evidence, at), at, result, Snapshot(),
                      V.VerifiedRefused(before, s, owner, epoch, evidence, at), TriggerRejected);
    }

    method TryRecordVerifiedCompletion(s: Id, owner: Id, epoch: int, evidence: Evidence, at: Instants)
      returns (result: Result<M.Context, Error>)
      modifies this
      ensures Follows(M.RecordVerified(old(Snapshot()), s, owner, epoch, evidence, at), result, Snapshot())
    {
      hide PutSession, PutBlob, PutCompletion, Commit, M.LoadContext, M.WellFormedEvidence;
      :- Require(M.WellFormedEvidence(evidence), ContentConflict);
      :- Require(s in sessions && sessions[s].state == Completing && M.Claimed(Snapshot(), s, owner, epoch, at.now), LeaseLost);
      var row := sessions[s];
      :- Require(row.completionPhase == Some(FinalVerification), IllegalTransition);
      :- Require(row.blobId in blobs, ContentConflict);
      var blob := blobs[row.blobId];
      :- Require(evidence.sha256 == blob.sha256 && evidence.size == blob.size && evidence.readBytes == blob.size, ContentConflict);
      :- Require(blob.state == BlobUploading, IllegalTransition);
      row := row.(evidence := Some(evidence));
      :- FlushSession(s, row);
      blob := blob.(state := BlobVerifying);
      :- FlushBlob(row.blobId, blob);
      blob := blob.(state := BlobAvailable, verifiedAt := Some(evidence.completedAt));
      :- FlushBlob(row.blobId, blob);
      row := row.(state := Completed, completedAt := Some(evidence.completedAt), lastActivityAt := at.now);
      :- FlushSession(s, row);
      :- FlushCompletion(s, completion[s].(renewedAt := at.now, expiresAt := at.now), at);
      var context :- M.LoadContext(Snapshot(), s);
      result := CommitBlob(row.blobId, at, context);
    }

    // --------------------------------------------------------------- registration

    method InsertVersionRow(v: Id, row: VersionRow) returns (outcome: Check<Error>)
      modifies `versions
      ensures Flushes(InsertVersion(old(Snapshot()), v, row), outcome, Snapshot())
    {
      if !VersionChecks(row) {
        return Fail(TriggerRejected);
      }
      if v in versions || !VersionSlotFree(Snapshot(), row) {
        return Fail(IndexViolated);
      }
      versions := versions[v := row];
      outcome := Pass;
    }

    method InsertBlobRow(b: Id, row: BlobRow) returns (outcome: Check<Error>)
      modifies `blobs
      ensures Flushes(InsertBlob(old(Snapshot()), b, row), outcome, Snapshot())
    {
      if !BlobChecks(row) {
        return Fail(TriggerRejected);
      }
      if b in blobs || !DigestFree(Snapshot(), row.sha256) {
        return Fail(IndexViolated);
      }
      blobs := blobs[b := row];
      outcome := Pass;
    }

    method GetOrCreateBlob(line: ManifestLine) returns (result: Result<Id, Error>)
      modifies `nextId, `blobs
      ensures Follows(R.GetOrCreateBlob(old(Snapshot()), line), result, Snapshot())
    {
      hide BlobChecks, InsertBlob;
      var row := R.PendingBlob(line);
      :- Require(BlobChecks(row), TriggerRejected);
      var found := R.BlobBySha(Snapshot(), line.sha256, nextId);
      if found.Some? {
        :- Require(blobs[found.value].size == line.size, ContentConflict);
        return Ok(found.value);
      }
      var b := nextId;
      nextId := b + 1;
      :- InsertBlobRow(b, row);
      result := Ok(b);
    }

    /** One entry row per manifest line, creating Blobs on the way. */
    method ListEntries(v: Id, lines: seq<ManifestLine>) returns (result: Result<seq<EntryRow>, Error>)
      modifies `nextId, `blobs
      ensures Follows(R.InsertEntries(old(Snapshot()), v, lines), result, Snapshot())
    {
      hide R.GetOrCreateBlob, InsertEntry;
      var listed: seq<EntryRow> := [];
      for i := 0 to |lines|
        invariant R.InsertEntries(old(Snapshot()), v, lines[..i]) == Ok(Done(Snapshot(), listed))
      {
        assert lines[..i + 1][..i] == lines[..i];
        var b := GetOrCreateBlob(lines[i]);
        if b.Err? {
          EntriesFail(old(Snapshot()), v, lines, i + 1);
          return Err(b.error);
        }
        var longer := InsertEntry(Snapshot(), v, listed, EntryRow(lines[i].path, b.value));
        if longer.Err? {
          EntriesFail(old(Snapshot()), v, lines, i + 1);
          return Err(longer.error);
        }
        listed := longer.value;
      }
      assert lines[..|lines|] == lines;
      result := Ok(listed);
    }

    method RegisterVersion(datasetId: Id, lines: seq<ManifestLine>, request: Id, fingerprint: Sha, at: Instants)
      returns (result: Result<Id, Error>)
      modifies this
      ensures Refines(old(Snapshot()),
                      R.Register(old(Snapshot()), datasetId, lines, request, fingerprint, at), at, result, Snapshot())
      ensures Keeps(old(Snapshot()), at, result, Snapshot(), false, TriggerRejected)
    {
      hide Inv, Advances, Safe, SafeUnless, R.Register;
      var before := Snapshot();
      result := TryRegisterVersion(datasetId, lines, request, fingerprint, at);
      if result.Err? {
        Rollback(before, at);
      }
      if Inv(before) && ValidInstants(before, at) {
        G.RegisterSafe(before, datasetId, lines, request, fingerprint, at);
      }
      RefinementKeeps(before, R.Register(before, datasetId, lines, request, fingerprint, at), at, result, Snapshot(),
                      false, TriggerRejected);
    }

    method TryRegisterVersion(datasetId: Id, lines: seq<ManifestLine>, request: Id, fingerprint: Sha, at: Instants)
      returns (result: Result<Id, Error>)
      modifies this
      ensures Follows(R.Register(old(Snapshot()), datasetId, lines, request, fingerprint, at), result, Snapshot())
    {
      hide R.SoundLines, R.VersionByManifest, R.MaxVersionNumber, R.ManifestTotals, InsertVersion, R.InsertEntries;
      hide PutVersion, RequireSealed;
      :- Require(R.SoundLines(lines), Error.ManifestMismatch);
      :- Require(datasetId in datasets, NotFound);
      var key, payload := Key(RegisterScope, request), RegisterRequest(fingerprint);
      if key in idempotency {
        :- Require(idempotency[key].request == payload && idempotency[key].resourceId in versions, IdempotencyConflict);
        clock := at.commit;
        return Ok(idempotency[key].resourceId);
      }
      var existing := R.VersionByManifest(Snapshot(), datasetId, lines, nextId);
      var v := if existing.Some? then existing.value else nextId;
      if existing.None? {
        var number := R.MaxVersionNumber(Snapshot(), datasetId, nextId) + 1;
        var version := VersionRow(datasetId, number, lines, Draft, R.ManifestTotals(lines), None, None, None, None);
        nextId := v + 1;
        :- InsertVersionRow(v, version);
        var listed :- ListEntries(v, lines);
        entries := entries[v := listed];
        :- FlushVersion(v, version.(sealedAt := Some(at.wall)));
      }
      idempotency := idempotency[key := IdempotencyRow(payload, v, None)];
      if existing.None? {
        :- RequireSealed(Snapshot(), v);
      }
      clock := at.commit;
      result := Ok(v);
    }

    // ------------------------------------------------------ single-PUT sessions

    method PrepareUpload(versionId: Id, sha256: string, request: Id, fingerprint: Sha, at: Instants)
      returns (result: Result<R.Prepared, Error>)
      modifies this
      ensures Refines(old(Snapshot()),
                      R.Prepare(old(Snapshot()), versionId, sha256, request, fingerprint, at), at, result, Snapshot())
      ensures Keeps(old(Snapshot()), at, result, Snapshot(),
                    P.PrepareRefused(old(Snapshot()), versionId, sha256, request), IndexViolated)
    {
      hide Inv, Advances, Safe, SafeUnless, R.Prepare, P.PrepareRefused;
      var before := Snapshot();
      result := TryPrepareUpload(versionId, sha256, request, fingerprint, at);
      if result.Err? {
        Rollback(before, at);
      }
      if Inv(before) && ValidInstants(before, at) {
        P.PrepareSafe(before, versionId, sha256, request, fingerprint, at);
      }
      RefinementKeeps(before, R.Prepare(before, versionId, sha256, request, fingerprint, at), at, result, Snapshot(),
                      P.PrepareRefused(before, versionId, sha256, request), IndexViolated);
    }

    method TryPrepareUpload(versionId: Id, sha256: string, request: Id, fingerprint: Sha, at: Instants)
      returns (result: Result<R.Prepared, Error>)
      modifies this
      ensures Follows(R.Prepare(old(Snapshot()), versionId, sha256, request, fingerprint, at), result, Snapshot())
    {
      hide R.ReferencedBlob, R.StartedSession, R.LatestSession, InsertSession, Commit;
      :- Require(versionId in versions, NotFound);
      var found := R.ReferencedBlob(Snapshot(), EntriesOf(Snapshot(), versionId), sha256);
      :- Require(found.Some?, NotFound);
      var b, key, payload := found.value, Key(PrepareScope, request), PrepareRequest(fingerprint);
      if blobs[b].state == BlobAvailable {
        clock := at.commit;
        return Ok(R.Prepared(b, None));
      }
      if key in idempotency {
        :- Require(idempotency[key].request == payload && idempotency[key].resourceId in sessions, IdempotencyConflict);
        :- Require(R.IsSingle(Snapshot(), idempotency[key].resourceId), IllegalTransition);
        clock := at.commit;
        return Ok(R.Prepared(b, Some(idempotency[key].resourceId)));
      }
      var started := R.StartedSession(Snapshot(), b, nextId);
      if started.Some? || blobs[b].state != BlobPending {
        var chosen := if started.Some? then started else R.LatestSession(Snapshot(), b, nextId);
        :- Require(chosen.Some?, ContentConflict);
        :- Require(R.IsSingle(Snapshot(), chosen.value), IllegalTransition);
        idempotency := idempotency[key := IdempotencyRow(payload, chosen.value, None)];
        clock := at.commit;
        return Ok(R.Prepared(b, chosen));
      }
      var s := nextId;
      nextId := s + 1;
      :- InsertSessionRow(s, M.EmptySession(b, versionId, SinglePut, at.wall));
      :- Require(R.IsSingle(Snapshot(), s), IllegalTransition);
      idempotency := idempotency[key := IdempotencyRow(payload, s, None)];
      result := CommitBlob(b, at, R.Prepared(b, Some(s)));
    }

    method MarkUploadInProgress(s: Id, at: Instants) returns (result: Result<(), Error>)
      modifies this
      ensures Refines(old(Snapshot()), R.MarkInProgress(old(Snapshot()), s, at), at, result, Snapshot())
      ensures Keeps(old(Snapshot()), at, result, Snapshot(), false, TriggerRejected)
    {
      hide Inv, Advances, Safe, SafeUnless, R.MarkInProgress;
      var before := Snapshot();
      result := TryMarkUploadInProgress(s, at);
      if result.Err? {
        Rollback(before, at);
      }
      if Inv(before) && ValidInstants(before, at) {
        S.MarkInProgressSafe(before, s, at);
      }
      RefinementKeeps(before, R.MarkInProgress(before, s, at), at, result, Snapshot(), false, TriggerRejected);
    }

    method TryMarkUploadInProgress(s: Id, at: Instants) returns (result: Result<(), Error>)
      modifies this
      ensures Follows(R.MarkInProgress(old(Snapshot()), s, at), result, Snapshot())
    {
      hide PutBlob, PutVersion, PutSession, Commit, RequireSealed;
      :- R.CheckSingle(Snapshot(), s);
      var row := sessions[s];
      var blob, version := blobs[row.blobId], versions[row.versionId];
      if row.state == InProgress {
        clock := at.commit;
        return Ok(());
      }
      :- Require(row.state == Created, IllegalTransition);
      if blob.state == BlobPending {
        blob := blob.(state := BlobUploading);
      }
      :- FlushBlob(row.blobId, blob);
      if version.state in {Draft, VersionFailed} {
        version := version.(state := Uploading, failure := None);
      }
      :- FlushVersion(row.versionId, version);
      :- FlushSession(s, row.(state := InProgress, lastActivityAt := at.wall));
      :- RequireSealed(Snapshot(), row.versionId);
      result := CommitBlob(row.blobId, at, ());
    }

    method MarkUploadVerified(s: Id, etag: Option<string>, at: Instants) returns (result: Result<(), Error>)
      modifies this
      ensures Refines(old(Snapshot()), R.MarkVerified(old(Snapshot()), s, etag, at), at, result, Snapshot())
      ensures Keeps(old(Snapshot()), at, result, Snapshot(), P.MarkVerifiedRefused(old(Snapshot()), s), CommitRejected)
    {
      hide Inv, Advances, Safe, SafeUnless, R.MarkVerified, P.MarkVerifiedRefused;
      var before := Snapshot();
      result := TryMarkUploadVerified(s, etag, at);
      if result.Err? {
        Rollback(before, at);
      }
      if Inv(before) && ValidInstants(before, at) {
        P.MarkVerifiedSafe(before, s, etag, at);
      }
      RefinementKeeps(before, R.MarkVerified(before, s, etag, at), at, result, Snapshot(),
                      P.MarkVerifiedRefused(before, s), CommitRejected);
    }

    method TryMarkUploadVerified(s: Id, etag: Option<string>, at: Instants) returns (result: Result<(), Error>)
      modifies this
      ensures Follows(R.MarkVerified(old(Snapshot()), s, etag, at), result, Snapshot())
    {
      hide PutBlob, PutSession, Commit;
      :- R.CheckSingle(Snapshot(), s);
      var row := sessions[s];
      var blob := blobs[row.blobId];
      if row.state == Completed {
        clock := at.commit;
        return Ok(());
      }
      :- Require(row.state == InProgress, IllegalTransition);
      :- Require(blob.state == BlobUploading, IllegalTransition);
      blob := blob.(state := BlobVerifying);
      :- FlushBlob(row.blobId, blob);
      blob := blob.(state := BlobAvailable, verifiedAt := Some(at.wall));
      :- FlushBlob(row.blobId, blob);
      :- FlushSession(s, row.(state := Completed, etag := etag, completedAt := Some(at.wall), lastActivityAt := at.wall));
      result := CommitBlob(row.blobId, at, ());
    }

    method MarkUploadFailed(s: Id, code: Failure, at: Instants) returns (result: Result<(), Error>)
      modifies this
      ensures Refines(old(Snapshot()), R.MarkFailed(old(Snapshot()), s, code, at), at, result, Snapshot())
      ensures Keeps(old(Snapshot()), at, result, Snapshot(), false, TriggerRejected)
    {
      hide Inv, Advances, Safe, SafeUnless, R.MarkFailed;
      var before := Snapshot();
      result := TryMarkUploadFailed(s, code, at);
      if result.Err? {
        Rollback(before, at);
      }
      if Inv(before) && ValidInstants(before, at) {
        P.MarkFailedSafe(before, s, code, at);
      }
      RefinementKeeps(before, R.MarkFailed(before, s, code, at), at, result, Snapshot(), false, TriggerRejected);
    }

    method TryMarkUploadFailed(s: Id, code: Failure, at: Instants) returns (result: Result<(), Error>)
      modifies this
      ensures Follows(R.MarkFailed(old(Snapshot()), s, code, at), result, Snapshot())
    {
      hide PutBlob, PutVersion, PutSession, Commit, RequireSealed;
      :- R.CheckSingle(Snapshot(), s);
      var row := sessions[s];
      var blob, version := blobs[row.blobId], versions[row.versionId];
      if row.state == Failed {
        clock := at.commit;
        return Ok(());
      }
      :- Require(row.state == InProgress && blob.state == BlobUploading && version.state == Uploading, IllegalTransition);
      blob := blob.(state := BlobVerifying);
      :- FlushBlob(row.blobId, blob);
      version := version.(state := Verifying, verifyingAt := Some(at.wall));
      :- FlushVersion(row.versionId, version);
      blob := blob.(state := BlobFailed, failure := Some(code));
      :- FlushBlob(row.blobId, blob);
      version := version.(state := VersionFailed, failure := Some(code));
      :- FlushVersion(row.versionId, version);
      :- FlushSession(s, row.(state := Failed, failure := Some(code), completedAt := Some(at.wall), lastActivityAt := at.wall));
      :- RequireSealed(Snapshot(), row.versionId);
      result := CommitBlob(row.blobId, at, ());
    }

    method RestartFailedUpload(versionId: Id, blobId: Id, request: Id, fingerprint: Sha, at: Instants)
      returns (result: Result<Id, Error>)
      modifies this
      ensures Refines(old(Snapshot()),
                      R.Restart(old(Snapshot()), versionId, blobId, request, fingerprint, at), at, result, Snapshot())
      ensures Keeps(old(Snapshot()), at, result, Snapshot(),
                    P.RestartRefused(old(Snapshot()), versionId, blobId, request), IndexViolated)
    {
      hide Inv, Advances, Safe, SafeUnless, R.Restart, P.RestartRefused;
      var before := Snapshot();
      result := TryRestartFailedUpload(versionId, blobId, request, fingerprint, at);
      if result.Err? {
        Rollback(before, at);
      }
      if Inv(before) && ValidInstants(before, at) {
        P.RestartSafe(before, versionId, blobId, request, fingerprint, at);
      }
      RefinementKeeps(before, R.Restart(before, versionId, blobId, request, fingerprint, at), at, result, Snapshot(),
                      P.RestartRefused(before, versionId, blobId, request), IndexViolated);
    }

    method TryRestartFailedUpload(versionId: Id, blobId: Id, request: Id, fingerprint: Sha, at: Instants)
      returns (result: Result<Id, Error>)
      modifies this
      ensures Follows(R.Restart(old(Snapshot()), versionId, blobId, request, fingerprint, at), result, Snapshot())
    {
      hide M.References, R.RestartNew;
      :- Require(versionId in versions && blobId in blobs, NotFound);
      :- Require(M.References(Snapshot(), versionId, blobId), NotFound);
      var key, payload := Key(PrepareScope, request), PrepareRequest(fingerprint);
      if key in idempotency {
        :- Require(idempotency[key].request == payload && idempotency[key].resourceId in sessions, IdempotencyConflict);
        :- Require(R.IsSingle(Snapshot(), idempotency[key].resourceId), IllegalTransition);
        clock := at.commit;
        return Ok(idempotency[key].resourceId);
      }
      result := TryRestartNew(versionId, blobId, key, payload, at);
    }

    method TryRestartNew(versionId: Id, blobId: Id, key: Key, payload: Request, at: Instants)
      returns (result: Result<Id, Error>)
      requires versionId in versions && blobId in blobs && key !in idempotency
      modifies this
      ensures Follows(R.RestartNew(old(Snapshot()), versionId, blobId, key, payload, at), result, Snapshot())
    {
      hide R.LatestSession, PutVersion, PutBlob, R.StartAgain, R.IsSingle;
      var prior := R.LatestSession(Snapshot(), blobId, nextId);
      :- Require(prior.Some? ==> R.IsSingle(Snapshot(), prior.value), IllegalTransition);
      var version, blob := versions[versionId], blobs[blobId];
      :- Require(version.state == VersionFailed && blob.state == BlobFailed, IllegalTransition);
      :- FlushVersion(versionId, version.(state := Uploading, failure := None));
      :- FlushBlob(blobId, blob.(state := BlobUploading, failure := None));
      result := TryStartAgain(versionId, blobId, key, payload, at);
    }

    method TryStartAgain(versionId: Id, blobId: Id, key: Key, payload: Request, at: Instants)
      returns (result: Result<Id, Error>)
      requires key !in idempotency
      modifies this
      ensures Follows(R.StartAgain(old(Snapshot()), versionId, blobId, key, payload, at), result, Snapshot())
    {
      hide InsertSession, Commit, M.EmptySession, RequireSealed;
      var s := nextId;
      nextId := s + 1;
      :- InsertSessionRow(s, M.EmptySession(blobId, versionId, SinglePut, at.wall));
      idempotency := idempotency[key := IdempotencyRow(payload, s, None)];
      :- RequireSealed(Snapshot(), versionId);
      result := CommitBlob(blobId, at, s);
    }

    // -------------------------------------------------------------- publication

    method FinalizeVersion(v: Id, at: Instants) returns (result: Result<VersionRow, Error>)
      modifies this
      ensures Refines(old(Snapshot()), R.Finalize(old(Snapshot()), v, at), at, result, Snapshot())
      ensures Keeps(old(Snapshot()), at, result, Snapshot(), false, TriggerRejected)
    {
      hide Inv, Advances, Safe, SafeUnless, R.Finalize;
      var before := Snapshot();
      result := TryFinalizeVersion(v, at);
      if result.Err? {
        Rollback(before, at);
      }
      if Inv(before) && ValidInstants(before, at) {
        P.FinalizeSafe(before, v, at);
      }
      RefinementKeeps(before, R.Finalize(before, v, at), at, result, Snapshot(), false, TriggerRejected);
    }

    method TryFinalizeVersion(v: Id, at: Instants) returns (result: Result<VersionRow, Error>)
      modifies this
      ensures Follows(R.Finalize(old(Snapshot()), v, at), result, Snapshot())
    {
      hide R.ManifestTotals, R.AllAvailable, PutVersion, RequireSealed;
      :- Require(v in versions, NotFound);
      var version := versions[v];
      if version.state == Ready {
        clock := at.commit;
        return Ok(version);
      }
      :- Require(version.state in {Draft, Uploading}, IllegalTransition);
      :- Require(R.ManifestTotals(version.manifest) == version.totals, Error.ManifestMismatch);
      :- Require(R.AllAvailable(Snapshot(), EntriesOf(Snapshot(), v)), IllegalTransition);
      version := version.(state := Verifying, verifyingAt := Some(at.wall));
      :- FlushVersion(v, version);
      version := version.(state := Ready, readyAt := Some(at.wall));
      :- FlushVersion(v, version);
      :- RequireSealed(Snapshot(), v);
      clock := at.commit;
      result := Ok(version);
    }
  }

  /** The first failing line fails the whole listing. */
  lemma {:induction false} EntriesFail(db: Db, v: Id, lines: seq<ManifestLine>, n: nat)
    requires 0 < n <= |lines| && R.InsertEntries(db, v, lines[..n]).Err?
    ensures R.InsertEntries(db, v, lines) == Err(R.InsertEntries(db, v, lines[..n]).error)
    decreases |lines|
  {
    hide R.GetOrCreateBlob, InsertEntry;
    if n == |lines| {
      assert lines[..n] == lines;
    } else {
      assert lines[..|lines| - 1][..n] == lines[..n];
      EntriesFail(db, v, lines[..|lines| - 1], n);
    }
  }
}
