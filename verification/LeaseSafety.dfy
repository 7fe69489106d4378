/** Transactions that grant, end or hand over upload ownership. */
module LeaseSafety {
  import opened Base
  import opened Flush
  import opened Guards
  import opened History
  import opened Invariant
  import opened Multipart
  import opened Rewrite
  import opened Rows
  import opened Safety
  import opened Sealing

  // ------------------------------------------------------------------ release

  lemma ReleaseRows(w: Write, clock: int, at: Instants, nextId: Id, row: SessionRow)
    requires Grounded(w, clock, nextId) && Multi(w) && w.admission.Some? && w.admission.value.expiresAt > clock
    requires clock < at.flush <= at.commit
    requires SessionAdvances(w.row, row) && MultipartSound(row, w.parts.value, w.blob)
    requires row.state == w.row.state || row.state in {Failed, Completing}
    requires w.row.state == Completing ==> row.state == Completing
    ensures var next := w.(row := row, admission := Some(ReleasedAdmission(w.admission.value, at.flush)));
      && AdmissionUpdateAllowed(w.admission.value, next.admission.value, at.flush)
      && RowsMove(w, next, clock) && RowsSound(next, at.commit, nextId)
  {
    hide MultipartSound;
    PartsKeepReflexive(w.parts.value);
  }

  lemma ReleaseSafe(db: Db, s: Id, owner: Id, epoch: int, at: Instants)
    requires Inv(db) && ValidInstants(db, at)
    ensures Safe(db, Release(db, s, owner, epoch, at))
  {
    hide Inv, Advances, Grounded, MultipartSound, RowsMove, RowsSound, Rewritten, AdmissionUpdateAllowed;
    if Admitted(db, s, owner, epoch, at.now) {
      LeasedSession(db, s);
      StandingSound(db, s);
      StandingMulti(db, s);
      var w := Standing(db, s);
      GroundedRows(w, db.clock, db.nextId);
      ReleaseRows(w, db.clock, at, db.nextId, w.row);
      var next := w.(row := w.row, admission := Some(ReleasedAdmission(w.admission.value, at.flush)));
      RewriteKeepsInv(db, s, next, at.commit);
      RewrittenAdmission(db, s, w, w.row, next.admission.value);
    }
  }

  lemma LeasedSession(db: Db, s: Id)
    requires Inv(db) && (s in db.admission || s in db.completion)
    ensures s in db.sessions
  {
  }

  lemma GroundedRows(w: Write, clock: int, nextId: Id)
    requires Grounded(w, clock, nextId) && Multi(w)
    ensures MultipartSound(w.row, w.parts.value, w.blob)
  {
  }

  // --------------------------------------------------------- ambiguous creation

  lemma AmbiguousRow(w: Write, clock: int, nextId: Id, at: int)
    requires Grounded(w, clock, nextId) && Multi(w) && w.row.state == Initiating
    ensures var row := InitiationFailed(w.row, at);
      && SessionUpdateAllowed(w.row, row, w.parts.value, w.blob)
      && SessionAdvances(w.row, row) && MultipartSound(row, w.parts.value, w.blob)
  {
    hide PartsSound, PlanFrozen, PlanSealed;
    PartsKeepReflexive(w.parts.value);
    PlanStaysFrozen(w.row, w.parts.value, InitiationFailed(w.row, at), w.parts.value, w.blob.size);
    FrozenChecks(w.row, w.parts.value, w.blob.size);
  }

  lemma MarkAmbiguousSafe(db: Db, s: Id, owner: Id, epoch: int, at: Instants)
    requires Inv(db) && ValidInstants(db, at)
    ensures Safe(db, MarkAmbiguous(db, s, owner, epoch, at))
  {
    hide Inv, Advances, Grounded, MultipartSound, RowsMove, RowsSound, Rewritten, AdmissionUpdateAllowed;
    hide SessionUpdateAllowed, Commit;
    if AdmittedIn(db, s, owner, epoch, Initiating, at.now) {
      StandingSound(db, s);
      StandingMulti(db, s);
      var w := Standing(db, s);
      var row := InitiationFailed(w.row, at.flush);
      AmbiguousRow(w, db.clock, db.nextId, at.flush);
      ReleaseRows(w, db.clock, at, db.nextId, row);
      var next := w.(row := row, admission := Some(ReleasedAdmission(w.admission.value, at.flush)));
      RewriteKeepsInv(db, s, next, at.commit);
      RewrittenAdmission(db, s, w, row, next.admission.value);
      CommitPasses(Rewritten(db, s, next), w.row.blobId, at, ());
    }
  }

  // ------------------------------------------------------------------- accept

  lemma AcceptedRow(w: Write, clock: int, nextId: Id, at: int)
    requires Grounded(w, clock, nextId) && Multi(w) && w.row.state == InProgress && AllVerified(w.parts.value)
    ensures var row := Accepted(w.row, at);
      && SessionUpdateAllowed(w.row, row, w.parts.value, w.blob)
      && SessionAdvances(w.row, row) && MultipartSound(row, w.parts.value, w.blob)
  {
    hide PartsSound, PlanFrozen, PlanSealed;
    PartsKeepReflexive(w.parts.value);
    PlanStaysFrozen(w.row, w.parts.value, Accepted(w.row, at), w.parts.value, w.blob.size);
    FrozenChecks(w.row, w.parts.value, w.blob.size);
  }

  lemma AcceptSafe(db: Db, s: Id, owner: Id, epoch: int, request: Id, at: Instants)
    requires Inv(db) && ValidInstants(db, at)
    ensures Safe(db, Accept(db, s, owner, epoch, request, at))
  {
    hide Inv, Advances, Grounded, MultipartSound, RowsMove, RowsSound, Rewritten, AdmissionUpdateAllowed;
    hide SessionUpdateAllowed, Commit, AllVerified;
    var key := Key(AcceptScope, request);
    if key in db.idempotency {
      InvAfterTime(db, at.commit);
    } else if && IsMultipart(db, s) && Admitted(db, s, owner, epoch, at.now)
              && db.sessions[s].state == InProgress && AllVerified(PartsOf(db, s)) {
      StandingSound(db, s);
      StandingMulti(db, s);
      var w := Standing(db, s);
      var row := Accepted(w.row, at.flush);
      AcceptedRow(w, db.clock, db.nextId, at.flush);
      ReleaseRows(w, db.clock, at, db.nextId, row);
      var next := w.(row := row, admission := Some(ReleasedAdmission(w.admission.value, at.flush)));
      RewriteKeepsInv(db, s, next, at.commit);
      RewrittenAdmission(db, s, w, row, next.admission.value);
      BindsNew(db, Rewritten(db, s, next), key, IdempotencyRow(AcceptRequest(s), s, None), at, s);
      var bound := Rewritten(db, s, next).(idempotency := db.idempotency[key := IdempotencyRow(AcceptRequest(s), s, None)]);
      CommitPasses(bound, w.row.blobId, at, s);
    }
  }

  /** A transaction that also binds its request id. */
  lemma BindsNew<T>(db: Db, after: Db, key: Key, row: IdempotencyRow, at: Instants, value: T)
    requires Inv(after.(clock := at.commit)) && Advances(db, after.(clock := at.commit))
    requires key !in after.idempotency && BindingSound(after.(clock := at.commit), key, row)
    ensures var done := Finish(after.(idempotency := after.idempotency[key := row]), at, value);
      Inv(done.db) && Advances(db, done.db)
  {
    hide Inv, Advances, BindingSound;
    InvAfterBinding(after.(clock := at.commit), key, row);
    AdvancesTransitive(db, after.(clock := at.commit), Finish(after.(idempotency := after.idempotency[key := row]), at, value).db);
  }

  // ------------------------------------------------------------------ acquire

  lemma GrantedRows(w: Write, lease: AdmissionLease, clock: int, at: Instants, nextId: Id)
    requires Grounded(w, clock, nextId) && Multi(w) && clock < at.now <= at.flush <= at.commit
    requires UploadOwned(w.row.state)
    requires lease.owner < nextId && lease.renewedAt == at.now && lease.expiresAt > at.now
    requires w.admission.None? ==> lease.epoch == 1 && lease.acquiredAt == at.now
    requires w.admission.Some? && w.admission.value.expiresAt <= at.now ==>
      lease.epoch == w.admission.value.epoch + 1 && lease.acquiredAt == at.now && lease.owner != w.admission.value.owner
    requires w.admission.Some? && w.admission.value.expiresAt > at.now ==>
      lease == w.admission.value.(renewedAt := lease.renewedAt, expiresAt := lease.expiresAt)
    ensures var next := w.(row := w.row, admission := Some(lease));
      && (if w.admission.Some? then AdmissionUpdateAllowed(w.admission.value, lease, at.flush) else lease.epoch == 1 && AdmissionChecks(lease))
      && RowsMove(w, next, clock) && RowsSound(next, at.commit, nextId)
  {
    hide MultipartSound;
    PartsKeepReflexive(w.parts.value);
  }

  lemma AllocatedStanding(db: Db, s: Id)
    requires Inv(db) && s in db.sessions && db.sessions[s].strategy == Multipart
    ensures var alloc := db.(nextId := db.nextId + 1);
      && Inv(alloc) && Advances(db, alloc) && SessionSound(alloc, s)
      && alloc.sessions[s].blobId in alloc.blobs && Standing(alloc, s) == Standing(db, s)
      && Grounded(Standing(alloc, s), db.clock, alloc.nextId) && Multi(Standing(alloc, s)) && s in db.parts
  {
    hide Inv, Advances, Grounded, SessionSound;
    InvAfterAllocation(db);
    StandingSound(db.(nextId := db.nextId + 1), s);
    StandingMulti(db.(nextId := db.nextId + 1), s);
  }

  /** A grant is a first lease, a takeover of an expired one by a fresh owner,
      or an extension of the running one. */
  ghost predicate GrantShape(db: Db, s: Id, lease: AdmissionLease, invocation: Id, at: Instants) {
    && lease.owner <= db.nextId && lease.renewedAt == at.now && lease.expiresAt > at.now && lease.invocation == invocation
    && (s !in db.admission ==> lease.epoch == 1 && lease.acquiredAt == at.now)
    && (s in db.admission && db.admission[s].expiresAt <= at.now ==>
          lease.epoch == db.admission[s].epoch + 1 && lease.acquiredAt == at.now && lease.owner != db.admission[s].owner)
    && (s in db.admission && db.admission[s].expiresAt > at.now ==>
          lease == db.admission[s].(renewedAt := lease.renewedAt, expiresAt := lease.expiresAt))
  }

  lemma GrantHasShape(db: Db, s: Id, invocation: Id, ttl: int, capacity: int, at: Instants)
    requires Inv(db) && s in db.sessions && ttl > 0
    ensures var granted := GrantAdmission(db, s, invocation, ttl, capacity, at);
      if granted.Ok? then GrantShape(db, s, granted.value, invocation, at) else !Refused(granted.error)
  {
    hide Inv, LiveAdmissions;
    StandingLease(db, s);
  }

  lemma AcquiredKeepsInv(db: Db, s: Id, lease: AdmissionLease, invocation: Id, at: Instants)
    requires Inv(db) && ValidInstants(db, at) && IsMultipart(db, s) && UploadOwned(db.sessions[s].state)
    requires GrantShape(db, s, lease, invocation, at)
    ensures var leased := PutAdmission(db.(nextId := db.nextId + 1), s, lease, at);
      && leased.Ok? && leased.value == db.(nextId := db.nextId + 1, admission := db.admission[s := lease])
      && Inv(leased.value.(clock := at.commit)) && Advances(db, leased.value.(clock := at.commit))
  {
    hide Inv, Advances, Grounded, SessionSound, RowsMove, RowsSound, Rewritten, AdmissionUpdateAllowed;
    var alloc := db.(nextId := db.nextId + 1);
    AllocatedStanding(db, s);
    var w := Standing(alloc, s);
    GrantedRows(w, lease, db.clock, at, alloc.nextId);
    var next := w.(row := w.row, admission := Some(lease));
    RewriteKeepsInv(alloc, s, next, at.commit);
    RewrittenAdmission(alloc, s, w, w.row, lease);
    AdvancesTransitive(db, alloc, Rewritten(alloc, s, next).(clock := at.commit));
  }

  lemma AcquireSafe(db: Db, request: Id, invocation: Id, s: Id, ttl: int, capacity: int, at: Instants)
    requires Inv(db) && ValidInstants(db, at)
    ensures Safe(db, Acquire(db, request, invocation, s, ttl, capacity, at))
  {
    hide Inv, Advances, PutAdmission, GrantAdmission, Finish;
    var key := Key(AcquireScope, request);
    if key in db.idempotency {
      InvAfterTime(db, at.commit);
      if db.idempotency[key].lease.Some? {
        FinishedIs(db, at, db.idempotency[key].lease.value);
      }
    } else if ttl > 0 && capacity > 0 && IsMultipart(db, s) && UploadOwned(db.sessions[s].state) {
      GrantHasShape(db, s, invocation, ttl, capacity, at);
      var granted := GrantAdmission(db, s, invocation, ttl, capacity, at);
      if granted.Ok? {
        var lease := granted.value;
        AcquiredKeepsInv(db, s, lease, invocation, at);
        var after := db.(nextId := db.nextId + 1, admission := db.admission[s := lease]);
        var answer := AdmissionAnswer(s, lease);
        BindsNew(db, after, key, IdempotencyRow(AcquireRequest(s, invocation), s, Some(answer)), at, answer);
      }
    }
  }

  lemma FinishedIs<T>(db: Db, at: Instants, value: T)
    ensures Finish(db, at, value) == Done(db.(clock := at.commit), value)
  {
  }

  lemma StandingLease(db: Db, s: Id)
    requires Inv(db) && s in db.sessions
    ensures s in db.admission ==> db.admission[s].owner < db.nextId
  {
    hide MultipartSound, SingleSound, PairsOk, GenerationsOk, BlobsOk, VersionsOk, BindingsOk;
    assert SessionSound(db, s);
    assert s in db.admission ==> AdmissionOf(db, s) == Some(db.admission[s]);
  }
}
