/** Leases, field by field: when one is granted, extended, taken over, released or
    renewed, what the row then holds, and which error is raised otherwise. */
module LeaseEffects {
  import opened Base
  import opened Flush
  import opened Guards
  import opened History
  import opened Insertion
  import opened Invariant
  import opened Multipart
  import opened Rows
  import C = CompletionSafety
  import Coverage
  import L = LeaseSafety

  // ---------------------------------------------------------------- admission

  /** The admission row names this owner and epoch and has not run out. */
  predicate OwnsUpload(db: Db, s: Id, owner: Id, epoch: int, now: int) {
    s in db.admission && db.admission[s].owner == owner && db.admission[s].epoch == epoch && now < db.admission[s].expiresAt
  }

  /** Some invocation's admission lease of the session has not run out. */
  predicate UploadRuns(db: Db, s: Id, now: int) {
    s in db.admission && now < db.admission[s].expiresAt
  }

  /** The session is a multipart one in one of these states. */
  predicate MultipartIn(db: Db, s: Id, states: set<SessionState>) {
    s in db.sessions && db.sessions[s].strategy == Multipart && db.sessions[s].state in states
  }

  /** Running leases, over all sessions. */
  function RunningUploads(db: Db, now: int): set<Id> {
    set r | r in db.admission && now < db.admission[r].expiresAt
  }

  /** The condition under which a new request obtains the lease. */
  predicate Obtainable(db: Db, invocation: Id, s: Id, ttl: int, capacity: int, now: int) {
    && ttl > 0 && capacity > 0
    && MultipartIn(db, s, {Created, Initiating, InProgress})
    && (if UploadRuns(db, s, now) then db.admission[s].invocation == invocation else |RunningUploads(db, now)| < capacity)
  }

  /** An extension moves the two later instants only; a grant starts a new epoch
      under an owner that never held a lease. */
  predicate Obtained(db: Db, invocation: Id, s: Id, ttl: int, now: int, lease: AdmissionLease) {
    && lease.invocation == invocation && lease.renewedAt == now && lease.expiresAt == now + ttl
    && (if UploadRuns(db, s, now) then
          lease.owner == db.admission[s].owner && lease.epoch == db.admission[s].epoch && lease.acquiredAt == db.admission[s].acquiredAt
        else
          && (forall r :: r in db.admission ==> db.admission[r].owner != lease.owner)
          && lease.epoch == (if s in db.admission then db.admission[s].epoch + 1 else 1) && lease.acquiredAt == now)
  }

  /** The row, the stored record and the answer agree, and nothing else changed. */
  predicate AcquireLeaves(db: Db, request: Id, invocation: Id, s: Id, ttl: int, at: Instants, done: Done<AdmissionRecord>) {
    && s in done.db.admission
    && var lease, record := done.db.admission[s], done.value;
    && Obtained(db, invocation, s, ttl, at.now, lease)
    && record == AdmissionRecord(s, invocation, lease.owner, lease.epoch, lease.expiresAt, lease.renewedAt)
    && done.db == db.(
         clock := at.commit, nextId := done.db.nextId, admission := db.admission[s := lease],
         idempotency := db.idempotency[Key(AcquireScope, request) := IdempotencyRow(AcquireRequest(s, invocation), s, Some(record))])
  }

  /** What a refused acquisition raises: the first check that fails. */
  function AcquireError(db: Db, s: Id, ttl: int, capacity: int, now: int): Error {
    if ttl <= 0 || capacity <= 0 then ContentConflict
    else if !(s in db.sessions && db.sessions[s].strategy == Multipart) then NotFound
    else if db.sessions[s].state !in {Created, Initiating, InProgress} then IllegalTransition
    else if UploadRuns(db, s, now) then LeaseHeld
    else CapacityExhausted
  }

  /** A new request obtains the admission lease exactly when the session is in
      upload and either its own invocation holds the running lease or none runs and
      a place is free: an expired lease of another invocation is taken over. */
  lemma AcquireDecides(db: Db, request: Id, invocation: Id, s: Id, ttl: int, capacity: int, at: Instants,
                       result: Result<Done<AdmissionRecord>, Error>)
    requires Inv(db) && ValidInstants(db, at) && result == Acquire(db, request, invocation, s, ttl, capacity, at)
    requires Key(AcquireScope, request) !in db.idempotency
    ensures result.Ok? <==> Obtainable(db, invocation, s, ttl, capacity, at.now)
    ensures result.Ok? ==> AcquireLeaves(db, request, invocation, s, ttl, at, result.value)
    ensures result.Err? ==> result.error == AcquireError(db, s, ttl, capacity, at.now)
  {
    hide Inv, Advances, AdmissionUpdateAllowed, AdmissionChecks;
    L.AcquireSafe(db, request, invocation, s, ttl, capacity, at);
    assert RunningUploads(db, at.now) == LiveAdmissions(db, at.now);
    OwnersAreOld(db);
  }

  lemma OwnersAreOld(db: Db)
    requires Inv(db)
    ensures forall r :: r in db.admission ==> db.admission[r].owner < db.nextId
  {
    hide Inv;
    forall r | r in db.admission
      ensures db.admission[r].owner < db.nextId
    {
      L.LeasedSession(db, r);
      L.StandingLease(db, r);
    }
  }

  /** A release ends the lease at the flush and keeps the rest of its row. */
  lemma ReleaseDecides(db: Db, s: Id, owner: Id, epoch: int, at: Instants, result: Result<Done<()>, Error>)
    requires Inv(db) && ValidInstants(db, at) && result == Release(db, s, owner, epoch, at)
    ensures result.Ok? <==> OwnsUpload(db, s, owner, epoch, at.now)
    ensures result.Ok? ==> result.value.db == db.(
      clock := at.commit,
      admission := db.admission[s := AdmissionLease(db.admission[s].invocation, owner, epoch, db.admission[s].acquiredAt, at.flush, at.flush)])
    ensures result.Err? ==> result.error == LeaseLost
  {
    hide Inv, Advances, AdmissionUpdateAllowed, AdmissionChecks;
    L.ReleaseSafe(db, s, owner, epoch, at);
  }

  // --------------------------------------------------------------- completion

  predicate OwnsCompletion(db: Db, s: Id, owner: Id, epoch: int, now: int) {
    s in db.completion && db.completion[s].owner == owner && db.completion[s].epoch == epoch && now < db.completion[s].expiresAt
  }

  function RunningCompletions(db: Db, now: int): set<Id> {
    set r | r in db.completion && now < db.completion[r].expiresAt
  }

  /** Accepted work nobody is at: never claimed, or left by a worker whose lease
      ran out, however many there were. */
  predicate Waits(db: Db, s: Id, now: int) {
    && s in db.sessions && db.sessions[s].strategy == Multipart && db.sessions[s].state == Completing
    && (s in db.completion ==> db.completion[s].expiresAt <= now)
  }

  /** Accepted earlier, or at the same instant with the smaller identifier. */
  predicate Precedes(db: Db, s: Id, r: Id)
    requires s in db.sessions && r in db.sessions
    requires db.sessions[s].completionRequestedAt.Some? && db.sessions[r].completionRequestedAt.Some?
  {
    var t, u := db.sessions[s].completionRequestedAt.value, db.sessions[r].completionRequestedAt.value;
    t < u || (t == u && s <= r)
  }

  lemma WaitingIsAccepted(db: Db, s: Id, now: int)
    requires Inv(db) && Waits(db, s, now)
    ensures s < db.nextId && db.sessions[s].completionRequestedAt.Some? && db.sessions[s].completionPhase.Some?
  {
    hide Inv, PlanFrozen, PartsSound, SingleSound, LeasesSound, BlobFollows, AllVerified;
    SessionIdBelow(db, s);
    Coverage.FrozenParts(db, s);
  }

  lemma WaitingHasTime(db: Db, now: int)
    requires Inv(db)
    ensures forall r :: Waits(db, r, now) ==> r in db.sessions && db.sessions[r].completionRequestedAt.Some?
  {
    hide Inv;
    forall r | Waits(db, r, now)
      ensures r in db.sessions && db.sessions[r].completionRequestedAt.Some?
    {
      WaitingIsAccepted(db, r, now);
    }
  }

  lemma SessionIdBelow(db: Db, s: Id)
    requires Inv(db) && s in db.sessions
    ensures s < db.nextId
  {
    hide Inv, MultipartSound, SingleSound, LeasesSound;
    SoundOf(db, s);
  }

  lemma {:induction false} NextWorkBelow(db: Db, clock: int, below: Id)
    ensures NextWork(db, clock, below).Some? ==> NextWork(db, clock, below).value < below
  {
    if below > 0 {
      NextWorkBelow(db, clock, below - 1);
    }
  }

  lemma {:induction false} NextWorkIsFirst(db: Db, clock: int, below: Id, r: Id)
    requires r < below && Claimable(db, r, clock)
    ensures NextWork(db, clock, below).Some?
    ensures var w := NextWork(db, clock, below).value; r == w || RequestedBefore(db, w, r)
  {
    NextWorkBelow(db, clock, below - 1);
    if r < below - 1 {
      NextWorkIsFirst(db, clock, below - 1, r);
    }
  }

  /** The claim of session `s`: the next epoch of its lease, from now on. */
  predicate Claims(db: Db, s: Id, owner: Id, ttl: int, now: int, claim: Claim)
    requires s in db.sessions
  {
    && claim.sessionId == s && Some(claim.phase) == db.sessions[s].completionPhase
    && claim.lease.owner == owner
    && claim.lease.epoch == (if s in db.completion then db.completion[s].epoch + 1 else 1)
    && claim.lease.acquiredAt == now && claim.lease.renewedAt == now && claim.lease.expiresAt == now + ttl
  }

  /** A claim with a free place takes the waiting session that was accepted first,
      and takes none exactly when none waits or no place is free. */
  lemma ClaimDecides(db: Db, owner: Id, ttl: int, capacity: int, at: Instants, result: Result<Done<Option<Claim>>, Error>)
    requires Inv(db) && ValidInstants(db, at) && result == ClaimWork(db, owner, ttl, capacity, at)
    ensures forall r :: Waits(db, r, at.now) ==> r in db.sessions && db.sessions[r].completionRequestedAt.Some?
    ensures if ttl > 0 && capacity > 0 then result.Ok? else result == Err(ContentConflict)
    ensures result.Ok? ==>
      (result.value.value.Some? <==> |RunningCompletions(db, at.now)| < capacity && exists r :: Waits(db, r, at.now))
    ensures result.Ok? && result.value.value.None? ==> result.value.db == db.(clock := at.commit)
    ensures result.Ok? && result.value.value.Some? ==>
      var claim := result.value.value.value;
      && Waits(db, claim.sessionId, at.now)
      && (forall r :: Waits(db, r, at.now) ==> Precedes(db, claim.sessionId, r))
      && Claims(db, claim.sessionId, owner, ttl, at.now, claim)
      && result.value.db == db.(clock := at.commit, completion := db.completion[claim.sessionId := claim.lease])
  {
    hide Inv, Advances, CompletionUpdateAllowed, CompletionChecks, NextWork, LiveCompletions, RunningCompletions;
    C.ClaimWorkSafe(db, owner, ttl, capacity, at);
    SameRunning(db, at.now);
    WaitingHasTime(db, at.now);
    forall r | Waits(db, r, at.now)
      ensures NextWork(db, at.now, db.nextId).Some?
      ensures var w := NextWork(db, at.now, db.nextId).value; r == w || RequestedBefore(db, w, r)
    {
      WaitingIsAccepted(db, r, at.now);
      NextWorkIsFirst(db, at.now, db.nextId, r);
    }
    var work := NextWork(db, at.now, db.nextId);
    if work.Some? {
      assert Waits(db, work.value, at.now);
      WaitingIsAccepted(db, work.value, at.now);
    }
  }

  lemma SameRunning(db: Db, now: int)
    ensures RunningCompletions(db, now) == LiveCompletions(db, now)
  {
  }

  /** A renewal extends the running lease from the flush and keeps the rest. */
  lemma RenewDecides(db: Db, s: Id, owner: Id, epoch: int, ttl: int, at: Instants,
                     result: Result<Done<CompletionLease>, Error>)
    requires Inv(db) && ValidInstants(db, at) && result == Renew(db, s, owner, epoch, ttl, at)
    ensures result.Ok? <==> ttl > 0 && OwnsCompletion(db, s, owner, epoch, at.flush)
    ensures result.Ok? ==>
      && result.value.value == CompletionLease(owner, epoch, db.completion[s].acquiredAt, at.flush, at.flush + ttl)
      && result.value.db == db.(clock := at.commit, completion := db.completion[s := result.value.value])
    ensures ttl <= 0 ==> result == Err(ContentConflict)
    ensures ttl > 0 && !OwnsCompletion(db, s, owner, epoch, at.now) ==> result == Err(LeaseLost)
    ensures ttl > 0 && OwnsCompletion(db, s, owner, epoch, at.now) && result.Err? ==> result == Err(TriggerRejected)
  {
    hide Inv, Advances, CompletionUpdateAllowed, CompletionChecks;
    C.RenewSafe(db, s, owner, epoch, ttl, at);
  }
}
