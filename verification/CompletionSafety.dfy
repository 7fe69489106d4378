/** Transactions under the completion lease. A guard refuses one in exactly two
    situations: a phase edge the database does not know, and a lease that ran
    out between the store's own check and the flush. */
module CompletionSafety {
  import opened Base
  import opened Flush
  import opened Guards
  import opened History
  import opened Invariant
  import opened LeaseSafety
  import opened Multipart
  import opened Rewrite
  import opened Rows
  import opened Safety
  import opened Sealing

  /** The completion lease the store checked has run out when rows are flushed. */
  predicate Lapses(db: Db, s: Id, at: Instants) {
    s in db.completion && at.now < db.completion[s].expiresAt <= at.flush
  }

  // ------------------------------------------------------------------- claims

  lemma ClaimRows(w: Write, lease: CompletionLease, clock: int, at: Instants, nextId: Id)
    requires Grounded(w, clock, nextId) && Multi(w) && clock < at.now <= at.flush <= at.commit
    requires w.row.state == Completing
    requires lease.acquiredAt == lease.renewedAt == at.now < lease.expiresAt
    requires w.completion.None? ==> lease.epoch == 1
    requires w.completion.Some? ==> w.completion.value.expiresAt <= at.now && lease.epoch == w.completion.value.epoch + 1
    ensures var next := w.(row := w.row, parts := Some(w.parts.value), completion := Some(lease), blob := w.blob);
      && (if w.completion.Some? then CompletionUpdateAllowed(w.completion.value, lease, at.flush) else lease.epoch == 1 && CompletionChecks(lease))
      && RowsMove(w, next, clock) && RowsSound(next, at.commit, nextId)
  {
    hide MultipartSound;
    PartsKeepReflexive(w.parts.value);
  }

  lemma ClaimedKeepsInv(db: Db, s: Id, lease: CompletionLease, at: Instants)
    requires Inv(db) && ValidInstants(db, at) && Claimable(db, s, at.now)
    requires lease.acquiredAt == lease.renewedAt == at.now < lease.expiresAt
    requires lease.epoch == if s in db.completion then db.completion[s].epoch + 1 else 1
    ensures var leased := PutCompletion(db, s, lease, at);
      && leased.Ok? && leased.value == db.(completion := db.completion[s := lease])
      && Inv(leased.value.(clock := at.commit)) && Advances(db, leased.value.(clock := at.commit))
    ensures db.sessions[s].completionPhase.Some?
  {
    hide Inv, Advances, Grounded, SessionSound, RowsMove, RowsSound, Rewritten, CompletionUpdateAllowed;
    StandingSound(db, s);
    StandingMulti(db, s);
    var w := Standing(db, s);
    ClaimRows(w, lease, db.clock, at, db.nextId);
    var next := w.(row := w.row, parts := Some(w.parts.value), completion := Some(lease), blob := w.blob);
    RewriteKeepsInv(db, s, next, at.commit);
    RewrittenCompletion(db, s, w, w.row, w.parts.value, lease, w.blob);
    CompletingHasPhase(w, db.clock, db.nextId);
  }

  lemma CompletingHasPhase(w: Write, clock: int, nextId: Id)
    requires Grounded(w, clock, nextId) && Multi(w) && w.row.state == Completing
    ensures w.row.completionPhase.Some? && w.row.completionReason == Some(PartsReady)
    ensures w.row.completionAttemptedAt.None?
    ensures w.row.provider.Some? && w.blob.state == BlobUploading && AllVerified(w.parts.value)
  {
  }

  lemma ClaimWorkSafe(db: Db, owner: Id, ttl: int, capacity: int, at: Instants)
    requires Inv(db) && ValidInstants(db, at)
    ensures Safe(db, ClaimWork(db, owner, ttl, capacity, at))
  {
    hide Inv, Advances, PutCompletion, LiveCompletions, NextWork;
    InvAfterTime(db, at.commit);
    if ttl > 0 && capacity > 0 {
      var work := NextWork(db, at.now, db.nextId);
      if work.Some? {
        var s := work.value;
        var epoch := if s in db.completion then db.completion[s].epoch + 1 else 1;
        ClaimedKeepsInv(db, s, CompletionLease(owner, epoch, at.now, at.now, at.now + ttl), at);
      }
    }
  }

  // ------------------------------------------------------------------ renewal

  lemma RenewRows(w: Write, lease: CompletionLease, clock: int, at: Instants, nextId: Id)
    requires Grounded(w, clock, nextId) && Multi(w) && clock < at.now <= at.flush <= at.commit
    requires w.completion.Some? && w.completion.value.expiresAt > at.flush
    requires lease == w.completion.value.(renewedAt := at.flush, expiresAt := lease.expiresAt)
    requires lease.expiresAt >= at.flush
    ensures var next := w.(row := w.row, parts := Some(w.parts.value), completion := Some(lease), blob := w.blob);
      && CompletionUpdateAllowed(w.completion.value, lease, at.flush)
      && RowsMove(w, next, clock) && RowsSound(next, at.commit, nextId)
  {
    hide MultipartSound;
    PartsKeepReflexive(w.parts.value);
  }

  predicate RenewRefused(db: Db, s: Id, owner: Id, epoch: int, ttl: int, at: Instants) {
    ttl > 0 && Claimed(db, s, owner, epoch, at.now) && Lapses(db, s, at)
  }

  /** Renewal is refused exactly when the lease lapses before the flush. */
  lemma RenewSafe(db: Db, s: Id, owner: Id, epoch: int, ttl: int, at: Instants)
    requires Inv(db) && ValidInstants(db, at)
    ensures SafeUnless(db, Renew(db, s, owner, epoch, ttl, at), RenewRefused(db, s, owner, epoch, ttl, at), TriggerRejected)
  {
    hide Inv, Advances, Grounded, SessionSound, RowsMove, RowsSound, Rewritten;
    if ttl > 0 && Claimed(db, s, owner, epoch, at.now) && db.completion[s].expiresAt > at.flush {
      LeasedSession(db, s);
      StandingSound(db, s);
      StandingMulti(db, s);
      var w := Standing(db, s);
      var lease := db.completion[s].(renewedAt := at.flush, expiresAt := at.flush + ttl);
      RenewRows(w, lease, db.clock, at, db.nextId);
      var next := w.(row := w.row, parts := Some(w.parts.value), completion := Some(lease), blob := w.blob);
      RewriteKeepsInv(db, s, next, at.commit);
      RewrittenCompletion(db, s, w, w.row, w.parts.value, lease, w.blob);
    }
  }

  // -------------------------------------------------------------------- phase

  /** The two phase edges the application allows and the guard never does. */
  predicate EdgeRefused(current: Phase, target: Phase) {
    || (current == Pending && target == FinalPresent)
    || (current == Assembling && target == Pending)
  }

  predicate SetPhaseRefused(db: Db, s: Id, owner: Id, epoch: int, target: Phase, flags: PhaseFlags, at: Instants) {
    && s in db.sessions && db.sessions[s].state == Completing && db.sessions[s].completionPhase.Some?
    && PhaseTransition(db.sessions[s].completionPhase.value, target, flags)
    && Claimed(db, s, owner, epoch, at.now)
    && EdgeRefused(db.sessions[s].completionPhase.value, target)
  }

  lemma PhaseRow(w: Write, target: Phase, flags: PhaseFlags, clock: int, nextId: Id, at: int)
    requires Grounded(w, clock, nextId) && Multi(w) && w.row.state == Completing
    requires w.row.completionPhase.Some? && PhaseTransition(w.row.completionPhase.value, target, flags)
    ensures SessionUpdateAllowed(w.row, MovedTo(w.row, target, at), w.parts.value, w.blob) <==> !EdgeRefused(w.row.completionPhase.value, target)
  {
    hide PartsSound, PlanFrozen, PlanSealed, LeasesSound;
    FrozenChecks(w.row, w.parts.value, w.blob.size);
  }

  lemma PhaseRows(w: Write, target: Phase, clock: int, commit: int, nextId: Id, at: int)
    requires Grounded(w, clock, nextId) && Multi(w) && clock <= commit && w.row.state == Completing
    ensures var next := w.(row := MovedTo(w.row, target, at), blob := w.blob);
      RowsMove(w, next, clock) && RowsSound(next, commit, nextId)
  {
    hide PartsSound, PlanFrozen;
    PartsKeepReflexive(w.parts.value);
    PlanStaysFrozen(w.row, w.parts.value, MovedTo(w.row, target, at), w.parts.value, w.blob.size);
  }

  /** A phase move is refused exactly on PENDING to FINAL_PRESENT and on
      ASSEMBLING to PENDING, though the application checks admit both. */
  lemma SetPhaseSafe(db: Db, s: Id, owner: Id, epoch: int, target: Phase, flags: PhaseFlags, at: Instants)
    requires Inv(db) && ValidInstants(db, at)
    ensures SafeUnless(db, SetPhase(db, s, owner, epoch, target, flags, at), SetPhaseRefused(db, s, owner, epoch, target, flags, at), TriggerRejected)
  {
    hide Inv, Advances, Grounded, SessionSound, RowsMove, RowsSound, Rewritten, SessionUpdateAllowed, PhaseTransition;
    hide EdgeRefused, Commit;
    if && s in db.sessions && db.sessions[s].state == Completing && db.sessions[s].completionPhase.Some?
       && PhaseTransition(db.sessions[s].completionPhase.value, target, flags) && Claimed(db, s, owner, epoch, at.now) {
      StandingSound(db, s);
      StandingMulti(db, s);
      var w := Standing(db, s);
      PhaseRow(w, target, flags, db.clock, db.nextId, at.flush);
      PhaseRows(w, target, db.clock, at.commit, db.nextId, at.flush);
      var next := w.(row := MovedTo(w.row, target, at.flush), blob := w.blob);
      RewriteKeepsInv(db, s, next, at.commit);
      RewrittenBlob(db, s, w, next.row, w.blob);
      CommitPasses(Rewritten(db, s, next), w.row.blobId, at, ());
    }
  }
}
