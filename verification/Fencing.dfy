/** Leases as fences: who may write, and that a lost token never writes again. */
module Fencing {
  import opened Base
  import opened History
  import opened Invariant
  import opened Multipart
  import opened Rows

  // ----------------------------------------------------------------- ownership

  predicate LiveAdmission(db: Db, s: Id, t: int) {
    s in db.admission && db.admission[s].expiresAt > t
  }

  predicate LiveCompletion(db: Db, s: Id, t: int) {
    s in db.completion && db.completion[s].expiresAt > t
  }

  /** An unexpired admission lease means the session is in upload, an unexpired
      completion lease means it is completing; never both. */
  lemma OwnersExclude(db: Db, s: Id, t: int)
    requires Inv(db) && db.clock <= t
    ensures LiveAdmission(db, s, t) ==> s in db.sessions && UploadOwned(db.sessions[s].state)
    ensures LiveCompletion(db, s, t) ==> s in db.sessions && db.sessions[s].state == Completing
    ensures !(LiveAdmission(db, s, t) && LiveCompletion(db, s, t))
  {
    hide PairsOk, GenerationsOk, BlobsOk, VersionsOk, BindingsOk, MultipartSound, SingleSound;
    if s in db.sessions {
      assert SessionSound(db, s);
      assert s in db.admission ==> AdmissionOf(db, s) == Some(db.admission[s]);
      assert s in db.completion ==> CompletionOf(db, s) == Some(db.completion[s]);
    }
  }

  // -------------------------------------------------------------- dead tokens

  /** The admission token (owner, epoch) is superseded or has run out. */
  predicate AdmissionDead(db: Db, s: Id, owner: Id, epoch: int) {
    s in db.admission &&
    var lease := db.admission[s];
    epoch < lease.epoch || (epoch == lease.epoch && (owner != lease.owner || lease.expiresAt <= db.clock))
  }

  predicate CompletionDead(db: Db, s: Id, owner: Id, epoch: int) {
    s in db.completion &&
    var lease := db.completion[s];
    epoch < lease.epoch || (epoch == lease.epoch && (owner != lease.owner || lease.expiresAt <= db.clock))
  }

  /** Dead tokens stay dead, and pass no fence at any later instant. */
  lemma DeadStaysDead(db: Db, after: Db, s: Id, owner: Id, epoch: int, t: int)
    requires Advances(db, after) && after.clock <= t
    ensures AdmissionDead(db, s, owner, epoch) ==> AdmissionDead(after, s, owner, epoch) && !Admitted(after, s, owner, epoch, t)
    ensures CompletionDead(db, s, owner, epoch) ==> CompletionDead(after, s, owner, epoch) && !Claimed(after, s, owner, epoch, t)
  {
    hide SessionsAdvance, ContentAdvances, BindingsPersist;
    assert s in db.admission ==> s in after.admission && AdmissionAdvances(db.admission[s], after.admission[s], db.clock);
    assert s in db.completion ==> s in after.completion && CompletionAdvances(db.completion[s], after.completion[s], db.clock);
  }

  /** A token that fails its fence for expiry or supersession is dead from then on. */
  lemma FailedFenceIsDead(db: Db, s: Id, owner: Id, epoch: int, t: int)
    requires db.clock <= t
    ensures s in db.admission && epoch <= db.admission[s].epoch && !Admitted(db, s, owner, epoch, t) ==>
      AdmissionDead(db.(clock := t), s, owner, epoch)
    ensures s in db.completion && epoch <= db.completion[s].epoch && !Claimed(db, s, owner, epoch, t) ==>
      CompletionDead(db.(clock := t), s, owner, epoch)
  {
  }

  /** Epochs never decrease, and one epoch has one owner. */
  lemma OneOwnerPerEpoch(db: Db, after: Db, s: Id)
    requires Advances(db, after)
    ensures s in db.admission ==> s in after.admission && db.admission[s].epoch <= after.admission[s].epoch
    ensures s in db.admission && db.admission[s].epoch == after.admission[s].epoch ==>
      after.admission[s].owner == db.admission[s].owner && after.admission[s].invocation == db.admission[s].invocation
    ensures s in db.completion ==> s in after.completion && db.completion[s].epoch <= after.completion[s].epoch
    ensures s in db.completion && db.completion[s].epoch == after.completion[s].epoch ==>
      after.completion[s].owner == db.completion[s].owner
  {
    hide SessionsAdvance, ContentAdvances, BindingsPersist;
  }

  // ------------------------------------------------------------------- replays

  /** The record a replayed acquisition returns passes the admission fence only
      while it still names the running lease. */
  lemma ReplayedLeaseIsFenced(db: Db, key: Key, t: int)
    requires Inv(db) && key in db.idempotency && key.scope == AcquireScope
    ensures db.idempotency[key].lease.Some?
    ensures var record := db.idempotency[key].lease.value;
      && record.sessionId in db.admission
      && (Admitted(db, record.sessionId, record.owner, record.epoch, t) <==>
            record.epoch == db.admission[record.sessionId].epoch && db.admission[record.sessionId].expiresAt > t)
  {
    hide SessionsOk, PairsOk, GenerationsOk, BlobsOk, VersionsOk;
    assert BindingSound(db, key, db.idempotency[key]);
  }

  // ------------------------------------------------------------------ receipts

  predicate HasReceipt(db: Db, s: Id, i: int, etag: string) {
    s in db.parts && 0 <= i < |db.parts[s]| && db.parts[s][i].responseEtag == Some(etag)
  }

  /** A stored receipt is never replaced, though a part may be reset. */
  lemma ReceiptPersists(db: Db, after: Db, s: Id, i: int, etag: string)
    requires Advances(db, after) && HasReceipt(db, s, i, etag)
    ensures HasReceipt(after, s, i, etag) && after.parts[s][i].responseChecksum == db.parts[s][i].responseChecksum
  {
    hide LeasesAdvance, ContentAdvances, BindingsPersist;
    assert PartKeeps(db.parts[s][i], after.parts[s][i]);
  }
}
