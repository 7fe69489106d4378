/** The first receipt of a part stands for ever: exactly when a receipt is taken,
    and what a reset leaves of the one before it. */
module Receipts {
  import opened Base
  import opened Digest
  import opened Fencing
  import opened Flush
  import opened History
  import opened Invariant
  import opened Multipart
  import opened Rows
  import opened Runs
  import opened Safety
  import opened Sealing
  import opened UploadSafety
  import Coverage
  import R = Reconciliation

  /** The part has no receipt yet, or this very one. */
  predicate Takes(part: PartRow, receipt: Receipt) {
    && receipt.checksum == ChecksumBase64(part.sha256)
    && (part.responseEtag.None? || part.responseEtag == Some(receipt.etag))
  }

  /** A well-formed receipt, presented by the owner of a session in upload, for a
      planned part that takes it. */
  predicate Recordable(db: Db, s: Id, owner: Id, epoch: int, receipt: Receipt, clock: int) {
    && CheckReceipt(receipt).Pass?
    && AdmittedIn(db, s, owner, epoch, InProgress, clock)
    && Planned(PartsOf(db, s), receipt.number)
    && Takes(PartsOf(db, s)[receipt.number - 1], receipt)
  }

  lemma PlannedPart(db: Db, s: Id, number: int)
    requires Inv(db) && IsMultipart(db, s) && Planned(PartsOf(db, s), number)
    ensures PartSound(PartsOf(db, s)[number - 1]) && PartsOf(db, s)[number - 1].number == number
  {
    hide Inv, PlanFrozen, PartSound, StateSound, BlobFollows;
    Coverage.FrozenParts(db, s);
    NumberedFromOne(db.sessions[s], db.parts[s], db.blobs[db.sessions[s].blobId].size, number - 1);
  }

  /** The stored receipt is the presented one exactly when their ETags agree. */
  lemma ReceiptIsTaken(part: PartRow, receipt: Receipt)
    requires PartSound(part) && part.number == receipt.number
    ensures ChecksumToDigest(receipt.checksum) == Some(part.sha256) <==> receipt.checksum == ChecksumBase64(part.sha256)
    ensures StoredReceipt(part).Ok? && (HasReceiptField(part) <==> part.responseEtag.Some?)
    ensures receipt.checksum == ChecksumBase64(part.sha256) ==>
      (HasReceiptField(part) && StoredReceipt(part).value == Some(receipt) <==> part.responseEtag == Some(receipt.etag))
  {
    ChecksumBijection(receipt.checksum, part.sha256);
    ReceiptReads(part);
    hide ChecksumToDigest, ChecksumBase64, IsDigest, StoredReceipt;
  }

  /** A receipt is recorded exactly when it is well formed, its owner is fenced in,
      and the part has none with another ETag. */
  lemma RecordPartCommitsExactly(db: Db, s: Id, owner: Id, epoch: int, receipt: Receipt, at: Instants)
    requires Inv(db) && ValidInstants(db, at)
    ensures RecordPart(db, s, owner, epoch, receipt, at).Ok? <==> Recordable(db, s, owner, epoch, receipt, at.now)
  {
    hide Inv, PutSession, PutParts, Commit, PartSound, ChecksumToDigest, ChecksumBase64, StoredReceipt, HasReceiptField;
    hide CheckReceipt, Uploaded;
    RecordPartSafe(db, s, owner, epoch, receipt, at);
    if AdmittedIn(db, s, owner, epoch, InProgress, at.now) && Planned(PartsOf(db, s), receipt.number) {
      Coverage.AdmittedIsMulti(db, s);
      PlannedPart(db, s, receipt.number);
      ReceiptIsTaken(PartsOf(db, s)[receipt.number - 1], receipt);
    }
    CheckReceiptNeverRefuses(receipt);
  }

  lemma CheckReceiptNeverRefuses(receipt: Receipt)
    ensures CheckReceipt(receipt).Fail? ==> !Refused(CheckReceipt(receipt).error)
  {
  }

  // -------------------------------------------------------------------- resets

  /** A part the provider no longer lists goes back to PENDING, with its receipt;
      from then on it takes the old ETag and no other. */
  lemma ResetKeepsReceipt(db: Db, s: Id, owner: Id, epoch: int, observations: seq<Observation>, at: Instants, i: int,
                          etag: string)
    requires Inv(db) && ValidInstants(db, at) && Reconcile(db, s, owner, epoch, observations, at).Ok?
    requires HasReceipt(db, s, i, etag) && ObservationFor(observations, i + 1).None?
    ensures var after := Reconcile(db, s, owner, epoch, observations, at).value.db;
      && HasReceipt(after, s, i, etag) && after.parts[s][i].state == PartPending
      && Inv(after) && after.clock == at.commit
  {
    hide Inv, Advances, ReconcileAll, Resolved, CheckObservations, PartSound;
    ReconcileSafe(db, s, owner, epoch, observations, at);
    var after := Reconcile(db, s, owner, epoch, observations, at).value.db;
    Reconciled(db, s, owner, epoch, observations, at);
    R.ReconcileIsProjection(db, s, owner, epoch, observations, at);
    ReceiptPersists(db, after, s, i, etag);
    assert PartsOf(db, s) == db.parts[s];
    PlannedPart(db, s, i + 1);
    assert !R.AgreesAt(db.parts[s], observations, i);
  }

  lemma Reconciled(db: Db, s: Id, owner: Id, epoch: int, observations: seq<Observation>, at: Instants)
    requires Inv(db) && Reconcile(db, s, owner, epoch, observations, at).Ok?
    ensures IsMultipart(db, s)
  {
    hide Inv, PutSession, PutParts, Commit, ObserveAll, ReconcileAll, Resolved, CheckObservations;
    Coverage.AdmittedIsMulti(db, s);
  }

  /** The documented fresh receipt after a reset is taken only if it repeats the
      ETag of the first one. */
  lemma FreshReceiptAfterReset(db: Db, s: Id, owner: Id, epoch: int, observations: seq<Observation>, at: Instants,
                               i: int, etag: string, holder: Id, later: int, receipt: Receipt, again: Instants)
    requires Inv(db) && ValidInstants(db, at) && Reconcile(db, s, owner, epoch, observations, at).Ok?
    requires HasReceipt(db, s, i, etag) && ObservationFor(observations, i + 1).None? && receipt.number == i + 1
    requires at.commit < again.now <= again.flush <= again.commit
    ensures var reset := Reconcile(db, s, owner, epoch, observations, at).value.db;
      && HasReceipt(reset, s, i, etag) && reset.parts[s][i].state == PartPending
      && (RecordPart(reset, s, holder, later, receipt, again).Ok? <==>
            && CheckReceipt(receipt).Pass? && AdmittedIn(reset, s, holder, later, InProgress, again.now)
            && receipt.checksum == ChecksumBase64(reset.parts[s][i].sha256) && receipt.etag == etag)
  {
    hide Inv, Reconcile, RecordPart, CheckReceipt, ChecksumBase64;
    ResetKeepsReceipt(db, s, owner, epoch, observations, at, i, etag);
    var reset := Reconcile(db, s, owner, epoch, observations, at).value.db;
    RecordPartCommitsExactly(reset, s, holder, later, receipt, again);
  }

  /** After any run a stored receipt stands, and one with another ETag is refused. */
  lemma FirstReceiptForever(db: Db, run: seq<Event>, s: Id, i: int, etag: string, owner: Id, epoch: int,
                            receipt: Receipt, at: Instants)
    requires Inv(db) && ValidRun(db, run) && HasReceipt(db, s, i, etag)
    requires ValidInstants(After(db, run), at) && receipt.number == i + 1
    ensures HasReceipt(After(db, run), s, i, etag)
    ensures RecordPart(After(db, run), s, owner, epoch, receipt, at).Ok? ==> receipt.etag == etag
  {
    hide Inv, Advances, After, ValidRun, RecordPart, CheckReceipt, ChecksumBase64;
    RunSound(db, run);
    ReceiptPersists(db, After(db, run), s, i, etag);
    RecordPartCommitsExactly(After(db, run), s, owner, epoch, receipt, at);
  }
}
