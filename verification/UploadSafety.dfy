/** The upload transactions keep the invariant and are never refused by a guard. */
module UploadSafety {
  import opened Base
  import opened Digest
  import opened Flush
  import opened Guards
  import opened History
  import opened Invariant
  import opened Multipart
  import opened PartSafety
  import opened Rewrite
  import opened Rows
  import opened Safety
  import opened Sealing

  lemma BeginInitiationRows(w: Write, clock: int, commit: int, nextId: Id, at: int)
    requires Grounded(w, clock, nextId) && Multi(w) && clock <= commit && w.row.state == Created
    ensures var next := w.(row := Begun(w.row, at));
      && SessionUpdateAllowed(w.row, next.row, w.parts.value, w.blob)
      && RowsMove(w, next, clock) && RowsSound(next, commit, nextId)
  {
    hide PartSound, PlanFrozen, PlanSealed;
    var next := w.(row := Begun(w.row, at));
    PartsKeepReflexive(w.parts.value);
    PlanStaysFrozen(w.row, w.parts.value, next.row, w.parts.value, w.blob.size);
    FrozenPlanSeals(next.row, w.parts.value, w.blob.size);
    FrozenChecks(w.row, w.parts.value, w.blob.size);
  }

  lemma BeginInitiationSafe(db: Db, s: Id, owner: Id, epoch: int, at: Instants)
    requires Inv(db) && ValidInstants(db, at)
    ensures Safe(db, BeginInitiation(db, s, owner, epoch, at))
  {
    hide Inv, Advances, Grounded, SessionUpdateAllowed, RowsMove, RowsSound, Commit;
    if AdmittedIn(db, s, owner, epoch, Created, at.now) {
      StandingSound(db, s);
      var w := Standing(db, s);
      BeginInitiationRows(w, db.clock, at.commit, db.nextId, at.flush);
      var next := w.(row := Begun(w.row, at.flush));
      RewriteKeepsInv(db, s, next, at.commit);
      RewrittenBlob(db, s, w, next.row, w.blob);
      CommitPasses(Rewritten(db, s, next), w.row.blobId, at, ());
    }
  }

  // -------------------------------------------------------------- provider id

  lemma ProviderRow(w: Write, clock: int, nextId: Id, provider: string, at: int)
    requires Grounded(w, clock, nextId) && Multi(w) && w.row.state == Initiating && provider != ""
    ensures SessionUpdateAllowed(w.row, Started(w.row, provider, at), w.parts.value, w.blob)
  {
    hide PartsSound, PlanFrozen, PlanSealed;
    FrozenChecks(w.row, w.parts.value, w.blob.size);
  }

  lemma ProviderRows(w: Write, blob: BlobRow, clock: int, commit: int, nextId: Id, provider: string, at: int)
    requires Grounded(w, clock, nextId) && Multi(w) && clock <= commit && w.row.state == Initiating && provider != ""
    requires w.blob.state == BlobPending ==> blob == w.blob.(state := BlobUploading)
    requires w.blob.state != BlobPending ==> blob == w.blob && w.blob.state == BlobUploading
    ensures var next := w.(row := Started(w.row, provider, at), blob := blob);
      RowsMove(w, next, clock) && RowsSound(next, commit, nextId)
  {
    hide PartsSound, PlanFrozen;
    var next := Started(w.row, provider, at);
    PartsKeepReflexive(w.parts.value);
    PlanStaysFrozen(w.row, w.parts.value, next, w.parts.value, w.blob.size);
  }

  lemma RecordProviderSafe(db: Db, s: Id, owner: Id, epoch: int, provider: string, at: Instants)
    requires Inv(db) && ValidInstants(db, at)
    ensures Safe(db, RecordProvider(db, s, owner, epoch, provider, at))
  {
    hide Inv, Advances, Grounded, SessionUpdateAllowed, RowsMove, RowsSound, Commit, Rewritten;
    if provider != "" && AdmittedIn(db, s, owner, epoch, Initiating, at.now) {
      StandingSound(db, s);
      StandingMulti(db, s);
      var w := Standing(db, s);
      ProviderRow(w, db.clock, db.nextId, provider, at.flush);
      var row := Started(w.row, provider, at.flush);
      if w.blob.state == BlobPending || w.blob.state == BlobUploading {
        var blob := if w.blob.state == BlobPending then w.blob.(state := BlobUploading) else w.blob;
        var next := w.(row := row, blob := blob);
        ProviderRows(w, blob, db.clock, at.commit, db.nextId, provider, at.flush);
        RewriteKeepsInv(db, s, next, at.commit);
        CommitPasses(Rewritten(db, s, next), w.row.blobId, at, ());
        RewrittenBlob(db, s, w, row, blob);
      }
    }
  }

  // -------------------------------------------------------------------- parts

  lemma TouchRows(w: Write, rows: seq<PartRow>, clock: int, commit: int, nextId: Id, row: SessionRow)
    requires Grounded(w, clock, nextId) && Multi(w) && clock <= commit && w.row.state == InProgress
    requires PartsSound(rows) && PartsKeep(w.parts.value, rows)
    requires row == w.row.(reconciledAt := row.reconciledAt, lastActivityAt := row.lastActivityAt)
    ensures var next := w.(row := row, parts := Some(rows));
      && SessionUpdateAllowed(w.row, row, w.parts.value, w.blob)
      && RowsMove(w, next, clock) && RowsSound(next, commit, nextId)
  {
    hide PartsSound, PlanFrozen, PlanSealed, PartsKeep;
    PlanStaysFrozen(w.row, w.parts.value, row, rows, w.blob.size);
    FrozenChecks(w.row, w.parts.value, w.blob.size);
  }

  lemma MultiParts(w: Write, clock: int, nextId: Id)
    requires Grounded(w, clock, nextId) && Multi(w)
    ensures PlanFrozen(w.row, w.parts.value, w.blob.size) && PartsSound(w.parts.value)
  {
  }

  lemma OnePartRecorded(parent: SessionRow, parts: seq<PartRow>, i: int, next: PartRow)
    requires 0 <= i < |parts| && PartsSound(parts) && PartUpdateAllowed(parent, parts[i], next)
    requires PartSound(next) && PartKeeps(parts[i], next)
    ensures PartsUpdateAllowed(parent, parts, parts[i := next]) && PartsSound(parts[i := next])
    ensures PartsKeep(parts, parts[i := next])
  {
    hide PartSound, PartUpdateAllowed;
  }

  lemma RecordPartSafe(db: Db, s: Id, owner: Id, epoch: int, receipt: Receipt, at: Instants)
    requires Inv(db) && ValidInstants(db, at)
    ensures Safe(db, RecordPart(db, s, owner, epoch, receipt, at))
  {
    hide Inv, Advances, Grounded, SessionUpdateAllowed, PartsUpdateAllowed, PartUpdateAllowed, RowsMove, RowsSound;
    hide Commit;
    hide PartSound, PartKeeps, HasReceiptField, PlanFrozen, ChecksumToDigest, ChecksumBase64, Rewritten, Uploaded;
    hide StoredReceipt, Grounded, PartsSound;
    if CheckReceipt(receipt).Pass? && AdmittedIn(db, s, owner, epoch, InProgress, at.now) {
      StandingSound(db, s);
      StandingMulti(db, s);
      var w := Standing(db, s);
      MultiParts(w, db.clock, db.nextId);
      var row, parts := Touched(w.row, at.flush), w.parts.value;
      PartsKeepReflexive(parts);
      TouchRows(w, parts, db.clock, at.commit, db.nextId, row);
      if Planned(parts, receipt.number) && ChecksumToDigest(receipt.checksum) == Some(parts[receipt.number - 1].sha256) {
        var i := receipt.number - 1;
        ChecksumBijection(receipt.checksum, parts[i].sha256);
        ReceiptReads(parts[i]);
        var rows := if HasReceiptField(parts[i]) then parts else parts[i := Uploaded(parts[i], receipt, at.flush)];
        if !HasReceiptField(parts[i]) {
          RecordedPart(row, parts[i], receipt, at.flush);
          OnePartRecorded(row, parts, i, rows[i]);
        }
        TouchRows(w, rows, db.clock, at.commit, db.nextId, row);
        var next := w.(row := row, parts := Some(rows));
        RewriteKeepsInv(db, s, next, at.commit);
        CommitPasses(Rewritten(db, s, next), w.row.blobId, at, rows[i]);
        RewrittenParts(db, s, w, row, rows);
      }
    }
  }

  lemma ReconcileSafe(db: Db, s: Id, owner: Id, epoch: int, observations: seq<Observation>, at: Instants)
    requires Inv(db) && ValidInstants(db, at)
    ensures Safe(db, Reconcile(db, s, owner, epoch, observations, at))
  {
    hide Inv, Advances, Grounded, SessionUpdateAllowed, PartsUpdateAllowed, RowsMove, RowsSound, Commit;
    hide PartSound, PartsKeep, PlanFrozen, ObserveAll, ReconcileAll, Resolved, CheckObservations, AllPlanned, Rewritten;
    CheckNeverRefuses(observations);
    if CheckObservations(observations).Pass? && AdmittedIn(db, s, owner, epoch, InProgress, at.now) {
      StandingSound(db, s);
      StandingMulti(db, s);
      var w := Standing(db, s);
      MultiParts(w, db.clock, db.nextId);
      var row, parts := Reconciling(w.row, at.flush), w.parts.value;
      var rows := ReconcileAll(parts, observations, at.flush);
      ReconciledParts(row, parts, observations, at.flush);
      TouchRows(w, rows, db.clock, at.commit, db.nextId, row);
      var next := w.(row := row, parts := Some(rows));
      RewriteKeepsInv(db, s, next, at.commit);
      CommitPasses(Rewritten(db, s, next), w.row.blobId, at, Resolved(parts, observations));
      RewrittenParts(db, s, w, row, rows);
      var touched := db.(sessions := db.sessions[s := row]);
      var observed := ObserveAll(parts, observations, at.flush);
      assert touched.parts[s := observed][s := rows] == touched.parts[s := rows];
    }
  }
}
