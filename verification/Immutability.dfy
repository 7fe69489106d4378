/** What the triggers alone protect: under any writes whatever, in any order and
    from any client, not only those the store issues. */
module Immutability {
  import opened Base
  import opened Digest
  import opened Flush
  import opened Guards
  import opened Rows

  /** One row write a client may send. */
  datatype RowWrite =
    | NewSession(s: Id, session: SessionRow)
    | SetSession(s: Id, session: SessionRow)
    | NewParts(s: Id, rows: seq<PartRow>)
    | SetParts(s: Id, rows: seq<PartRow>)
    | SetAdmission(s: Id, admission: AdmissionLease, at: Instants)
    | SetCompletion(s: Id, completion: CompletionLease, at: Instants)
    | NewBlob(b: Id, blob: BlobRow)
    | SetBlob(b: Id, blob: BlobRow)
    | NewVersion(v: Id, version: VersionRow)
    | SetVersion(v: Id, version: VersionRow)
    | NewEntry(v: Id, entry: EntryRow)

  function Attempt(db: Db, w: RowWrite): Result<Db, Error> {
    match w
    case NewSession(s, session) => InsertSession(db, s, session)
    case SetSession(s, session) => PutSession(db, s, session)
    case NewParts(s, rows) => InsertParts(db, s, rows)
    case SetParts(s, rows) => PutParts(db, s, rows)
    case SetAdmission(s, admission, at) => PutAdmission(db, s, admission, at)
    case SetCompletion(s, completion, at) => PutCompletion(db, s, completion, at)
    case NewBlob(b, blob) => InsertBlob(db, b, blob)
    case SetBlob(b, blob) => PutBlob(db, b, blob)
    case NewVersion(v, version) => InsertVersion(db, v, version)
    case SetVersion(v, version) => PutVersion(db, v, version)
    case NewEntry(v, entry) =>
      var listed :- InsertEntry(db, v, EntriesOf(db, v), entry);
      Ok(db.(entries := db.entries[v := listed]))
  }

  /** A refused write changes nothing. */
  function Written(db: Db, writes: seq<RowWrite>): Db {
    if |writes| == 0 then db
    else
      var before := Written(db, writes[..|writes| - 1]);
      match Attempt(before, writes[|writes| - 1])
      case Ok(after) => after
      case Err(_) => before
  }

  // ---------------------------------------------------------- what never changes

  /** Identity and strategy; a frozen plan and a provider id; a finished session. */
  predicate SessionStands(was: SessionRow, now: SessionRow) {
    && now.blobId == was.blobId && now.versionId == was.versionId && now.strategy == was.strategy
    && (was.strategy == Multipart ==> now.frozen == was.frozen && (was.provider.Some? ==> now.provider == was.provider))
    && (was.state in {Completed, Failed} ==> now == was)
    && (was.strategy == Multipart && was.state in {Aborted, Cancelled} ==> now == was)
  }

  /** The planned columns of every part. */
  predicate PlanStands(was: seq<PartRow>, now: seq<PartRow>) {
    |now| == |was| && forall i :: 0 <= i < |was| ==>
      now[i].number == was[i].number && now[i].offset == was[i].offset && now[i].size == was[i].size && now[i].sha256 == was[i].sha256
  }

  /** Epochs do not fall, and one epoch has one owner and one beginning. */
  predicate AdmissionStands(was: AdmissionLease, now: AdmissionLease) {
    && was.epoch <= now.epoch && was.renewedAt <= now.renewedAt
    && (now.epoch == was.epoch ==> now.owner == was.owner && now.invocation == was.invocation && now.acquiredAt == was.acquiredAt)
  }

  predicate CompletionStands(was: CompletionLease, now: CompletionLease) {
    && was.epoch <= now.epoch && was.renewedAt <= now.renewedAt
    && (now.epoch == was.epoch ==> now.owner == was.owner && now.acquiredAt == was.acquiredAt)
  }

  /** The content of a Blob, and all of an AVAILABLE one. */
  predicate BlobStands(was: BlobRow, now: BlobRow) {
    now.sha256 == was.sha256 && now.size == was.size && (was.state == BlobAvailable ==> now == was)
  }

  /** The content of a sealed Version, and all of a READY one. */
  predicate VersionStands(was: VersionRow, now: VersionRow) {
    && (was.state == Ready ==> now == was)
    && (was.sealedAt.Some? ==>
          now.datasetId == was.datasetId && now.number == was.number && now.manifest == was.manifest
          && now.totals == was.totals && now.sealedAt == was.sealedAt)
  }

  predicate Stands(db: Db, after: Db) {
    && (forall s :: s in db.sessions ==> s in after.sessions && SessionStands(db.sessions[s], after.sessions[s]))
    && (forall s :: s in db.parts ==> s in after.parts && PlanStands(db.parts[s], after.parts[s]))
    && (forall s :: s in db.admission ==> s in after.admission && AdmissionStands(db.admission[s], after.admission[s]))
    && (forall s :: s in db.completion ==> s in after.completion && CompletionStands(db.completion[s], after.completion[s]))
    && (forall b :: b in db.blobs ==> b in after.blobs && BlobStands(db.blobs[b], after.blobs[b]))
    && (forall v :: v in db.versions ==> v in after.versions && VersionStands(db.versions[v], after.versions[v]))
    && (forall v :: v in db.versions && db.versions[v].sealedAt.Some? ==> EntriesOf(after, v) == EntriesOf(db, v))
  }

  lemma SessionStays(was: SessionRow, now: SessionRow, parts: seq<PartRow>, blob: BlobRow)
    requires SessionUpdateAllowed(was, now, parts, blob)
    ensures SessionStands(was, now)
  {
    hide PlanSealed, SessionChecks, CompletingAllowed, RecoveryAllowed, CompletionProven, SessionEdge, SingleEdge;
  }

  lemma PlanStays(parent: SessionRow, was: seq<PartRow>, now: seq<PartRow>)
    requires PartsUpdateAllowed(parent, was, now)
    ensures PlanStands(was, now)
  {
    hide PartChecks, ChecksumsMatchPlan, PartEdge;
  }

  lemma RowsStandAlone()
    ensures forall row :: SessionStands(row, row)
    ensures forall parts :: PlanStands(parts, parts)
    ensures forall lease :: AdmissionStands(lease, lease)
    ensures forall lease :: CompletionStands(lease, lease)
    ensures forall blob :: BlobStands(blob, blob)
    ensures forall version :: VersionStands(version, version)
  {
  }

  lemma SessionsWritten(db: Db, after: Db)
    requires after == db.(sessions := after.sessions)
    requires forall k :: k in db.sessions ==> k in after.sessions && SessionStands(db.sessions[k], after.sessions[k])
    ensures Stands(db, after)
  {
    hide SessionStands;
    RowsStandAlone();
  }

  lemma PartsWritten(db: Db, after: Db)
    requires after == db.(parts := after.parts)
    requires forall k :: k in db.parts ==> k in after.parts && PlanStands(db.parts[k], after.parts[k])
    ensures Stands(db, after)
  {
    hide PlanStands;
    RowsStandAlone();
  }

  lemma AdmissionWritten(db: Db, after: Db)
    requires after == db.(admission := after.admission)
    requires forall k :: k in db.admission ==> k in after.admission && AdmissionStands(db.admission[k], after.admission[k])
    ensures Stands(db, after)
  {
    hide AdmissionStands;
    RowsStandAlone();
  }

  lemma CompletionWritten(db: Db, after: Db)
    requires after == db.(completion := after.completion)
    requires forall k :: k in db.completion ==> k in after.completion && CompletionStands(db.completion[k], after.completion[k])
    ensures Stands(db, after)
  {
    hide CompletionStands;
    RowsStandAlone();
  }

  lemma BlobsWritten(db: Db, after: Db)
    requires after == db.(blobs := after.blobs)
    requires forall k :: k in db.blobs ==> k in after.blobs && BlobStands(db.blobs[k], after.blobs[k])
    ensures Stands(db, after)
  {
    hide BlobStands;
    RowsStandAlone();
  }

  lemma VersionsWritten(db: Db, after: Db)
    requires after == db.(versions := after.versions)
    requires forall k :: k in db.versions ==> k in after.versions && VersionStands(db.versions[k], after.versions[k])
    ensures Stands(db, after)
  {
    hide VersionStands;
    RowsStandAlone();
  }

  lemma EntriesWritten(db: Db, after: Db, v: Id)
    requires v in db.versions && db.versions[v].sealedAt.None? && after == db.(entries := after.entries)
    requires forall w :: w != v ==> EntriesOf(after, w) == EntriesOf(db, w)
    ensures Stands(db, after)
  {
    hide SessionStands, PlanStands, AdmissionStands, CompletionStands, BlobStands, VersionStands;
    RowsStandAlone();
  }

  lemma StandsStep(db: Db, w: RowWrite)
    requires Attempt(db, w).Ok?
    ensures Stands(db, Attempt(db, w).value)
  {
    hide SessionUpdateAllowed, PartsUpdateAllowed, SessionStands, PlanStands, SessionChecks, ActiveSlotFree, GenerationFree;
    hide PartInsertAllowed, Recount, VersionChecks, VersionSlotFree, BlobChecks, DigestFree, BlobEdge, VersionEdge, Stands;
    RowsStandAlone();
    var after := Attempt(db, w).value;
    match w
    case NewSession(s, session) =>
      SessionsWritten(db, after);
    case SetSession(s, session) =>
      SessionStays(db.sessions[s], session, PartsOf(db, s), db.blobs[session.blobId]);
      SessionsWritten(db, after);
    case NewParts(s, rows) =>
      PartsWritten(db, after);
    case SetParts(s, rows) =>
      PlanStays(db.sessions[s], db.parts[s], rows);
      PartsWritten(db, after);
    case SetAdmission(s, admission, at) =>
      AdmissionWritten(db, after);
    case SetCompletion(s, completion, at) =>
      CompletionWritten(db, after);
    case NewBlob(b, blob) =>
      BlobsWritten(db, after);
    case SetBlob(b, blob) =>
      BlobsWritten(db, after);
    case NewVersion(v, version) =>
      VersionsWritten(db, after);
    case SetVersion(v, version) =>
      VersionsWritten(db, after);
    case NewEntry(v, entry) =>
      EntriesWritten(db, after, v);
  }

  lemma StandsTransitive(db: Db, mid: Db, after: Db)
    requires Stands(db, mid) && Stands(mid, after)
    ensures Stands(db, after)
  {
    hide SessionStands, PlanStands, VersionStands, BlobStands, AdmissionStands, CompletionStands;
    StandingIsTransitive();
  }

  lemma StandingIsTransitive()
    ensures forall x, y, z :: SessionStands(x, y) && SessionStands(y, z) ==> SessionStands(x, z)
    ensures forall x, y, z :: PlanStands(x, y) && PlanStands(y, z) ==> PlanStands(x, z)
    ensures forall x, y, z :: AdmissionStands(x, y) && AdmissionStands(y, z) ==> AdmissionStands(x, z)
    ensures forall x, y, z :: CompletionStands(x, y) && CompletionStands(y, z) ==> CompletionStands(x, z)
    ensures forall x, y, z :: BlobStands(x, y) && BlobStands(y, z) ==> BlobStands(x, z)
    ensures forall x, y, z :: VersionStands(x, y) && VersionStands(y, z) ==> VersionStands(x, z)
    ensures forall x, y :: VersionStands(x, y) && x.sealedAt.Some? ==> y.sealedAt.Some?
  {
  }

  /** Immutability: what is published, frozen, fenced or finished stays so. */
  lemma {:induction false} AnyWritesStand(db: Db, writes: seq<RowWrite>)
    ensures Stands(db, Written(db, writes))
  {
    hide Stands;
    if |writes| == 0 {
      StandsAlone(db);
    } else {
      var before, w := Written(db, writes[..|writes| - 1]), writes[|writes| - 1];
      AnyWritesStand(db, writes[..|writes| - 1]);
      if Attempt(before, w).Ok? {
        StandsStep(before, w);
        StandsTransitive(db, before, Attempt(before, w).value);
      }
    }
  }

  lemma StandsAlone(db: Db)
    ensures Stands(db, db)
  {
  }

  // ------------------------------------------------------------ what always holds

  /** A COMPLETED multipart session has read back all of an AVAILABLE Blob. */
  predicate Evidenced(db: Db) {
    forall s :: s in db.sessions && db.sessions[s].strategy == Multipart && db.sessions[s].state == Completed ==>
      ReadBack(db.sessions[s], db.blobs)
  }

  predicate ReadBack(row: SessionRow, blobs: map<Id, BlobRow>) {
    && row.blobId in blobs && blobs[row.blobId].state == BlobAvailable && row.evidence.Some?
    && row.evidence.value.sha256 == blobs[row.blobId].sha256
    && row.evidence.value.size == row.evidence.value.readBytes == blobs[row.blobId].size
  }

  /** Every stored checksum is the one of the planned digest, and a VERIFIED part
      was listed with its own size. */
  predicate Checked(db: Db) {
    forall s, i :: s in db.parts && 0 <= i < |db.parts[s]| ==> PartChecked(db.parts[s][i])
  }

  predicate PartChecked(part: PartRow) {
    && (part.responseChecksum.Some? ==> part.responseChecksum.value == ChecksumBase64(part.sha256))
    && (part.listedChecksum.Some? ==> part.listedChecksum.value == ChecksumBase64(part.sha256))
    && (part.state != PartPending ==> part.responseEtag.Some? && part.responseAt.Some?)
    && (part.state == PartVerified ==> part.listedAt.Some? && (part.listedSize.Some? ==> part.listedSize.value == part.size))
  }

  lemma EvidencedStep(db: Db, w: RowWrite)
    requires Attempt(db, w).Ok? && Evidenced(db)
    ensures Evidenced(Attempt(db, w).value)
  {
    hide PlanSealed, SessionChecks, CompletingAllowed, RecoveryAllowed, SessionEdge, ActiveSlotFree, GenerationFree, DigestFree;
    hide BlobChecks, PartsUpdateAllowed, PartInsertAllowed, AdmissionUpdateAllowed, CompletionUpdateAllowed, VersionUpdateAllowed;
  }

  lemma GuardChecksPart(parent: SessionRow, was: PartRow, now: PartRow)
    ensures PartUpdateAllowed(parent, was, now) || PartInsertAllowed(parent, now) ==> PartChecked(now)
  {
    hide ChecksumBase64, ChecksumShape, IsDigest, PartEdge;
  }

  lemma InsertedChecked(db: Db, s: Id, rows: seq<PartRow>)
    requires InsertParts(db, s, rows).Ok?
    ensures forall i :: 0 <= i < |rows| ==> PartChecked(rows[i])
  {
    hide PartInsertAllowed, PartUpdateAllowed, PartChecked;
    forall i | 0 <= i < |rows|
      ensures PartChecked(rows[i])
    {
      assert PartInsertAllowed(db.sessions[s], rows[i]);
      GuardChecksPart(db.sessions[s], rows[i], rows[i]);
    }
  }

  lemma UpdatedChecked(parent: SessionRow, was: seq<PartRow>, now: seq<PartRow>)
    requires PartsUpdateAllowed(parent, was, now) && forall i :: 0 <= i < |was| ==> PartChecked(was[i])
    ensures forall i :: 0 <= i < |now| ==> PartChecked(now[i])
  {
    hide PartInsertAllowed, PartUpdateAllowed, PartChecked;
    forall i | 0 <= i < |now|
      ensures PartChecked(now[i])
    {
      GuardChecksPart(parent, was[i], now[i]);
    }
  }

  lemma CheckedStep(db: Db, w: RowWrite)
    requires Attempt(db, w).Ok? && Checked(db)
    ensures Checked(Attempt(db, w).value)
  {
    hide SessionUpdateAllowed, PartsUpdateAllowed, PartInsertAllowed, PartChecked, ActiveSlotFree, GenerationFree, DigestFree;
    hide SessionChecks, AdmissionUpdateAllowed, CompletionUpdateAllowed, VersionUpdateAllowed, BlobUpdateAllowed;
    match w
    case NewParts(s, rows) =>
      InsertedChecked(db, s, rows);
    case SetParts(s, rows) =>
      assert forall i :: 0 <= i < |db.parts[s]| ==> PartChecked(db.parts[s][i]);
      UpdatedChecked(db.sessions[s], db.parts[s], rows);
    case _ =>
  }

  /** A session that entered the upload has the plan whose ranges and hash the
      trigger recomputed then. */
  predicate SealedPlans(db: Db) {
    forall s :: s in db.sessions && db.sessions[s].strategy == Multipart && Entered(db.sessions[s].state) ==> SealedPlan(db, s)
  }

  predicate Entered(state: SessionState) {
    state in {Initiating, InProgress, Completing, Completed, Aborting, Aborted}
  }

  predicate SealedPlan(db: Db, s: Id)
    requires s in db.sessions
  {
    var row := db.sessions[s];
    row.frozen.Some? && row.blobId in db.blobs && s in db.parts && PlanSealed(row, db.parts[s], db.blobs[row.blobId].size)
  }

  lemma SamePlan(row: SessionRow, now: SessionRow, was: seq<PartRow>, rows: seq<PartRow>, blobSize: int)
    requires row.frozen.Some? && now.frozen == row.frozen && PlanStands(was, rows)
    ensures PlanSealed(now, rows, blobSize) == PlanSealed(row, was, blobSize)
  {
    assert RowRanges(rows) == RowRanges(was) && Definitions(rows) == Definitions(was);
  }

  lemma SealedSession(db: Db, s: Id, row: SessionRow)
    requires PutSession(db, s, row).Ok? && row.strategy == Multipart && Entered(row.state)
    requires Entered(db.sessions[s].state) ==> SealedPlan(db, s)
    ensures SealedPlan(PutSession(db, s, row).value, s)
  {
    hide PlanSealed, SessionChecks, CompletingAllowed, RecoveryAllowed, CompletionProven;
    if Entered(db.sessions[s].state) {
      SamePlan(db.sessions[s], row, db.parts[s], db.parts[s], db.blobs[row.blobId].size);
    } else {
      NoPlanWithoutParts(row, db.blobs[row.blobId].size);
    }
  }

  lemma NoPlanWithoutParts(row: SessionRow, blobSize: int)
    requires row.frozen.Some?
    ensures !PlanSealed(row, [], blobSize)
  {
  }

  lemma SealedStep(db: Db, w: RowWrite)
    requires Attempt(db, w).Ok? && SealedPlans(db)
    ensures SealedPlans(Attempt(db, w).value)
  {
    hide SessionUpdateAllowed, PartsUpdateAllowed, PlanSealed, SessionChecks, ActiveSlotFree, GenerationFree, DigestFree, PlanStands;
    hide AdmissionUpdateAllowed, CompletionUpdateAllowed, VersionUpdateAllowed, BlobEdge, BlobChecks, PartInsertAllowed;
    match w
    case SetSession(s, session) =>
      if session.strategy == Multipart && Entered(session.state) {
        SessionStays(db.sessions[s], session, PartsOf(db, s), db.blobs[session.blobId]);
        SealedSession(db, s, session);
      }
    case SetParts(s, rows) =>
      PlanStays(db.sessions[s], db.parts[s], rows);
      if db.sessions[s].frozen.Some? && db.sessions[s].blobId in db.blobs {
        SamePlan(db.sessions[s], db.sessions[s], db.parts[s], rows, db.blobs[db.sessions[s].blobId].size);
      }
    case _ =>
  }

  /** Evidence, checksums and plans hold after any writes whatever. */
  lemma {:induction false} AnyWritesKeep(db: Db, writes: seq<RowWrite>)
    requires Evidenced(db) && Checked(db) && SealedPlans(db)
    ensures Evidenced(Written(db, writes)) && Checked(Written(db, writes)) && SealedPlans(Written(db, writes))
  {
    hide Evidenced, Checked, SealedPlans;
    if |writes| > 0 {
      var before, w := Written(db, writes[..|writes| - 1]), writes[|writes| - 1];
      AnyWritesKeep(db, writes[..|writes| - 1]);
      if Attempt(before, w).Ok? {
        EvidencedStep(before, w);
        CheckedStep(before, w);
        SealedStep(before, w);
      }
    }
  }

  /** No write takes a lease from a holder whose lease runs when it is flushed. */
  lemma TakeoverWaits(db: Db, s: Id, admission: AdmissionLease, completion: CompletionLease, at: Instants)
    ensures Attempt(db, SetAdmission(s, admission, at)).Ok? && s in db.admission && at.flush < db.admission[s].expiresAt ==>
      && admission.owner == db.admission[s].owner && admission.invocation == db.admission[s].invocation
      && admission.epoch == db.admission[s].epoch && admission.acquiredAt == db.admission[s].acquiredAt
    ensures Attempt(db, SetCompletion(s, completion, at)).Ok? && s in db.completion ==>
      if at.flush < db.completion[s].expiresAt
      then completion.owner == db.completion[s].owner && completion.epoch == db.completion[s].epoch
      else completion.epoch == db.completion[s].epoch + 1
  {
  }
}
