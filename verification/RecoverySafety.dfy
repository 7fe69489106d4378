/** Recovery and final verification keep the invariant; the database refuses
    them exactly when the completion lease lapses before it is given up. */
module RecoverySafety {
  import opened Base
  import opened CompletionSafety
  import opened Digest
  import opened Flush
  import opened Guards
  import opened History
  import opened Invariant
  import opened Multipart
  import opened PartSafety
  import opened Rewrite
  import opened Rows
  import opened Safety
  import opened Sealing

  // -------------------------------------------------- closing a completion lease

  /** The session, parts, lease and Blob a transaction leaves when it gives the
      completion lease back. */
  function Closed(w: Write, row: SessionRow, rows: seq<PartRow>, blob: BlobRow, clock: int): Write
    requires w.completion.Some?
  {
    w.(row := row, parts := Some(rows), completion := Some(ReleasedCompletion(w.completion.value, clock)), blob := blob)
  }

  lemma ClosingRows(w: Write, row: SessionRow, rows: seq<PartRow>, blob: BlobRow, clock: int, at: Instants, nextId: Id)
    requires Grounded(w, clock, nextId) && Multi(w) && clock < at.now <= at.flush <= at.commit
    requires w.row.state == Completing
    requires w.completion.Some? && w.completion.value.expiresAt > at.now
    requires SessionAdvances(w.row, row) && PartsKeep(w.parts.value, rows) && MultipartSound(row, rows, blob)
    requires blob.sha256 == w.blob.sha256 && blob.size == w.blob.size && blob.state != BlobVerifying
    requires blob.state == BlobAvailable ==> row.state == Completed
    requires row.state in {InProgress, Completed, Failed}
    ensures CompletionUpdateAllowed(w.completion.value, ReleasedCompletion(w.completion.value, at.now), at.flush)
      <==> w.completion.value.expiresAt > at.flush
    ensures RowsMove(w, Closed(w, row, rows, blob, at.now), clock)
    ensures RowsSound(Closed(w, row, rows, blob, at.now), at.commit, nextId)
  {
    hide PlanFrozen, PartsSound, PartsKeep;
  }

  /** Reading the context needs no clock. */
  lemma ContextOf(db: Db, s: Id, commit: int)
    requires Inv(db.(clock := commit)) && IsMultipart(db, s)
    ensures LoadContext(db, s).Ok? && LoadContext(db, s) == LoadContext(db.(clock := commit), s)
    ensures LoadContext(db, s).value.session == db.sessions[s] && LoadContext(db, s).value.parts == PartsOf(db, s)
  {
    hide PairsOk, GenerationsOk, BlobsOk, VersionsOk, BindingsOk;
    hide PlanFrozen, PartsSound, StateSound, BlobFollows, LeasesSound;
    assert SessionSound(db.(clock := commit), s);
    hide SessionSound;
    ContextLoads(db.(clock := commit), s);
  }

  /** A sound outcome that gives the lease back is committed with its context. */
  lemma ClosedKeepsInv(db: Db, s: Id, row: SessionRow, rows: seq<PartRow>, blob: BlobRow, at: Instants)
    requires Inv(db) && s in db.sessions && s in db.completion && SessionSound(db, s) && Multi(Standing(db, s))
    requires s in db.parts && db.clock <= at.commit
    requires row.blobId == db.sessions[s].blobId && row.strategy == Multipart
    requires RowsMove(Standing(db, s), Closed(Standing(db, s), row, rows, blob, at.now), db.clock)
    requires RowsSound(Closed(Standing(db, s), row, rows, blob, at.now), at.commit, db.nextId)
    ensures var after := db.(sessions := db.sessions[s := row], parts := db.parts[s := rows],
                             completion := db.completion[s := ReleasedCompletion(db.completion[s], at.now)],
                             blobs := db.blobs[row.blobId := blob]);
      && Inv(after.(clock := at.commit)) && Advances(db, after.(clock := at.commit))
      && LoadContext(after, s).Ok?
  {
    hide Inv, Advances, RowsMove, RowsSound, Rewritten, LoadContext, Multi, SessionSound;
    HasBlob(db, s);
    var w := Standing(db, s);
    var next := Closed(w, row, rows, blob, at.now);
    RewriteKeepsInv(db, s, next, at.commit);
    RewrittenCompletion(db, s, w, row, rows, next.completion.value, blob);
    ContextOf(Rewritten(db, s, next), s, at.commit);
  }

  // ------------------------------------------------------------- invalidation

  lemma InvalidatedRow(w: Write, evidence: RecoveryEvidence, clock: int, nextId: Id, at: int)
    requires Grounded(w, clock, nextId) && Multi(w) && w.row.state == Completing
    requires CheckEvidence(evidence).Pass? && Invalidates(evidence.reason)
    ensures var row := Invalidated(w.row, evidence, at);
      && SessionUpdateAllowed(w.row, row, w.parts.value, w.blob)
      && SessionAdvances(w.row, row) && MultipartSound(row, w.parts.value, w.blob)
  {
    hide PartsSound, PlanFrozen, PlanSealed;
    PartsKeepReflexive(w.parts.value);
    PlanStaysFrozen(w.row, w.parts.value, Invalidated(w.row, evidence, at), w.parts.value, w.blob.size);
    FrozenChecks(w.row, w.parts.value, w.blob.size);
  }

  lemma InvalidateSafe(db: Db, s: Id, evidence: RecoveryEvidence, at: Instants)
    requires Inv(db) && ValidInstants(db, at) && s in db.sessions && s in db.completion
    requires db.sessions[s].state == Completing
    requires db.completion[s].expiresAt > at.now && CheckEvidence(evidence).Pass? && Invalidates(evidence.reason)
    ensures SafeUnless(db, Invalidate(db, s, evidence, at), Lapses(db, s, at), TriggerRejected)
    ensures !Lapses(db, s, at) ==> Invalidate(db, s, evidence, at).Ok?
  {
    hide Inv, Advances, Grounded, SessionSound, RowsMove, RowsSound, MultipartSound, SessionUpdateAllowed, LoadContext;
    hide Commit, CheckEvidence;
    hide Multi, CompletionUpdateAllowed, PartsKeep;
    StandingSound(db, s);
    StandingMulti(db, s);
    var w := Standing(db, s);
    MultiHas(w);
    var row := Invalidated(w.row, evidence, at.now);
    InvalidatedRow(w, evidence, db.clock, db.nextId, at.now);
    PartsKeepReflexive(w.parts.value);
    StandingBlob(w, db.clock, db.nextId);
    ClosingRows(w, row, w.parts.value, w.blob, db.clock, at, db.nextId);
    ClosedKeepsInv(db, s, row, w.parts.value, w.blob, at);
    var after := db.(sessions := db.sessions[s := row], completion := db.completion[s := ReleasedCompletion(db.completion[s], at.now)]);
    Unwritten(db, s);
    if !Lapses(db, s, at) {
      CommitPasses(after, row.blobId, at, Recovered(StartNewGeneration, LoadContext(after, s).value));
    }
  }

  lemma MultiHas(w: Write)
    requires Multi(w)
    ensures w.row.strategy == Multipart && w.parts.Some?
  {
  }

  /** Part and Blob rows written back unchanged are no change. */
  lemma Unwritten(db: Db, s: Id)
    requires s in db.sessions && s in db.parts && db.sessions[s].blobId in db.blobs
    ensures db.parts[s := db.parts[s]] == db.parts
    ensures db.blobs[db.sessions[s].blobId := db.blobs[db.sessions[s].blobId]] == db.blobs
  {
  }

  lemma StandingBlob(w: Write, clock: int, nextId: Id)
    requires Grounded(w, clock, nextId) && Multi(w) && w.row.state == Completing
    ensures w.blob.state == BlobUploading && AllVerified(w.parts.value)
    ensures PlanFrozen(w.row, w.parts.value, w.blob.size) && PartsSound(w.parts.value)
  {
  }

  // ---------------------------------------------------------------- rechecking

  lemma NotedRow(w: Write, evidence: RecoveryEvidence, rows: seq<PartRow>, clock: int, nextId: Id)
    requires Grounded(w, clock, nextId) && Multi(w) && w.row.state == Completing
    requires CheckEvidence(evidence).Pass? && !Invalidates(evidence.reason)
    requires PartsSound(rows) && PartsKeep(w.parts.value, rows)
    ensures var row := WithEvidence(w.row, evidence);
      && SessionUpdateAllowed(w.row, row, w.parts.value, w.blob)
      && SessionAdvances(w.row, row) && Writable(row) && row.reconciledAt.Some?
      && (AllVerified(rows) ==> MultipartSound(row, rows, w.blob))
  {
    hide PartsSound, PlanFrozen, PlanSealed, PartsKeep, AllVerified;
    StandingBlob(w, clock, nextId);
    PlanStaysFrozen(w.row, w.parts.value, WithEvidence(w.row, evidence), rows, w.blob.size);
    FrozenChecks(w.row, w.parts.value, w.blob.size);
  }

  lemma RequeuedRow(w: Write, evidence: RecoveryEvidence, rows: seq<PartRow>, clock: int, nextId: Id, at: int)
    requires Grounded(w, clock, nextId) && Multi(w) && w.row.state == Completing
    requires CheckEvidence(evidence).Pass? && !Invalidates(evidence.reason)
    requires PartsSound(rows) && PartsKeep(w.parts.value, rows) && !AllVerified(rows)
    ensures var row := Requeued(WithEvidence(w.row, evidence), at);
      && SessionUpdateAllowed(WithEvidence(w.row, evidence), row, rows, w.blob)
      && SessionAdvances(w.row, row) && MultipartSound(row, rows, w.blob) && row.state == InProgress
  {
    hide PartsSound, PlanFrozen, PlanSealed, PartsKeep, AllVerified;
    PlanStaysFrozen(w.row, w.parts.value, Requeued(WithEvidence(w.row, evidence), at), rows, w.blob.size);
    FrozenChecks(w.row, w.parts.value, w.blob.size);
  }

  /** The session and parts rows a recovery writes before it decides. */
  function Rechecked(db: Db, s: Id, evidence: RecoveryEvidence): Db
    requires s in db.sessions && s in db.parts
  {
    db.(sessions := db.sessions[s := WithEvidence(db.sessions[s], evidence)],
        parts := db.parts[s := RecheckAll(db.parts[s], evidence.observations, evidence.reconciledAt)])
  }

  /** The checks a recovery makes before it writes. */
  predicate Recoverable(db: Db, s: Id, owner: Id, epoch: int, evidence: RecoveryEvidence, clock: int) {
    && CheckObservations(evidence.observations).Pass? && CheckEvidence(evidence).Pass?
    && DistinctObservations(evidence.observations)
    && s in db.sessions && db.sessions[s].state == Completing && db.sessions[s].provider.Some?
    && Claimed(db, s, owner, epoch, clock)
    && AllPlanned(PartsOf(db, s), evidence.observations)
  }

  lemma RecheckWrites(db: Db, s: Id, evidence: RecoveryEvidence)
    requires Inv(db) && s in db.sessions && db.sessions[s].state == Completing && (s in db.completion)
    requires CheckEvidence(evidence).Pass? && !Invalidates(evidence.reason)
    ensures s in db.parts
    ensures var noted := PutSession(db, s, WithEvidence(db.sessions[s], evidence));
      noted.Ok? &&
      var observed := PutParts(noted.value, s, ObserveAll(PartsOf(db, s), evidence.observations, evidence.reconciledAt));
      observed.Ok? &&
      PutParts(observed.value, s, RecheckAll(PartsOf(db, s), evidence.observations, evidence.reconciledAt)) == Ok(Rechecked(db, s, evidence))
  {
    hide Inv, Grounded, SessionUpdateAllowed, PartsUpdateAllowed, PartsSound, PlanFrozen, ObserveAll, RecheckAll;
    hide AllVerified, MultipartSound, PartsKeep;
    hide CheckEvidence, SessionSound;
    StandingSound(db, s);
    StandingMulti(db, s);
    var w := Standing(db, s);
    var parts := w.parts.value;
    StandingBlob(w, db.clock, db.nextId);
    PartsKeepReflexive(parts);
    NotedRow(w, evidence, parts, db.clock, db.nextId);
    RecheckedParts(WithEvidence(w.row, evidence), parts, evidence.observations, evidence.reconciledAt);
    var mid := ObserveAll(parts, evidence.observations, evidence.reconciledAt);
    var rows := RecheckAll(parts, evidence.observations, evidence.reconciledAt);
    assert db.parts[s := mid][s := rows] == db.parts[s := rows];
  }

  lemma ReadySafe(db: Db, s: Id, evidence: RecoveryEvidence, at: Instants)
    requires Inv(db) && ValidInstants(db, at) && s in db.sessions && db.sessions[s].state == Completing
    requires s in db.completion && s in db.parts
    requires CheckEvidence(evidence).Pass? && !Invalidates(evidence.reason)
    requires AllVerified(RecheckAll(db.parts[s], evidence.observations, evidence.reconciledAt))
    ensures var after := Rechecked(db, s, evidence);
      && Inv(after.(clock := at.commit)) && Advances(db, after.(clock := at.commit)) && LoadContext(after, s).Ok?
  {
    hide Inv, Advances, Grounded, RecheckAll, AllVerified, MultipartSound, PartsKeep, PartsSound, CheckEvidence;
    hide RowsMove, RowsSound, Rewritten;
    hide SessionSound, LoadContext, PartsUpdateAllowed, SessionUpdateAllowed;
    StandingSound(db, s);
    StandingMulti(db, s);
    var w := Standing(db, s);
    var rows := RecheckAll(w.parts.value, evidence.observations, evidence.reconciledAt);
    StandingBlob(w, db.clock, db.nextId);
    PartsKeepReflexive(w.parts.value);
    NotedRow(w, evidence, w.parts.value, db.clock, db.nextId);
    RecheckedParts(WithEvidence(w.row, evidence), w.parts.value, evidence.observations, evidence.reconciledAt);
    NotedRow(w, evidence, rows, db.clock, db.nextId);
    CompletingRows(w, WithEvidence(w.row, evidence), rows, db.clock, at.commit, db.nextId);
    var next := w.(row := WithEvidence(w.row, evidence), parts := Some(rows));
    RewriteKeepsInv(db, s, next, at.commit);
    RewrittenParts(db, s, w, WithEvidence(w.row, evidence), rows);
    ContextOf(Rewritten(db, s, next), s, at.commit);
  }

  lemma CompletingRows(w: Write, row: SessionRow, rows: seq<PartRow>, clock: int, commit: int, nextId: Id)
    requires Grounded(w, clock, nextId) && Multi(w) && clock <= commit && w.row.state == Completing
    requires row.state == Completing
    requires SessionAdvances(w.row, row) && PartsKeep(w.parts.value, rows) && MultipartSound(row, rows, w.blob)
    ensures var next := w.(row := row, parts := Some(rows)); RowsMove(w, next, clock) && RowsSound(next, commit, nextId)
  {
    hide MultipartSound, PartsKeep;
  }

  lemma RequeueSafe(db: Db, s: Id, evidence: RecoveryEvidence, at: Instants)
    requires Inv(db) && ValidInstants(db, at) && s in db.sessions && db.sessions[s].state == Completing
    requires s in db.completion && s in db.parts
    requires db.completion[s].expiresAt > at.now && CheckEvidence(evidence).Pass? && !Invalidates(evidence.reason)
    requires !AllVerified(RecheckAll(db.parts[s], evidence.observations, evidence.reconciledAt))
    ensures SafeUnless(db, Requeue(Rechecked(db, s, evidence), s, at), Lapses(db, s, at), TriggerRejected)
    ensures !Lapses(db, s, at) ==> Requeue(Rechecked(db, s, evidence), s, at).Ok?
  {
    hide Inv, Advances, Grounded, RecheckAll, AllVerified, MultipartSound, PartsKeep, PartsSound, CheckEvidence;
    hide RowsMove, RowsSound;
    hide SessionSound, LoadContext, PartsUpdateAllowed, SessionUpdateAllowed, CompletionUpdateAllowed, Commit, Multi;
    hide WithEvidence, Requeued;
    StandingSound(db, s);
    StandingMulti(db, s);
    var w := Standing(db, s);
    MultiHas(w);
    var rows := RecheckAll(w.parts.value, evidence.observations, evidence.reconciledAt);
    var row := Requeued(WithEvidence(w.row, evidence), at.now);
    StandingBlob(w, db.clock, db.nextId);
    NotedRow(w, evidence, w.parts.value, db.clock, db.nextId) by { PartsKeepReflexive(w.parts.value); }
    RecheckedParts(WithEvidence(w.row, evidence), w.parts.value, evidence.observations, evidence.reconciledAt);
    RequeuedRow(w, evidence, rows, db.clock, db.nextId, at.now);
    ClosingRows(w, row, rows, w.blob, db.clock, at, db.nextId);
    ClosedKeepsInv(db, s, row, rows, w.blob, at);
    Unwritten(db, s);
    var after := db.(sessions := db.sessions[s := row], parts := db.parts[s := rows],
                     completion := db.completion[s := ReleasedCompletion(db.completion[s], at.now)]);
    assert Rechecked(db, s, evidence).sessions[s := row] == after.sessions;
    if !Lapses(db, s, at) {
      CommitPasses(after, row.blobId, at, Recovered(ResumePartUpload, LoadContext(after, s).value));
    }
  }

  /** Recovery is refused exactly when it would give up a lease that lapsed
      after the store's check; the ready outcome gives up no lease. */
  predicate RecoverRefused(db: Db, s: Id, owner: Id, epoch: int, evidence: RecoveryEvidence, at: Instants) {
    && Recoverable(db, s, owner, epoch, evidence, at.now)
    && evidence.reason != RecoverReady
    && (evidence.reason == RecoverPartial ==>
          !AllVerified(RecheckAll(PartsOf(db, s), evidence.observations, evidence.reconciledAt)))
    && Lapses(db, s, at)
  }

  lemma RecoverSafe(db: Db, s: Id, owner: Id, epoch: int, evidence: RecoveryEvidence, at: Instants)
    requires Inv(db) && ValidInstants(db, at)
    ensures SafeUnless(db, Recover(db, s, owner, epoch, evidence, at), RecoverRefused(db, s, owner, epoch, evidence, at), TriggerRejected)
  {
    hide Inv, Advances, CheckObservations, CheckEvidence, AllVerified, RecheckAll, ObserveAll, PutSession, PutParts;
    hide Invalidate, Requeue;
    hide LoadContext, Commit, WithEvidence, Rechecked, AllPlanned, DistinctObservations;
    CheckNeverRefuses(evidence.observations);
    EvidenceNeverRefuses(evidence);
    if Recoverable(db, s, owner, epoch, evidence, at.now) {
      if Invalidates(evidence.reason) {
        InvalidateSafe(db, s, evidence, at);
      } else {
        RecheckWrites(db, s, evidence);
        if AllVerified(RecheckAll(db.parts[s], evidence.observations, evidence.reconciledAt)) {
          ReadySafe(db, s, evidence, at);
          var after := Rechecked(db, s, evidence);
          CommitPasses(after, db.sessions[s].blobId, at, Recovered(RetryCompletion, LoadContext(after, s).value));
        } else {
          RequeueSafe(db, s, evidence, at);
        }
      }
    }
  }

  lemma EvidenceNeverRefuses(evidence: RecoveryEvidence)
    ensures CheckEvidence(evidence).Fail? ==> !Refused(CheckEvidence(evidence).error)
  {
  }

  // -------------------------------------------------------------- verification

  /** What final verification checks before it writes. */
  predicate Verifiable(db: Db, s: Id, owner: Id, epoch: int, evidence: Evidence, clock: int) {
    && WellFormedEvidence(evidence)
    && s in db.sessions && db.sessions[s].state == Completing && Claimed(db, s, owner, epoch, clock)
    && db.sessions[s].completionPhase == Some(FinalVerification)
    && db.sessions[s].blobId in db.blobs
    && EvidenceIs(evidence, db.blobs[db.sessions[s].blobId])
  }

  predicate EvidenceIs(evidence: Evidence, blob: BlobRow) {
    evidence.sha256 == blob.sha256 && evidence.size == blob.size && evidence.readBytes == blob.size
  }

  function Verifying(blob: BlobRow): BlobRow {
    blob.(state := BlobVerifying)
  }

  function Available(blob: BlobRow, evidence: Evidence): BlobRow {
    blob.(state := BlobAvailable, verifiedAt := Some(evidence.completedAt))
  }

  lemma VerifiedRows(w: Write, evidence: Evidence, clock: int, nextId: Id, at: int)
    requires Grounded(w, clock, nextId) && Multi(w) && w.row.state == Completing
    requires WellFormedEvidence(evidence) && EvidenceIs(evidence, w.blob)
    requires w.row.completionPhase == Some(FinalVerification)
    ensures SessionUpdateAllowed(w.row, Proven(w.row, evidence), w.parts.value, w.blob)
    ensures BlobUpdateAllowed(w.blob, Verifying(w.blob))
    ensures BlobUpdateAllowed(Verifying(w.blob), Available(w.blob, evidence))
    ensures SessionUpdateAllowed(Proven(w.row, evidence), Finished(w.row, evidence, at), w.parts.value, Available(w.blob, evidence))
    ensures SessionAdvances(w.row, Finished(w.row, evidence, at))
    ensures MultipartSound(Finished(w.row, evidence, at), w.parts.value, Available(w.blob, evidence))
  {
    hide PartsSound, PlanFrozen, PlanSealed, IsDigest, AllVerified;
    StandingBlob(w, clock, nextId);
    PartsKeepReflexive(w.parts.value);
    PlanStaysFrozen(w.row, w.parts.value, Finished(w.row, evidence, at), w.parts.value, w.blob.size);
    FrozenChecks(w.row, w.parts.value, w.blob.size);
  }

  predicate VerifiedRefused(db: Db, s: Id, owner: Id, epoch: int, evidence: Evidence, at: Instants) {
    Verifiable(db, s, owner, epoch, evidence, at.now) && Lapses(db, s, at)
  }

  /** Session completed, Blob AVAILABLE, completion lease given back. */
  function Published(db: Db, s: Id, evidence: Evidence, now: int): Db
    requires s in db.sessions && s in db.completion && db.sessions[s].blobId in db.blobs
  {
    var row := db.sessions[s];
    db.(sessions := db.sessions[s := Finished(row, evidence, now)],
        blobs := db.blobs[row.blobId := Available(db.blobs[row.blobId], evidence)],
        completion := db.completion[s := ReleasedCompletion(db.completion[s], now)])
  }

  lemma PublishedKeepsInv(db: Db, s: Id, owner: Id, epoch: int, evidence: Evidence, at: Instants)
    requires Inv(db) && ValidInstants(db, at) && Verifiable(db, s, owner, epoch, evidence, at.now)
    ensures var after := Published(db, s, evidence, at.now);
      Inv(after.(clock := at.commit)) && Advances(db, after.(clock := at.commit)) && LoadContext(after, s).Ok?
    ensures db.blobs[db.sessions[s].blobId].state == BlobUploading
  {
    hide Inv, Advances, Grounded, AllVerified, MultipartSound, PartsKeep, PartsSound, RowsMove, RowsSound;
    hide WellFormedEvidence;
    hide SessionSound, LoadContext, SessionUpdateAllowed, CompletionUpdateAllowed, Multi, Finished, Proven;
    hide BlobUpdateAllowed;
    StandingSound(db, s);
    StandingMulti(db, s);
    var w := Standing(db, s);
    MultiHas(w);
    StandingBlob(w, db.clock, db.nextId);
    VerifiedRows(w, evidence, db.clock, db.nextId, at.now);
    var row, blob := Finished(w.row, evidence, at.now), Available(w.blob, evidence);
    FinishedKeeps(w.row, evidence, at.now);
    PartsKeepReflexive(w.parts.value);
    ClosingRows(w, row, w.parts.value, blob, db.clock, at, db.nextId);
    ClosedKeepsInv(db, s, row, w.parts.value, blob, at);
    Unwritten(db, s);
  }

  /** What the row guards say of the six writes of a publication. */
  ghost predicate PublicationAllowed(db: Db, s: Id, evidence: Evidence, at: Instants)
    requires s in db.sessions && s in db.completion && db.sessions[s].blobId in db.blobs
  {
    var row, blob := db.sessions[s], db.blobs[db.sessions[s].blobId];
    && SessionUpdateAllowed(row, Proven(row, evidence), PartsOf(db, s), blob)
    && BlobUpdateAllowed(blob, Verifying(blob)) && BlobUpdateAllowed(Verifying(blob), Available(blob, evidence))
    && SessionUpdateAllowed(Proven(row, evidence), Finished(row, evidence, at.now), PartsOf(db, s), Available(blob, evidence))
    && (CompletionUpdateAllowed(db.completion[s], ReleasedCompletion(db.completion[s], at.now), at.flush) <==> !Lapses(db, s, at))
    && blob.state == BlobUploading && LoadContext(Published(db, s, evidence, at.now), s).Ok?
  }

  lemma PublicationIsAllowed(db: Db, s: Id, owner: Id, epoch: int, evidence: Evidence, at: Instants)
    requires Inv(db) && ValidInstants(db, at) && Verifiable(db, s, owner, epoch, evidence, at.now)
    ensures PublicationAllowed(db, s, evidence, at)
  {
    hide Inv, Advances, Grounded, AllVerified, MultipartSound, WellFormedEvidence, LoadContext, SessionUpdateAllowed;
    hide Multi, Finished, Proven;
    hide BlobUpdateAllowed, Published, CompletionUpdateAllowed, SessionAdvances, SessionSound;
    PublishedKeepsInv(db, s, owner, epoch, evidence, at);
    StandingSound(db, s);
    StandingMulti(db, s);
    var w := Standing(db, s);
    MultiHas(w);
    VerifiedRows(w, evidence, db.clock, db.nextId, at.now);
    LeaseGivenBack(w, db.clock, db.nextId, at);
  }

  /** The six writes of a publication amount to one; a lapsed lease refuses the last. */
  lemma RecordVerifiedWrites(db: Db, s: Id, owner: Id, epoch: int, evidence: Evidence, at: Instants)
    requires Verifiable(db, s, owner, epoch, evidence, at.now) && PublicationAllowed(db, s, evidence, at)
    ensures Lapses(db, s, at) ==> RecordVerified(db, s, owner, epoch, evidence, at) == Err(TriggerRejected)
    ensures !Lapses(db, s, at) ==>
      var after := Published(db, s, evidence, at.now);
      RecordVerified(db, s, owner, epoch, evidence, at) == Commit(after, db.sessions[s].blobId, at, LoadContext(after, s).value)
  {
    hide LoadContext, SessionUpdateAllowed, Commit, Finished, Proven, BlobUpdateAllowed, WellFormedEvidence;
    hide CompletionUpdateAllowed;
    var row := db.sessions[s];
    var b, blob := row.blobId, db.blobs[row.blobId];
    FinishedKeeps(row, evidence, at.now);
    assert db.sessions[s := Proven(row, evidence)][s := Finished(row, evidence, at.now)]
      == db.sessions[s := Finished(row, evidence, at.now)];
    assert db.blobs[b := Verifying(blob)][b := Available(blob, evidence)] == db.blobs[b := Available(blob, evidence)];
  }

  lemma LeaseGivenBack(w: Write, clock: int, nextId: Id, at: Instants)
    requires Grounded(w, clock, nextId) && w.completion.Some? && clock < at.now && w.completion.value.expiresAt > at.now
    ensures CompletionUpdateAllowed(w.completion.value, ReleasedCompletion(w.completion.value, at.now), at.flush)
      <==> w.completion.value.expiresAt > at.flush
  {
    hide MultipartSound, SingleSound;
  }

  /** Publishing a verified object is never refused by the deferred check, and
      by a guard exactly when the lease lapses. */
  lemma RecordVerifiedSafe(db: Db, s: Id, owner: Id, epoch: int, evidence: Evidence, at: Instants)
    requires Inv(db) && ValidInstants(db, at)
    ensures SafeUnless(db, RecordVerified(db, s, owner, epoch, evidence, at), VerifiedRefused(db, s, owner, epoch, evidence, at), TriggerRejected)
    ensures Verifiable(db, s, owner, epoch, evidence, at.now) && !Lapses(db, s, at) ==> RecordVerified(db, s, owner, epoch, evidence, at).Ok?
  {
    hide Inv, Advances, WellFormedEvidence, LoadContext, Commit, Published, PutSession, PutBlob, PutCompletion;
    if Verifiable(db, s, owner, epoch, evidence, at.now) {
      PublishedKeepsInv(db, s, owner, epoch, evidence, at);
      PublicationIsAllowed(db, s, owner, epoch, evidence, at);
      RecordVerifiedWrites(db, s, owner, epoch, evidence, at);
      hide PublicationAllowed;
      if !Lapses(db, s, at) {
        var after := Published(db, s, evidence, at.now);
        CommitPasses(after, db.sessions[s].blobId, at, LoadContext(after, s).value);
      }
    }
  }

  lemma FinishedKeeps(row: SessionRow, evidence: Evidence, at: int)
    ensures Finished(row, evidence, at).blobId == row.blobId && Finished(row, evidence, at).strategy == row.strategy
    ensures Finished(row, evidence, at).state == Completed && Proven(row, evidence).blobId == row.blobId
  {
  }
}
