/** Completion, field by field: acceptance, phases, recovery and the final
    publication, with the rows each leaves and the errors each raises. */
module CompletionEffects {
  import opened Base
  import opened CompletionSafety
  import opened Digest
  import opened Flush
  import opened Guards
  import opened History
  import opened Invariant
  import opened LeaseEffects
  import opened Multipart
  import opened PartRanges
  import opened Rows
  import opened Safety
  import opened UploadEffects
  import Coverage
  import L = LeaseSafety
  import P = PartSafety
  import Rewrite
  import V = RecoverySafety
  import Y = Reconciliation
  import Z = Sealing

  // --------------------------------------------------------------- acceptance

  predicate EveryPartVerified(db: Db, s: Id) {
    s in db.parts && forall i :: 0 <= i < |db.parts[s]| ==> db.parts[s][i].state == PartVerified
  }

  function AcceptError(db: Db, s: Id, owner: Id, epoch: int, now: int): Error {
    if !(s in db.sessions && db.sessions[s].strategy == Multipart) then NotFound
    else if !OwnsUpload(db, s, owner, epoch, now) then LeaseLost
    else IllegalTransition
  }

  /** A new request moves the session to COMPLETING exactly when it uploads, every
      part is verified, and the lease is the presented one, which ends with it. */
  lemma AcceptDecides(db: Db, s: Id, owner: Id, epoch: int, request: Id, at: Instants, result: Result<Done<Id>, Error>)
    requires Inv(db) && ValidInstants(db, at) && result == Accept(db, s, owner, epoch, request, at)
    requires Key(AcceptScope, request) !in db.idempotency
    ensures result.Ok? <==> MultipartIn(db, s, {InProgress}) && OwnsUpload(db, s, owner, epoch, at.now) && EveryPartVerified(db, s)
    ensures result.Ok? ==> result.value == Done(
      db.(clock := at.commit,
          sessions := db.sessions[s := db.sessions[s].(
            state := Completing, completionRequestedAt := Some(at.flush), completionReason := Some(PartsReady),
            completionPhase := Some(Pending), lastActivityAt := at.flush)],
          admission := db.admission[s := db.admission[s].(renewedAt := at.flush, expiresAt := at.flush)],
          idempotency := db.idempotency[Key(AcceptScope, request) := IdempotencyRow(AcceptRequest(s), s, None)]),
      s)
    ensures result.Err? ==> result.error == AcceptError(db, s, owner, epoch, at.now)
  {
    hide Inv, Advances, SessionUpdateAllowed, AdmissionUpdateAllowed, Commit;
    L.AcceptSafe(db, s, owner, epoch, request, at);
    if MultipartIn(db, s, {InProgress}) {
      Coverage.FrozenParts(db, s);
    }
  }

  // -------------------------------------------------------------------- phase

  /** The moves that ever commit. */
  predicate Moves(current: Phase, target: Phase, flags: PhaseFlags) {
    || target == current
    || (current == Pending && target == Assembling)
    || (current == Assembling && target == FinalPresent)
    || (current == FinalPresent && target == FinalVerification)
    || (current == FinalVerification && target == FinalPresent && flags.transientReadFailure)
  }

  /** The moves the application admits and the session guard does not know. */
  predicate Unknown(current: Phase, target: Phase, flags: PhaseFlags) {
    || (current == Pending && target == FinalPresent && flags.finalPresentObserved)
    || (current == Assembling && target == Pending && flags.retryableReconciliation)
  }

  function PhaseError(db: Db, s: Id, owner: Id, epoch: int, current: Phase, target: Phase, flags: PhaseFlags, now: int): Error {
    if !InState(db, s, Completing) then LeaseLost
    else if !Moves(current, target, flags) && !Unknown(current, target, flags) then IllegalTransition
    else if !OwnsCompletion(db, s, owner, epoch, now) then LeaseLost
    else TriggerRejected
  }

  lemma CompletingPhase(db: Db, s: Id)
    requires Inv(db) && InState(db, s, Completing)
    ensures db.sessions[s].strategy == Multipart && s in db.parts && db.sessions[s].blobId in db.blobs
    ensures db.sessions[s].completionPhase.Some? && db.sessions[s].provider.Some?
    ensures db.blobs[db.sessions[s].blobId].state == BlobUploading
  {
    hide Inv, MultipartSound, SingleSound, LeasesSound, PlanFrozen, PartsSound;
    StandingSound(db, s);
    if db.sessions[s].strategy == SinglePut {
      SingleNeverCompletes(db, s);
      assert false;
    }
    StandingMulti(db, s);
    hide SessionSound, Grounded, Multi;
    CompletingHasPhase(Rewrite.Standing(db, s), db.clock, db.nextId);
  }

  lemma SingleNeverCompletes(db: Db, s: Id)
    requires s in db.sessions && SessionSound(db, s) && db.sessions[s].strategy == SinglePut
    ensures db.sessions[s].state != Completing
  {
    hide LeasesSound;
  }

  /** The phase stored after a move is the target, whichever edge it was. */
  lemma PhaseDecides(db: Db, s: Id, owner: Id, epoch: int, target: Phase, flags: PhaseFlags, at: Instants,
                     result: Result<Done<()>, Error>)
    requires Inv(db) && ValidInstants(db, at) && result == SetPhase(db, s, owner, epoch, target, flags, at)
    ensures result.Ok? <==>
      && InState(db, s, Completing) && db.sessions[s].completionPhase.Some?
      && Moves(db.sessions[s].completionPhase.value, target, flags) && OwnsCompletion(db, s, owner, epoch, at.now)
    ensures result.Ok? ==> result.value.db == db.(
      clock := at.commit, sessions := db.sessions[s := db.sessions[s].(completionPhase := Some(target), lastActivityAt := at.flush)])
    ensures InState(db, s, Completing) ==> db.sessions[s].completionPhase.Some?
    ensures result.Err? ==>
      var current := if InState(db, s, Completing) then db.sessions[s].completionPhase.value else target;
      result.error == PhaseError(db, s, owner, epoch, current, target, flags, at.now)
  {
    hide Inv, Advances, SessionUpdateAllowed, Commit;
    SetPhaseSafe(db, s, owner, epoch, target, flags, at);
    if InState(db, s, Completing) {
      CompletingPhase(db, s);
    }
  }

  // ------------------------------------------------------------------ context

  /** The context of a session: its rows, and the plan they were frozen from. */
  predicate Describes(db: Db, s: Id, context: Context) {
    && s in db.sessions && s in db.parts && db.sessions[s].blobId in db.blobs && db.sessions[s].frozen.Some?
    && var row, parts, blob := db.sessions[s], db.parts[s], db.blobs[db.sessions[s].blobId];
    && context.sessionId == s && context.session == row && context.parts == parts && context.blob == blob
    && context.plan.schema == row.frozen.value.schema && context.plan.blobSize == blob.size
    && context.plan.partSize == row.frozen.value.partSize && |context.plan.parts| == |parts|
    && forall i :: 0 <= i < |parts| ==>
      context.plan.parts[i] == PartDefinition(Range(parts[i].number, parts[i].offset, parts[i].size), parts[i].sha256)
  }

  lemma ContextDescribes(db: Db, s: Id, commit: int)
    requires Inv(db.(clock := commit)) && s in db.sessions && db.sessions[s].strategy == Multipart
    ensures LoadContext(db, s).Ok? && Describes(db.(clock := commit), s, LoadContext(db, s).value)
  {
    hide Inv, PlanFrozen, PartsSound, StateSound, BlobFollows, LoadContext;
    var after := db.(clock := commit);
    Coverage.FrozenParts(after, s);
    Z.ContextLoads(after, s);
    ClockFree(db, s, commit);
    HasFrozen(after.sessions[s], after.parts[s], after.blobs[after.sessions[s].blobId].size);
  }

  lemma HasFrozen(row: SessionRow, parts: seq<PartRow>, blobSize: int)
    requires PlanFrozen(row, parts, blobSize)
    ensures row.frozen.Some?
  {
  }

  lemma ClockFree(db: Db, s: Id, clock: int)
    ensures LoadContext(db, s) == LoadContext(db.(clock := clock), s)
  {
  }

  // ----------------------------------------------------------------- recovery

  /** Which results may accompany a reason, and that invalidation lists nothing. */
  predicate Presentable(evidence: RecoveryEvidence) {
    match evidence.reason
    case RecoverReady => evidence.result in {None, Some(Ambiguous), Some(EmbeddedError)}
    case RecoverPartial => evidence.result in {None, Some(Ambiguous), Some(EmbeddedError)}
    case RecoverConflict409 => evidence.result in {None, Some(Conflict409)} && evidence.observations == []
    case RecoverSessionNotFound => evidence.result in {None, Some(NoSuchUpload)} && evidence.observations == []
  }

  /** The result that is stored: the one presented, or the one its reason implies. */
  function Implied(evidence: RecoveryEvidence): CompletionResult {
    match evidence.result
    case Some(result) => result
    case None =>
      if evidence.reason == RecoverConflict409 then Conflict409
      else if evidence.reason == RecoverSessionNotFound then NoSuchUpload
      else Ambiguous
  }

  /** The part is listed as the plan and its receipt say. */
  predicate Confirmed(part: PartRow, observations: seq<Observation>) {
    exists k :: 0 <= k < |observations| && observations[k].number == part.number && Confirms(part, observations[k])
  }

  predicate AllConfirmed(parts: seq<PartRow>, observations: seq<Observation>) {
    forall i :: 0 <= i < |parts| ==> Confirmed(parts[i], observations)
  }

  /** The checks every recovery passes. */
  predicate Examined(db: Db, s: Id, owner: Id, epoch: int, evidence: RecoveryEvidence, now: int) {
    && !SomeUnreadable(evidence.observations) && Presentable(evidence) && !Repeats(evidence.observations)
    && InState(db, s, Completing) && OwnsCompletion(db, s, owner, epoch, now)
    && !Beyond(evidence.observations, |PartsOf(db, s)|)
  }

  /** What decides it then: the parts, and a lease that is still there to be given up. */
  predicate Concludes(db: Db, s: Id, owner: Id, epoch: int, evidence: RecoveryEvidence, at: Instants) {
    match evidence.reason
    case RecoverReady => AllConfirmed(PartsOf(db, s), evidence.observations)
    case RecoverPartial => !AllConfirmed(PartsOf(db, s), evidence.observations) && OwnsCompletion(db, s, owner, epoch, at.flush)
    case _ => OwnsCompletion(db, s, owner, epoch, at.flush)
  }

  function KeptEvidence(row: SessionRow, evidence: RecoveryEvidence): SessionRow {
    row.(finalAbsenceAt := Some(evidence.finalAbsenceAt), reconciledAt := Some(evidence.reconciledAt),
         lastResult := Some(Implied(evidence)))
  }

  /** The session row of each outcome; all keep the evidence. */
  function RecoveredRow(row: SessionRow, evidence: RecoveryEvidence, now: int): SessionRow {
    var kept := KeptEvidence(row, evidence);
    match evidence.reason
    case RecoverReady => kept
    case RecoverPartial => kept.(state := InProgress, completionReason := None, completionPhase := None, lastActivityAt := now)
    case _ => kept.(state := Failed, failure := Some(ProviderAttemptInvalidated), invalidatedAt := Some(now),
                    completedAt := Some(now), lastActivityAt := now)
  }

  function RecoveredAction(reason: RecoveryReason): RecoveryAction {
    match reason
    case RecoverReady => RetryCompletion
    case RecoverPartial => ResumePartUpload
    case _ => StartNewGeneration
  }

  /** Evidence is kept, parts are judged unless the attempt is void, and the lease
      ends unless completion is retried. */
  ghost predicate RecoverLeaves(db: Db, s: Id, evidence: RecoveryEvidence, at: Instants, done: Done<Recovered>) {
    && s in db.sessions && s in db.parts && s in db.completion && s in done.db.parts
    && var parts, rows := db.parts[s], done.db.parts[s];
    && (if evidence.reason in {RecoverReady, RecoverPartial}
        then Judged(parts, evidence.observations, evidence.reconciledAt, seq(|parts|, _ => Some(evidence.reconciledAt)), rows)
        else rows == parts)
    && done.db == db.(
         clock := at.commit, sessions := db.sessions[s := RecoveredRow(db.sessions[s], evidence, at.now)],
         parts := db.parts[s := rows],
         completion := if evidence.reason == RecoverReady then db.completion
                       else db.completion[s := db.completion[s].(renewedAt := at.now, expiresAt := at.now)])
    && done.value.action == RecoveredAction(evidence.reason) && Describes(done.db, s, done.value.context)
  }

  ghost predicate RecoverError(db: Db, s: Id, owner: Id, epoch: int, evidence: RecoveryEvidence, now: int, error: Error) {
    if SomeUnreadable(evidence.observations) then Rejects(evidence.observations, error)
    else if !Presentable(evidence) || Repeats(evidence.observations) then error == ContentConflict
    else if !InState(db, s, Completing) || !OwnsCompletion(db, s, owner, epoch, now) then error == LeaseLost
    else if Beyond(evidence.observations, |PartsOf(db, s)|) then error == InvalidPartNumber
    else if evidence.reason == RecoverReady then error == ContentConflict
    else if evidence.reason == RecoverPartial && AllConfirmed(PartsOf(db, s), evidence.observations) then error == ContentConflict
    else error == TriggerRejected
  }

  lemma UniqueByNumber(observations: seq<Observation>, number: int, k: int)
    requires !Repeats(observations) && 0 <= k < |observations| && observations[k].number == number
    ensures ObservationFor(observations, number) == Some(observations[k])
  {
    FindsObservation(observations, number);
  }

  lemma ConfirmationIsAgreement(parts: seq<PartRow>, observations: seq<Observation>)
    requires !Repeats(observations)
    ensures AllConfirmed(parts, observations) <==> Y.AllAgree(parts, observations)
  {
    hide Confirmed, Agrees, ObservationFor, Repeats;
    forall i | 0 <= i < |parts|
      ensures Y.AgreesAt(parts, observations, i) <==> Confirmed(parts[i], observations)
    {
      AgreementConfirms(parts[i], observations);
    }
  }

  lemma AgreementConfirms(part: PartRow, observations: seq<Observation>)
    requires !Repeats(observations)
    ensures Agrees(part, ObservationFor(observations, part.number)) <==> Confirmed(part, observations)
  {
    hide ObservationFor, Repeats, MismatchCode, Confirms;
    FindsObservation(observations, part.number);
    var found := ObservationFor(observations, part.number);
    if found.Some? {
      ConfirmsExactly(part, found.value);
    }
    forall k | 0 <= k < |observations| && observations[k].number == part.number
      ensures found == Some(observations[k])
    {
      UniqueByNumber(observations, part.number, k);
    }
  }

  lemma ConfirmsExactly(part: PartRow, seen: Observation)
    ensures Confirms(part, seen) <==> Agrees(part, Some(seen))
  {
    P.AgreesExactly(part, seen);
  }

  lemma ExaminedExactly(db: Db, s: Id, owner: Id, epoch: int, evidence: RecoveryEvidence, now: int)
    requires Inv(db)
    ensures Examined(db, s, owner, epoch, evidence, now) <==> V.Recoverable(db, s, owner, epoch, evidence, now)
    ensures CheckEvidence(evidence).Pass? <==> Presentable(evidence)
    ensures DistinctObservations(evidence.observations) <==> !Repeats(evidence.observations)
    ensures CheckEvidence(evidence).Fail? ==> CheckEvidence(evidence).error == ContentConflict
  {
    hide Inv, SomeUnreadable, CheckObservations;
    ChecksObservations(evidence.observations);
    if InState(db, s, Completing) {
      CompletingPhase(db, s);
    }
    if !SomeUnreadable(evidence.observations) {
      assert AllPlanned(PartsOf(db, s), evidence.observations) <==> !Beyond(evidence.observations, |PartsOf(db, s)|) by {
        PositiveNumbers(evidence.observations);
      }
    }
  }

  /** A void attempt: the session fails for good. */
  lemma InvalidationLeaves(db: Db, s: Id, evidence: RecoveryEvidence, at: Instants, result: Result<Done<Recovered>, Error>)
    requires Inv(db) && ValidInstants(db, at) && InState(db, s, Completing) && s in db.completion
    requires db.completion[s].expiresAt > at.now && Presentable(evidence) && Invalidates(evidence.reason)
    requires result == Invalidate(db, s, evidence, at)
    ensures if db.completion[s].expiresAt > at.flush then result.Ok? else result == Err(TriggerRejected)
    ensures result.Ok? ==> RecoverLeaves(db, s, evidence, at, result.value)
  {
    hide Inv, Advances, SessionUpdateAllowed, CompletionUpdateAllowed, Commit, LoadContext, Judged, Describes;
    V.InvalidateSafe(db, s, evidence, at);
    CompletingPhase(db, s);
    if result.Ok? {
      ContextDescribes(result.value.db, s, at.commit);
      var after := db.(sessions := result.value.db.sessions, completion := result.value.db.completion);
      ClockFree(after, s, at.commit);
      assert db.parts[s := db.parts[s]] == db.parts;
    }
  }

  /** What the retry and the requeue outcome write of parts and evidence. */
  lemma RecheckLeaves(db: Db, s: Id, evidence: RecoveryEvidence)
    requires Inv(db) && InState(db, s, Completing) && s in db.parts
    ensures var mid, parts := V.Rechecked(db, s, evidence), db.parts[s];
      && mid == db.(sessions := mid.sessions, parts := db.parts[s := mid.parts[s]])
      && mid.sessions == db.sessions[s := KeptEvidence(db.sessions[s], evidence)]
      && Judged(parts, evidence.observations, evidence.reconciledAt, seq(|parts|, _ => Some(evidence.reconciledAt)), mid.parts[s])
  {
    hide Inv, Judged, RecheckAll;
    ReconciliationJudges(db.parts[s], evidence.observations, evidence.reconciledAt);
  }

  lemma RetryLeaves(db: Db, s: Id, owner: Id, epoch: int, evidence: RecoveryEvidence, at: Instants,
                    result: Result<Done<Recovered>, Error>)
    requires Inv(db) && ValidInstants(db, at) && Examined(db, s, owner, epoch, evidence, at.now) && evidence.reason == RecoverReady
    requires result == Recover(db, s, owner, epoch, evidence, at)
    ensures if AllConfirmed(PartsOf(db, s), evidence.observations) then result.Ok? else result == Err(ContentConflict)
    ensures result.Ok? ==> RecoverLeaves(db, s, evidence, at, result.value)
  {
    hide Inv, Advances, CheckObservations, CheckEvidence, AllVerified, RecheckAll, ObserveAll, PutSession, PutParts;
    hide Invalidate, Requeue, LoadContext, Commit, AllPlanned, DistinctObservations, Judged, Describes, Examined, AllConfirmed;
    hide Y.AllAgree, WithEvidence, V.Rechecked, V.Recoverable;
    Examination(db, s, owner, epoch, evidence, at.now);
    V.RecheckWrites(db, s, evidence);
    RecheckLeaves(db, s, evidence);
    V.RecoverSafe(db, s, owner, epoch, evidence, at);
    Y.ReadyLeaves(db, s, owner, epoch, evidence, at);
    if result.Ok? {
      ContextDescribes(result.value.db, s, at.commit);
      ClockFree(V.Rechecked(db, s, evidence), s, at.commit);
    }
  }

  /** What a recovery that passes its checks may rely on. */
  lemma Examination(db: Db, s: Id, owner: Id, epoch: int, evidence: RecoveryEvidence, now: int)
    requires Inv(db) && Examined(db, s, owner, epoch, evidence, now)
    ensures V.Recoverable(db, s, owner, epoch, evidence, now) && InState(db, s, Completing) && db.sessions[s].strategy == Multipart
    ensures s in db.parts && s in db.completion && OwnsCompletion(db, s, owner, epoch, now)
    ensures CheckObservations(evidence.observations).Pass? && CheckEvidence(evidence).Pass? && DistinctObservations(evidence.observations)
    ensures AllPlanned(PartsOf(db, s), evidence.observations) && db.sessions[s].provider.Some? && Presentable(evidence)
    ensures AllConfirmed(PartsOf(db, s), evidence.observations) <==> Y.AllAgree(PartsOf(db, s), evidence.observations)
  {
    hide Inv, SomeUnreadable, CheckObservations, AllConfirmed, Y.AllAgree;
    ExaminedExactly(db, s, owner, epoch, evidence, now);
    CompletingPhase(db, s);
    ConfirmationIsAgreement(PartsOf(db, s), evidence.observations);
  }

  /** Back to part upload. */
  lemma RequeueLeaves(db: Db, s: Id, owner: Id, epoch: int, evidence: RecoveryEvidence, at: Instants,
                      result: Result<Done<Recovered>, Error>)
    requires Inv(db) && ValidInstants(db, at) && Examined(db, s, owner, epoch, evidence, at.now) && evidence.reason == RecoverPartial
    requires result == Recover(db, s, owner, epoch, evidence, at)
    ensures AllConfirmed(PartsOf(db, s), evidence.observations) ==> result == Err(ContentConflict)
    ensures !AllConfirmed(PartsOf(db, s), evidence.observations) ==>
      if OwnsCompletion(db, s, owner, epoch, at.flush) then result.Ok? else result == Err(TriggerRejected)
    ensures result.Ok? ==> RecoverLeaves(db, s, evidence, at, result.value)
  {
    hide Inv, Advances, CheckObservations, CheckEvidence, AllVerified, RecheckAll, ObserveAll, PutSession, PutParts;
    hide Invalidate, Requeue, LoadContext, Commit, AllPlanned, DistinctObservations, Judged, Describes, Examined, AllConfirmed;
    hide Y.AllAgree, WithEvidence, V.Rechecked, V.Recoverable;
    Examination(db, s, owner, epoch, evidence, at.now);
    V.RecheckWrites(db, s, evidence);
    RecheckLeaves(db, s, evidence);
    V.RecoverSafe(db, s, owner, epoch, evidence, at);
    Y.RecheckedVerified(db.parts[s], evidence.observations, evidence.reconciledAt);
    if !Y.AllAgree(db.parts[s], evidence.observations) {
      V.RequeueSafe(db, s, evidence, at);
      RequeueWrites(db, s, evidence, at, result);
    }
  }

  lemma RequeueWrites(db: Db, s: Id, evidence: RecoveryEvidence, at: Instants, result: Result<Done<Recovered>, Error>)
    requires Inv(db) && ValidInstants(db, at) && InState(db, s, Completing) && s in db.parts && s in db.completion
    requires evidence.reason == RecoverPartial && result == Requeue(V.Rechecked(db, s, evidence), s, at)
    requires result.Ok? ==> Inv(result.value.db) && db.sessions[s].strategy == Multipart
    ensures result.Ok? ==> RecoverLeaves(db, s, evidence, at, result.value)
  {
    hide Inv, Advances, SessionUpdateAllowed, CompletionUpdateAllowed, Commit, LoadContext, Judged, Describes;
    hide RecheckAll;
    RecheckLeaves(db, s, evidence);
    if result.Ok? {
      ContextDescribes(result.value.db, s, at.commit);
      var after := V.Rechecked(db, s, evidence).(sessions := result.value.db.sessions, completion := result.value.db.completion);
      ClockFree(after, s, at.commit);
    }
  }

  /** Recovery decides by its evidence alone; whatever it leaves holds that
      evidence, and is one of three outcomes. */
  lemma RecoverDecides(db: Db, s: Id, owner: Id, epoch: int, evidence: RecoveryEvidence, at: Instants,
                       result: Result<Done<Recovered>, Error>)
    requires Inv(db) && ValidInstants(db, at) && result == Recover(db, s, owner, epoch, evidence, at)
    ensures result.Ok? <==> Examined(db, s, owner, epoch, evidence, at.now) && Concludes(db, s, owner, epoch, evidence, at)
    ensures result.Ok? ==> RecoverLeaves(db, s, evidence, at, result.value)
    ensures result.Err? ==> RecoverError(db, s, owner, epoch, evidence, at.now, result.error)
  {
    hide Inv, RecoverLeaves, AllConfirmed, Invalidate, Requeue, PutSession, PutParts, LoadContext, Commit, RecheckAll, ObserveAll;
    hide AllVerified, CheckObservations, CheckEvidence, DistinctObservations, AllPlanned, Rejects, SomeUnreadable;
    hide Repeats, Beyond, Presentable, WithEvidence;
    ExaminedExactly(db, s, owner, epoch, evidence, at.now);
    ChecksObservations(evidence.observations);
    if InState(db, s, Completing) {
      CompletingPhase(db, s);
    }
    if Examined(db, s, owner, epoch, evidence, at.now) {
      Examination(db, s, owner, epoch, evidence, at.now);
      match evidence.reason
      case RecoverReady => RetryLeaves(db, s, owner, epoch, evidence, at, result);
      case RecoverPartial => RequeueLeaves(db, s, owner, epoch, evidence, at, result);
      case _ => InvalidationLeaves(db, s, evidence, at, Invalidate(db, s, evidence, at));
    }
  }

  // -------------------------------------------------------------- publication

  /** The evidence is of the Blob's own content, and well formed. */
  predicate Proves(evidence: Evidence, blob: BlobRow) {
    && evidence.sha256 == blob.sha256 && evidence.size == blob.size == evidence.readBytes
    && 1 <= |evidence.verifier| <= 128
  }

  predicate Verifiable(db: Db, s: Id, evidence: Evidence) {
    && InState(db, s, Completing) && db.sessions[s].completionPhase == Some(FinalVerification)
    && db.sessions[s].blobId in db.blobs && Proves(evidence, db.blobs[db.sessions[s].blobId])
  }

  function VerifiedError(db: Db, s: Id, owner: Id, epoch: int, evidence: Evidence, now: int): Error {
    if !WellFormedEvidence(evidence) then ContentConflict
    else if !InState(db, s, Completing) || !OwnsCompletion(db, s, owner, epoch, now) then LeaseLost
    else if db.sessions[s].completionPhase != Some(FinalVerification) then IllegalTransition
    else if !Verifiable(db, s, evidence) then ContentConflict
    else TriggerRejected
  }

  /** The session stores the evidence and is COMPLETED when the content was read,
      the Blob is AVAILABLE since then, and the lease has ended. */
  predicate VerifiedLeaves(db: Db, s: Id, evidence: Evidence, at: Instants, after: Db)
    requires s in db.sessions && db.sessions[s].blobId in db.blobs && s in db.completion
  {
    after == db.(
      clock := at.commit,
      sessions := db.sessions[s := db.sessions[s].(
        state := Completed, evidence := Some(evidence), completedAt := Some(evidence.completedAt), lastActivityAt := at.now)],
      blobs := db.blobs[db.sessions[s].blobId :=
        db.blobs[db.sessions[s].blobId].(state := BlobAvailable, verifiedAt := Some(evidence.completedAt))],
      completion := db.completion[s := db.completion[s].(renewedAt := at.now, expiresAt := at.now)])
  }

  lemma VerifiedDecides(db: Db, s: Id, owner: Id, epoch: int, evidence: Evidence, at: Instants, result: Result<Done<Context>, Error>)
    requires Inv(db) && ValidInstants(db, at) && result == RecordVerified(db, s, owner, epoch, evidence, at)
    ensures result.Ok? <==> Verifiable(db, s, evidence) && OwnsCompletion(db, s, owner, epoch, at.flush)
    ensures result.Ok? ==>
      && VerifiedLeaves(db, s, evidence, at, result.value.db) && Describes(result.value.db, s, result.value.value)
    ensures result.Err? ==> result.error == VerifiedError(db, s, owner, epoch, evidence, at.now)
  {
    hide Inv, Advances, LoadContext, Commit, V.Published, PutSession, PutBlob, PutCompletion, Describes, WellFormedEvidence;
    V.RecordVerifiedSafe(db, s, owner, epoch, evidence, at);
    if InState(db, s, Completing) {
      CompletingPhase(db, s);
      ProofIsWellFormed(db, s, evidence);
      if V.Verifiable(db, s, owner, epoch, evidence, at.now) {
        V.PublicationIsAllowed(db, s, owner, epoch, evidence, at);
        V.RecordVerifiedWrites(db, s, owner, epoch, evidence, at);
        PublishedRows(db, s, evidence, at);
        if result.Ok? {
          ContextDescribes(result.value.db, s, at.commit);
          ClockFree(V.Published(db, s, evidence, at.now), s, at.commit);
        }
      }
    }
  }

  lemma PublishedRows(db: Db, s: Id, evidence: Evidence, at: Instants)
    requires s in db.sessions && db.sessions[s].blobId in db.blobs && s in db.completion
    ensures VerifiedLeaves(db, s, evidence, at, V.Published(db, s, evidence, at.now).(clock := at.commit))
  {
  }

  lemma ProofIsWellFormed(db: Db, s: Id, evidence: Evidence)
    requires Inv(db) && s in db.sessions && db.sessions[s].blobId in db.blobs
    ensures V.EvidenceIs(evidence, db.blobs[db.sessions[s].blobId]) ==> (WellFormedEvidence(evidence) <==> 1 <= |evidence.verifier| <= 128)
    ensures WellFormedEvidence(evidence) ==> 1 <= |evidence.verifier| <= 128
  {
    hide Inv, IsDigest;
    BlobIsSound(db, db.sessions[s].blobId);
  }

  lemma BlobIsSound(db: Db, b: Id)
    requires Inv(db) && b in db.blobs
    ensures IsDigest(db.blobs[b].sha256) && db.blobs[b].size >= 0
  {
    hide IsDigest, SessionSound, PairsOk, GenerationsOk, VersionsOk, BindingsOk;
    assert BlobSound(db, b);
  }
}
