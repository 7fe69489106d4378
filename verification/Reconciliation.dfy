/** Reconciliation as a projection of provider evidence onto part states, and
    the outcomes of recovery. */
module Reconciliation {
  import opened Base
  import opened CompletionSafety
  import opened Flush
  import opened Guards
  import opened History
  import opened Invariant
  import opened Multipart
  import opened RecoverySafety
  import opened Rows
  import Sealing

  // --------------------------------------------------------------- projection

  /** Part `i` agrees with what the observations say of its number. */
  predicate AgreesAt(parts: seq<PartRow>, observations: seq<Observation>, i: int)
    requires 0 <= i < |parts|
  {
    Agrees(parts[i], ObservationFor(observations, parts[i].number))
  }

  /** Every part is VERIFIED where it agrees and PENDING elsewhere, whatever it was. */
  predicate Projected(parts: seq<PartRow>, observations: seq<Observation>, rows: seq<PartRow>) {
    |rows| == |parts| && forall i :: 0 <= i < |parts| ==>
      rows[i].state == if AgreesAt(parts, observations, i) then PartVerified else PartPending
  }

  lemma ReconcileProjects(parts: seq<PartRow>, observations: seq<Observation>, clock: int)
    ensures Projected(parts, observations, ReconcileAll(parts, observations, clock))
    ensures Projected(parts, observations, RecheckAll(parts, observations, clock))
  {
    hide MismatchCode, ObservationFor;
  }

  /** After a reconciliation each part is VERIFIED exactly when receipt, expected
      digest, planned size and observation all agree, and PENDING otherwise. */
  lemma ReconcileIsProjection(db: Db, s: Id, owner: Id, epoch: int, observations: seq<Observation>, at: Instants)
    requires Reconcile(db, s, owner, epoch, observations, at).Ok?
    ensures var done := Reconcile(db, s, owner, epoch, observations, at).value;
      && s in db.parts && s in done.db.parts
      && done.db.parts[s] == ReconcileAll(db.parts[s], observations, at.flush)
      && Projected(db.parts[s], observations, done.db.parts[s])
      && done.value == Resolved(db.parts[s], observations)
      && done.db.sessions[s].state == InProgress
  {
    hide SessionUpdateAllowed, PartsUpdateAllowed, ObserveAll, ReconcileAll, Resolved, Projected, CheckObservations;
    hide AllPlanned, Commit;
    ReconcileProjects(PartsOf(db, s), observations, at.flush);
  }

  // -------------------------------------------------------------- idempotence

  /** Agreement depends on planned columns and the receipt, which
      reconciliation leaves alone. */
  lemma AgreementIsStable(part: PartRow, observation: Option<Observation>, clock: int)
    ensures Agrees(Reconciled(part, observation, clock), observation) == Agrees(part, observation)
    ensures Reconciled(part, observation, clock).number == part.number
    ensures Reconciled(part, observation, clock).size == part.size
  {
  }

  lemma {:induction false} NothingNew(rows: seq<PartRow>, observations: seq<Observation>)
    requires forall i :: 0 <= i < |rows| ==> !NewlyResolved(rows[i], ObservationFor(observations, rows[i].number))
    ensures Resolved(rows, observations) == Multipart.Reconciliation(0, 0)
  {
    if |rows| > 0 {
      NothingNew(rows[..|rows| - 1], observations);
    }
  }

  /** Repeating a reconciliation changes no state and reports nothing. */
  lemma ReconcileTwice(parts: seq<PartRow>, observations: seq<Observation>, clock: int, later: int)
    ensures var rows := ReconcileAll(parts, observations, clock);
      && Resolved(rows, observations) == Multipart.Reconciliation(0, 0)
      && forall i :: 0 <= i < |parts| ==> ReconcileAll(rows, observations, later)[i].state == rows[i].state
  {
    var rows := ReconcileAll(parts, observations, clock);
    ReconcileProjects(parts, observations, clock);
    ReconcileProjects(rows, observations, later);
    hide Agrees, Reconciled, ObservationFor;
    forall i | 0 <= i < |parts|
      ensures AgreesAt(rows, observations, i) == AgreesAt(parts, observations, i)
    {
      AgreementIsStable(parts[i], ObservationFor(observations, parts[i].number), clock);
    }
    NothingNew(rows, observations);
  }

  /** The same, of two transactions with nothing in between. */
  lemma ReconcileAgain(db: Db, s: Id, owner: Id, epoch: int, observations: seq<Observation>, at: Instants,
                       later: Instants)
    requires Reconcile(db, s, owner, epoch, observations, at).Ok?
    requires var mid := Reconcile(db, s, owner, epoch, observations, at).value.db;
      Reconcile(mid, s, owner, epoch, observations, later).Ok?
    ensures var mid := Reconcile(db, s, owner, epoch, observations, at).value.db;
      var done := Reconcile(mid, s, owner, epoch, observations, later).value;
      && s in mid.parts && s in done.db.parts && |done.db.parts[s]| == |mid.parts[s]|
      && done.value == Multipart.Reconciliation(0, 0)
      && forall i :: 0 <= i < |mid.parts[s]| ==> done.db.parts[s][i].state == mid.parts[s][i].state
  {
    hide Reconcile, ReconcileAll, Resolved, Projected;
    ReconcileIsProjection(db, s, owner, epoch, observations, at);
    var mid := Reconcile(db, s, owner, epoch, observations, at).value.db;
    ReconcileIsProjection(mid, s, owner, epoch, observations, later);
    ReconcileTwice(db.parts[s], observations, at.flush, later.flush);
  }

  // --------------------------------------------------------------- accounting

  function VerifiedBytes(parts: seq<PartRow>): int {
    if |parts| == 0 then 0
    else VerifiedBytes(parts[..|parts| - 1]) + if parts[|parts| - 1].state == PartVerified then parts[|parts| - 1].size else 0
  }

  /** Bytes of verified parts the observations do not support. */
  function ResetBytes(parts: seq<PartRow>, observations: seq<Observation>): int {
    if |parts| == 0 then 0
    else
      var i := |parts| - 1;
      ResetBytes(parts[..i], observations) + if parts[i].state == PartVerified && !AgreesAt(parts, observations, i) then parts[i].size else 0
  }

  /** Verified bytes after are verified bytes before, plus the bytes reported as
      resolved, minus the bytes of parts reset. */
  lemma {:induction false} ReconcileBalances(parts: seq<PartRow>, observations: seq<Observation>, clock: int)
    ensures VerifiedBytes(ReconcileAll(parts, observations, clock))
      == VerifiedBytes(parts) + Resolved(parts, observations).bytes - ResetBytes(parts, observations)
  {
    if |parts| > 0 {
      var n, rows := |parts| - 1, ReconcileAll(parts, observations, clock);
      ReconcileBalances(parts[..n], observations, clock);
      assert rows[..n] == ReconcileAll(parts[..n], observations, clock);
      ReconcileProjects(parts, observations, clock);
      AgreementIsStable(parts[n], ObservationFor(observations, parts[n].number), clock);
      hide Agrees, Reconciled, ObservationFor, ReconcileAll;
    }
  }

  // ----------------------------------------------------------------- recovery

  predicate AllAgree(parts: seq<PartRow>, observations: seq<Observation>) {
    forall i :: 0 <= i < |parts| ==> AgreesAt(parts, observations, i)
  }

  lemma RecheckedVerified(parts: seq<PartRow>, observations: seq<Observation>, clock: int)
    ensures AllVerified(RecheckAll(parts, observations, clock)) <==> AllAgree(parts, observations)
  {
    hide Agrees, ObservationFor, Recheck;
    ReconcileProjects(parts, observations, clock);
    var rows := RecheckAll(parts, observations, clock);
    if AllVerified(rows) {
      forall i | 0 <= i < |parts|
        ensures AgreesAt(parts, observations, i)
      {
        assert rows[i].state == PartVerified;
      }
    }
  }

  /** What the ready outcome leaves: still completing, every part verified. */
  predicate LeftReady(db: Db, after: Db, s: Id) {
    && s in after.sessions && after.sessions[s].state == Completing
    && s in after.parts && AllVerified(after.parts[s])
    && after.completion == db.completion
  }

  /** What the partial outcome leaves: back in upload, exactly the agreeing parts
      verified, the lease ended. */
  predicate LeftPartial(db: Db, after: Db, s: Id, observations: seq<Observation>, now: int) {
    && s in after.sessions && after.sessions[s].state == InProgress
    && s in db.parts && s in after.parts && Projected(db.parts[s], observations, after.parts[s])
    && s in after.completion && after.completion[s].expiresAt == now
  }

  lemma ReadyLeaves(db: Db, s: Id, owner: Id, epoch: int, evidence: RecoveryEvidence, at: Instants)
    requires Inv(db) && ValidInstants(db, at) && Recoverable(db, s, owner, epoch, evidence, at.now)
    requires evidence.reason == RecoverReady
    ensures s in db.parts
    ensures AllAgree(db.parts[s], evidence.observations) ==>
      var result := Recover(db, s, owner, epoch, evidence, at);
      result.Ok? && LeftReady(db, result.value.db, s) && result.value.value.action == RetryCompletion
    ensures !AllAgree(db.parts[s], evidence.observations) ==> Recover(db, s, owner, epoch, evidence, at) == Err(ContentConflict)
  {
    hide Inv, Advances, CheckObservations, CheckEvidence, AllVerified, AllAgree, RecheckAll, ObserveAll, PutSession;
    hide PutParts, Invalidate, Requeue, LoadContext, Commit;
    hide AllPlanned, DistinctObservations;
    RecheckWrites(db, s, evidence);
    RecheckedVerified(db.parts[s], evidence.observations, evidence.reconciledAt);
    if AllAgree(db.parts[s], evidence.observations) {
      ReadySafe(db, s, evidence, at);
      var after := Rechecked(db, s, evidence);
      Sealing.CommitPasses(after, db.sessions[s].blobId, at, Recovered(RetryCompletion, LoadContext(after, s).value));
    }
  }

  lemma PartialLeaves(db: Db, s: Id, owner: Id, epoch: int, evidence: RecoveryEvidence, at: Instants)
    requires Inv(db) && ValidInstants(db, at) && Recoverable(db, s, owner, epoch, evidence, at.now)
    requires evidence.reason == RecoverPartial
    requires !Lapses(db, s, at)
    ensures s in db.parts
    ensures !AllAgree(db.parts[s], evidence.observations) ==>
      var result := Recover(db, s, owner, epoch, evidence, at);
      result.Ok? && LeftPartial(db, result.value.db, s, evidence.observations, at.now) && result.value.value.action == ResumePartUpload
    ensures AllAgree(db.parts[s], evidence.observations) ==> Recover(db, s, owner, epoch, evidence, at) == Err(ContentConflict)
  {
    hide Inv, Advances, CheckObservations, CheckEvidence, AllVerified, AllAgree, RecheckAll, ObserveAll, PutSession;
    hide PutParts, Invalidate, Requeue, LoadContext, Commit;
    hide AllPlanned, DistinctObservations, WithEvidence, Projected;
    RecheckWrites(db, s, evidence);
    RecheckedVerified(db.parts[s], evidence.observations, evidence.reconciledAt);
    if !AllAgree(db.parts[s], evidence.observations) {
      RequeueSafe(db, s, evidence, at);
      RequeueLeaves(Rechecked(db, s, evidence), s, at);
      ReconcileProjects(db.parts[s], evidence.observations, evidence.reconciledAt);
    }
  }

  lemma RequeueLeaves(db: Db, s: Id, at: Instants)
    requires s in db.sessions && s in db.completion && Requeue(db, s, at).Ok?
    ensures var done := Requeue(db, s, at).value;
      && done.db.sessions == db.sessions[s := Requeued(db.sessions[s], at.now)] && done.db.parts == db.parts
      && done.db.completion == db.completion[s := ReleasedCompletion(db.completion[s], at.now)]
      && done.value.action == ResumePartUpload
  {
    hide LoadContext, SessionUpdateAllowed, CompletionUpdateAllowed, Commit;
  }

  /** Recovery dichotomy: of the ready and the partial outcome for the same
      evidence exactly one commits, by whether all parts agree; the other raises
      and so changes nothing. */
  lemma RecoveryDichotomy(db: Db, s: Id, owner: Id, epoch: int, evidence: RecoveryEvidence, at: Instants)
    requires Inv(db) && ValidInstants(db, at) && !Lapses(db, s, at)
    requires Recoverable(db, s, owner, epoch, evidence.(reason := RecoverReady), at.now)
    ensures s in db.parts
    ensures var ready := Recover(db, s, owner, epoch, evidence.(reason := RecoverReady), at);
      var partial := Recover(db, s, owner, epoch, evidence.(reason := RecoverPartial), at);
      if AllAgree(db.parts[s], evidence.observations)
      then ready.Ok? && LeftReady(db, ready.value.db, s) && partial == Err(ContentConflict)
      else partial.Ok? && LeftPartial(db, partial.value.db, s, evidence.observations, at.now) && ready == Err(ContentConflict)
  {
    hide Inv, Recover, CheckObservations, AllPlanned, DistinctObservations, LeftReady, LeftPartial, AllAgree;
    ReadyLeaves(db, s, owner, epoch, evidence.(reason := RecoverReady), at);
    PartialLeaves(db, s, owner, epoch, evidence.(reason := RecoverPartial), at);
  }

  /** The two invalidation reasons always end in FAILED with the lease ended. */
  lemma InvalidationFails(db: Db, s: Id, owner: Id, epoch: int, evidence: RecoveryEvidence, at: Instants)
    requires Inv(db) && ValidInstants(db, at) && !Lapses(db, s, at)
    requires Recoverable(db, s, owner, epoch, evidence, at.now) && Invalidates(evidence.reason)
    ensures var result := Recover(db, s, owner, epoch, evidence, at);
      && result.Ok? && result.value.value.action == StartNewGeneration
      && s in result.value.db.sessions && result.value.db.sessions[s].state == Failed
      && s in result.value.db.completion && result.value.db.completion[s].expiresAt == at.now
      && result.value.db.parts == db.parts
  {
    hide Inv, Advances, CheckObservations, CheckEvidence, Invalidate, AllPlanned, DistinctObservations, LoadContext;
    hide Commit;
    InvalidateSafe(db, s, evidence, at);
    InvalidateLeaves(db, s, evidence, at);
  }

  lemma InvalidateLeaves(db: Db, s: Id, evidence: RecoveryEvidence, at: Instants)
    requires s in db.sessions && s in db.completion && Invalidate(db, s, evidence, at).Ok?
    ensures var done := Invalidate(db, s, evidence, at).value;
      && done.db.sessions == db.sessions[s := Invalidated(db.sessions[s], evidence, at.now)] && done.db.parts == db.parts
      && done.db.completion == db.completion[s := ReleasedCompletion(db.completion[s], at.now)]
      && done.value.action == StartNewGeneration
  {
    hide LoadContext, SessionUpdateAllowed, CompletionUpdateAllowed, Commit;
  }
}
