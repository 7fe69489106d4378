/** Upload, field by field: when each transaction commits, which columns it then
    writes, and which error is raised otherwise. */
module UploadEffects {
  import opened Base
  import opened Digest
  import opened Flush
  import opened Guards
  import opened History
  import opened Invariant
  import opened LeaseEffects
  import opened Multipart
  import opened Rows
  import opened Runs
  import opened Safety
  import opened Weights
  import Coverage
  import L = LeaseSafety
  import R = Receipts
  import U = UploadSafety
  import Y = Reconciliation

  predicate InState(db: Db, s: Id, state: SessionState) {
    s in db.sessions && db.sessions[s].state == state
  }

  // --------------------------------------------------------------- initiation

  lemma BeginDecides(db: Db, s: Id, owner: Id, epoch: int, at: Instants, result: Result<Done<()>, Error>)
    requires Inv(db) && ValidInstants(db, at) && result == BeginInitiation(db, s, owner, epoch, at)
    ensures result.Ok? <==> InState(db, s, Created) && OwnsUpload(db, s, owner, epoch, at.now)
    ensures result.Ok? ==> result.value.db == db.(
      clock := at.commit,
      sessions := db.sessions[s := db.sessions[s].(
        state := Initiating, initiationStartedAt := Some(at.flush), lastActivityAt := at.flush)])
    ensures result.Err? ==> result.error == LeaseLost
  {
    hide Inv, Advances, SessionUpdateAllowed, Commit;
    U.BeginInitiationSafe(db, s, owner, epoch, at);
  }

  function ProviderError(db: Db, s: Id, owner: Id, epoch: int, provider: string, now: int): Error {
    if provider == "" then ContentConflict
    else if !InState(db, s, Initiating) || !OwnsUpload(db, s, owner, epoch, now) then LeaseLost
    else IllegalTransition
  }

  /** The session stores the very id presented, and its Blob is UPLOADING. */
  lemma ProviderDecides(db: Db, s: Id, owner: Id, epoch: int, provider: string, at: Instants, result: Result<Done<()>, Error>)
    requires Inv(db) && ValidInstants(db, at) && result == RecordProvider(db, s, owner, epoch, provider, at)
    ensures result.Ok? <==>
      && provider != "" && InState(db, s, Initiating) && OwnsUpload(db, s, owner, epoch, at.now)
      && db.sessions[s].blobId in db.blobs && db.blobs[db.sessions[s].blobId].state in {BlobPending, BlobUploading}
    ensures result.Ok? ==> result.value.db == db.(
      clock := at.commit,
      sessions := db.sessions[s := db.sessions[s].(state := InProgress, provider := Some(provider), lastActivityAt := at.flush)],
      blobs := db.blobs[db.sessions[s].blobId := db.blobs[db.sessions[s].blobId].(state := BlobUploading)])
    ensures result.Err? ==> result.error == ProviderError(db, s, owner, epoch, provider, at.now)
  {
    hide Inv, Advances, SessionUpdateAllowed, BlobUpdateAllowed, Commit;
    U.RecordProviderSafe(db, s, owner, epoch, provider, at);
    if s in db.sessions {
      StandingSound(db, s);
    }
  }

  /** Whatever happens afterwards, the session keeps that id. */
  lemma ProviderStands(db: Db, run: seq<Event>, s: Id)
    requires Inv(db) && ValidRun(db, run) && s in db.sessions && db.sessions[s].provider.Some?
    ensures s in After(db, run).sessions && After(db, run).sessions[s].provider == db.sessions[s].provider
  {
    hide Inv, ValidRun, After;
    RunSound(db, run);
  }

  lemma AmbiguousDecides(db: Db, s: Id, owner: Id, epoch: int, at: Instants, result: Result<Done<()>, Error>)
    requires Inv(db) && ValidInstants(db, at) && result == MarkAmbiguous(db, s, owner, epoch, at)
    ensures result.Ok? <==> InState(db, s, Initiating) && OwnsUpload(db, s, owner, epoch, at.now)
    ensures result.Ok? ==> result.value.db == db.(
      clock := at.commit,
      sessions := db.sessions[s := db.sessions[s].(
        state := Failed, failure := Some(InitiationAmbiguous), initiationAmbiguousAt := Some(at.flush),
        completedAt := Some(at.flush), lastActivityAt := at.flush)],
      admission := db.admission[s := db.admission[s].(renewedAt := at.flush, expiresAt := at.flush)])
    ensures result.Err? ==> result.error == LeaseLost
  {
    hide Inv, Advances, SessionUpdateAllowed, AdmissionUpdateAllowed, Commit;
    L.MarkAmbiguousSafe(db, s, owner, epoch, at);
  }

  // ----------------------------------------------------------------- receipts

  /** The presented receipt is the one of a planned part, as far as it is known. */
  predicate Fitting(parts: seq<PartRow>, receipt: Receipt) {
    && 1 <= receipt.number <= |parts|
    && receipt.checksum == ChecksumBase64(parts[receipt.number - 1].sha256)
    && parts[receipt.number - 1].responseEtag in {None, Some(receipt.etag)}
  }

  function PartError(db: Db, s: Id, owner: Id, epoch: int, receipt: Receipt, now: int): Error {
    if !(1 <= receipt.number <= 10_000) || receipt.etag == "" then ContentConflict
    else if ChecksumToDigest(receipt.checksum).None? then ChecksumRejected
    else if !InState(db, s, InProgress) || !OwnsUpload(db, s, owner, epoch, now) then LeaseLost
    else if receipt.number > |PartsOf(db, s)| then InvalidPartNumber
    else if receipt.checksum != ChecksumBase64(PartsOf(db, s)[receipt.number - 1].sha256) then ChecksumRejected
    else ContentConflict
  }

  /** The part is UPLOADED with the receipt; one that has it already is left alone. */
  predicate Recorded(part: PartRow, receipt: Receipt, now: int, after: PartRow) {
    after == if part.responseEtag.Some? then part
             else part.(state := PartUploaded, responseEtag := Some(receipt.etag), responseChecksum := Some(receipt.checksum),
                        responseAt := Some(now), uploadedAt := Some(now))
  }

  lemma PartCount(db: Db, s: Id)
    requires Inv(db) && s in db.sessions && db.sessions[s].strategy == Multipart
    ensures s in db.parts && 1 <= |db.parts[s]| <= 10_000
  {
    hide Inv, PartsSound, PlanFrozen;
    Coverage.FrozenParts(db, s);
    FrozenChecks(db.sessions[s], db.parts[s], db.blobs[db.sessions[s].blobId].size);
    FrozenCount(db.sessions[s], db.parts[s], db.blobs[db.sessions[s].blobId].size);
  }

  lemma FrozenCount(row: SessionRow, parts: seq<PartRow>, blobSize: int)
    requires PlanFrozen(row, parts, blobSize)
    ensures row.frozen.Some? && row.frozen.value.plannedCount == |parts|
  {
  }

  lemma PartDecides(db: Db, s: Id, owner: Id, epoch: int, receipt: Receipt, at: Instants, result: Result<Done<PartRow>, Error>)
    requires Inv(db) && ValidInstants(db, at) && result == RecordPart(db, s, owner, epoch, receipt, at)
    ensures result.Ok? <==>
      && receipt.etag != "" && InState(db, s, InProgress) && OwnsUpload(db, s, owner, epoch, at.now)
      && Fitting(PartsOf(db, s), receipt)
    ensures result.Ok? ==>
      && s in db.parts && Recorded(db.parts[s][receipt.number - 1], receipt, at.flush, result.value.value)
      && result.value.db == db.(
           clock := at.commit, sessions := db.sessions[s := db.sessions[s].(lastActivityAt := at.flush)],
           parts := db.parts[s := db.parts[s][receipt.number - 1 := result.value.value]])
    ensures result.Err? ==> result.error == PartError(db, s, owner, epoch, receipt, at.now)
  {
    hide Inv, Advances, SessionUpdateAllowed, PartsUpdateAllowed, Commit, PartSound, ChecksumToDigest, ChecksumBase64;
    hide StoredReceipt, HasReceiptField;
    U.RecordPartSafe(db, s, owner, epoch, receipt, at);
    if AdmittedIn(db, s, owner, epoch, InProgress, at.now) {
      Coverage.AdmittedIsMulti(db, s);
      PartCount(db, s);
      if Planned(PartsOf(db, s), receipt.number) {
        R.PlannedPart(db, s, receipt.number);
        R.ReceiptIsTaken(PartsOf(db, s)[receipt.number - 1], receipt);
        var parts, i := db.parts[s], receipt.number - 1;
        assert parts[i := parts[i]] == parts && db.parts[s := parts] == db.parts;
        ChecksumBijection(receipt.checksum, PartsOf(db, s)[receipt.number - 1].sha256);
      }
    }
  }

  // ----------------------------------------------------------------- evidence

  /** The provider's word on a part is what the plan and the receipt say. */
  predicate Confirms(part: PartRow, seen: Observation) {
    && seen.size == part.size && seen.checksum == ChecksumBase64(part.sha256)
    && part.responseEtag == Some(seen.etag) && part.responseChecksum == Some(seen.checksum)
  }

  /** The first thing that does not fit. */
  function Diagnosis(part: PartRow, seen: Observation): string {
    if seen.size != part.size then "PART_SIZE_MISMATCH"
    else if seen.checksum != ChecksumBase64(part.sha256) then "PART_CHECKSUM_REJECTED"
    else if part.responseEtag.None? || part.responseChecksum.None? then "PART_RECEIPT_MISSING"
    else "PART_RECEIPT_MISMATCH"
  }

  /** A part the provider lists: VERIFIED if it fits, with the instant of its
      verification, and PENDING with a diagnosis if not. */
  predicate Listed(part: PartRow, seen: Observation, now: int, verifiedAt: Option<int>, after: PartRow) {
    after == part.(
      state := if Confirms(part, seen) then PartVerified else PartPending,
      listedEtag := Some(seen.etag), listedSize := Some(seen.size), listedAt := Some(now),
      listedChecksum := if seen.checksum == ChecksumBase64(part.sha256) then Some(seen.checksum) else None,
      verifiedAt := if Confirms(part, seen) then verifiedAt else None,
      lastError := if Confirms(part, seen) then None else Some(Diagnosis(part, seen)))
  }

  /** A part the provider does not list. */
  predicate Missing(part: PartRow, after: PartRow) {
    after == part.(
      state := PartPending, listedEtag := None, listedChecksum := None, listedSize := None, listedAt := None,
      verifiedAt := None, lastError := Some("PART_NOT_PRESENT"))
  }

  /** The stamp a reconciliation gives a part that fits: a verified part keeps its own. */
  function Stamp(part: PartRow, now: int): Option<int> {
    if part.state == PartVerified then part.verifiedAt else Some(now)
  }

  predicate Unlisted(observations: seq<Observation>, number: int) {
    forall k :: 0 <= k < |observations| ==> observations[k].number != number
  }

  /** Every row is judged by the observation of its number. */
  ghost predicate Judged(parts: seq<PartRow>, observations: seq<Observation>, now: int, stamps: seq<Option<int>>, rows: seq<PartRow>)
    requires |stamps| == |parts|
  {
    |rows| == |parts| && forall i :: 0 <= i < |parts| ==>
      if Unlisted(observations, parts[i].number) then Missing(parts[i], rows[i])
      else exists k ::
        0 <= k < |observations| && observations[k].number == parts[i].number && Listed(parts[i], observations[k], now, stamps[i], rows[i])
  }

  function Stamps(parts: seq<PartRow>, now: int): seq<Option<int>> {
    seq(|parts|, i requires 0 <= i < |parts| => Stamp(parts[i], now))
  }

  /** The sizes of the parts that were not verified and now are, among the first `n`. */
  ghost function Verifies(parts: seq<PartRow>, rows: seq<PartRow>, n: nat): map<int, int>
    requires n <= |parts| == |rows|
  {
    map i | 0 <= i < n && parts[i].state != PartVerified && rows[i].state == PartVerified :: parts[i].size
  }

  lemma {:induction false} FindsObservation(observations: seq<Observation>, number: int)
    ensures var found := ObservationFor(observations, number);
      if found.None? then Unlisted(observations, number)
      else exists k :: 0 <= k < |observations| && observations[k].number == number && observations[k] == found.value
  {
    var n := |observations|;
    if n > 0 && observations[n - 1].number != number {
      FindsObservation(observations[..n - 1], number);
      if ObservationFor(observations, number).Some? {
        var k :| 0 <= k < n - 1 && observations[..n - 1][k].number == number
          && observations[..n - 1][k] == ObservationFor(observations, number).value;
        assert observations[k].number == number;
      }
    }
  }

  lemma RowIsJudged(part: PartRow, observation: Option<Observation>, now: int)
    ensures observation.None? ==> Missing(part, Reconciled(part, observation, now)) && Missing(part, Recheck(part, observation, now))
    ensures observation.Some? ==>
      && Listed(part, observation.value, now, Stamp(part, now), Reconciled(part, observation, now))
      && Listed(part, observation.value, now, Some(now), Recheck(part, observation, now))
  {
    hide ChecksumBase64;
  }

  lemma ReconciliationJudges(parts: seq<PartRow>, observations: seq<Observation>, now: int)
    ensures Judged(parts, observations, now, Stamps(parts, now), ReconcileAll(parts, observations, now))
    ensures Judged(parts, observations, now, seq(|parts|, _ => Some(now)), RecheckAll(parts, observations, now))
  {
    hide Reconciled, Recheck, Listed, Missing, ObservationFor, Unlisted, Stamp;
    forall i | 0 <= i < |parts|
      ensures var found, row, again := ObservationFor(observations, parts[i].number), ReconcileAll(parts, observations, now)[i],
          RecheckAll(parts, observations, now)[i];
        if Unlisted(observations, parts[i].number) then Missing(parts[i], row) && Missing(parts[i], again)
        else exists k ::
          0 <= k < |observations| && observations[k].number == parts[i].number
          && Listed(parts[i], observations[k], now, Stamp(parts[i], now), row) && Listed(parts[i], observations[k], now, Some(now), again)
    {
      FindsObservation(observations, parts[i].number);
      RowIsJudged(parts[i], ObservationFor(observations, parts[i].number), now);
      if ObservationFor(observations, parts[i].number).Some? {
        SomeListed(observations, parts[i].number);
      }
    }
  }

  lemma SomeListed(observations: seq<Observation>, number: int)
    requires ObservationFor(observations, number).Some?
    ensures !Unlisted(observations, number)
  {
    FindsObservation(observations, number);
  }

  lemma VerifiesStep(parts: seq<PartRow>, rows: seq<PartRow>, n: nat)
    requires n < |parts| == |rows|
    ensures var before := Verifies(parts, rows, n);
      && n !in before
      && Verifies(parts, rows, n + 1) ==
           if parts[n].state != PartVerified && rows[n].state == PartVerified then before[n := parts[n].size] else before
  {
  }

  lemma {:induction false} AnswerCounts(parts: seq<PartRow>, observations: seq<Observation>, rows: seq<PartRow>, n: nat)
    requires n <= |parts| && Y.Projected(parts, observations, rows)
    ensures Resolved(parts[..n], observations) == Multipart.Reconciliation(|Verifies(parts, rows, n)|, Total(Verifies(parts, rows, n)))
  {
    hide Agrees, ObservationFor, Verifies;
    if n == 0 {
      NothingVerified(parts, rows);
    } else {
      AnswerCounts(parts, observations, rows, n - 1);
      assert parts[..n][..n - 1] == parts[..n - 1];
      VerifiesStep(parts, rows, n - 1);
      assert Y.AgreesAt(parts, observations, n - 1) == (rows[n - 1].state == PartVerified);
      if parts[n - 1].state != PartVerified && rows[n - 1].state == PartVerified {
        TotalGrows(Verifies(parts, rows, n - 1), n - 1, parts[n - 1].size);
      }
    }
  }

  lemma NothingVerified(parts: seq<PartRow>, rows: seq<PartRow>)
    requires |parts| == |rows|
    ensures Verifies(parts, rows, 0) == map[]
  {
  }

  // ----------------------------------------------------------- reconciliation

  predicate Malformed(seen: Observation) {
    seen.number <= 0 || seen.size <= 0 || seen.etag == ""
  }

  predicate Unreadable(seen: Observation) {
    Malformed(seen) || ChecksumToDigest(seen.checksum).None?
  }

  /** Observation `i` is the first that no record can be made of. */
  predicate FirstUnreadable(observations: seq<Observation>, i: nat) {
    && i < |observations| && Unreadable(observations[i])
    && forall j :: 0 <= j < i ==> !Unreadable(observations[j])
  }

  predicate SomeUnreadable(observations: seq<Observation>) {
    exists i :: 0 <= i < |observations| && Unreadable(observations[i])
  }

  predicate Repeats(observations: seq<Observation>) {
    exists i, j :: 0 <= i < j < |observations| && observations[i].number == observations[j].number
  }

  predicate Beyond(observations: seq<Observation>, count: int) {
    exists i :: 0 <= i < |observations| && observations[i].number > count
  }

  /** What ill-formed observations raise. */
  ghost predicate Rejects(observations: seq<Observation>, error: Error) {
    if SomeUnreadable(observations) then
      exists i: nat :: FirstUnreadable(observations, i) && error == if Malformed(observations[i]) then ContentConflict else ChecksumRejected
    else Repeats(observations) && error == ContentConflict
  }

  lemma {:induction false} ChecksObservations(observations: seq<Observation>)
    ensures CheckObservations(observations).Fail? <==> SomeUnreadable(observations)
    ensures CheckObservations(observations).Fail? ==> Rejects(observations, CheckObservations(observations).error)
  {
    hide Unreadable, CheckObservation;
    if |observations| > 0 {
      var earlier, last := observations[..|observations| - 1], observations[|observations| - 1];
      ChecksObservations(earlier);
      LastChecked(last);
      hide SomeUnreadable, Rejects;
      LastUnreadable(earlier, last);
      assert earlier + [last] == observations;
    }
  }

  lemma LastUnreadable(earlier: seq<Observation>, last: Observation)
    ensures SomeUnreadable(earlier + [last]) <==> SomeUnreadable(earlier) || Unreadable(last)
    ensures forall error :: SomeUnreadable(earlier) && Rejects(earlier, error) ==> Rejects(earlier + [last], error)
    ensures !SomeUnreadable(earlier) && Unreadable(last) ==>
      Rejects(earlier + [last], if Malformed(last) then ContentConflict else ChecksumRejected)
  {
    hide Unreadable, Malformed;
    var all := earlier + [last];
    assert all[|earlier|] == last && forall i :: 0 <= i < |earlier| ==> all[i] == earlier[i];
    if SomeUnreadable(earlier) {
      forall error | Rejects(earlier, error)
        ensures Rejects(all, error)
      {
        var i: nat :| FirstUnreadable(earlier, i) && error == if Malformed(earlier[i]) then ContentConflict else ChecksumRejected;
        assert FirstUnreadable(all, i);
      }
    } else if Unreadable(last) {
      assert FirstUnreadable(all, |earlier|);
    }
  }

  lemma LastChecked(seen: Observation)
    ensures CheckObservation(seen).Fail? <==> Unreadable(seen)
    ensures CheckObservation(seen).Fail? ==> CheckObservation(seen).error == if Malformed(seen) then ContentConflict else ChecksumRejected
  {
  }

  /** A reconciliation commits exactly when its observations are readable, of
      distinct planned parts, and the session is uploading under the presented
      lease; every part row is then judged, and the answer counts what that
      verified. */
  lemma ReconcileDecides(db: Db, s: Id, owner: Id, epoch: int, observations: seq<Observation>, at: Instants,
                         result: Result<Done<Multipart.Reconciliation>, Error>)
    requires Inv(db) && ValidInstants(db, at) && result == Reconcile(db, s, owner, epoch, observations, at)
    ensures result.Ok? <==>
      && !SomeUnreadable(observations) && !Repeats(observations)
      && InState(db, s, InProgress) && OwnsUpload(db, s, owner, epoch, at.now) && !Beyond(observations, |PartsOf(db, s)|)
    ensures result.Ok? ==>
      && s in db.parts && s in result.value.db.parts
      && var parts, rows := db.parts[s], result.value.db.parts[s];
      && Judged(parts, observations, at.flush, Stamps(parts, at.flush), rows)
      && result.value.db == db.(
           clock := at.commit, parts := db.parts[s := rows],
           sessions := db.sessions[s := db.sessions[s].(reconciledAt := Some(at.flush), lastActivityAt := at.flush)])
      && result.value.value == Multipart.Reconciliation(|Verifies(parts, rows, |parts|)|, Total(Verifies(parts, rows, |parts|)))
    ensures SomeUnreadable(observations) || Repeats(observations) ==> result.Err? && Rejects(observations, result.error)
    ensures result.Err? && !SomeUnreadable(observations) && !Repeats(observations) ==>
      result.error == if InState(db, s, InProgress) && OwnsUpload(db, s, owner, epoch, at.now) then InvalidPartNumber else LeaseLost
  {
    hide Inv, Advances, SessionUpdateAllowed, PartsUpdateAllowed, Commit, CheckObservations, ObserveAll, ReconcileAll, Resolved;
    hide Judged, Verifies, Stamps, SomeUnreadable;
    U.ReconcileSafe(db, s, owner, epoch, observations, at);
    ChecksObservations(observations);
    var parts := PartsOf(db, s);
    var rows := ReconcileAll(parts, observations, at.flush);
    ReconciliationJudges(parts, observations, at.flush);
    Y.ReconcileProjects(parts, observations, at.flush);
    AnswerCounts(parts, observations, rows, |parts|);
    assert parts[..|parts|] == parts;
    if !SomeUnreadable(observations) {
      PositiveNumbers(observations);
    }
  }

  lemma PositiveNumbers(observations: seq<Observation>)
    requires !SomeUnreadable(observations)
    ensures forall i :: 0 <= i < |observations| ==> observations[i].number >= 1
  {
  }
}
