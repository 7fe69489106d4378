/** Part rows under receipts, reconciliation and recheck: every write passes the
    row guard, and what results is sound. */
module PartSafety {
  import opened Base
  import opened Base64
  import opened Digest
  import opened Guards
  import opened History
  import opened Invariant
  import opened Multipart
  import opened Rows

  /** The checksum of a digest has the shape the check constraint demands. */
  lemma ChecksumHasShape(digest: string)
    requires IsDigest(digest)
    ensures ChecksumShape(ChecksumBase64(digest))
  {
    EncodeShape(FromHex(digest));
  }

  /** The parent rows whose parts may still be written. */
  predicate Writable(parent: SessionRow) {
    parent.strategy == Multipart && !Terminal(parent.state)
  }

  lemma RecordedPart(parent: SessionRow, part: PartRow, receipt: Receipt, clock: int)
    requires Writable(parent) && PartSound(part) && !HasReceiptField(part) && receipt.etag != ""
    requires receipt.checksum == ChecksumBase64(part.sha256)
    ensures var next := Uploaded(part, receipt, clock);
      PartUpdateAllowed(parent, part, next) && PartSound(next) && PartKeeps(part, next) && next.state == PartUploaded
  {
    ChecksumHasShape(part.sha256);
    hide ChecksumShape, ChecksumBase64, IsDigest;
  }

  /** The first flush of a reconciliation or recheck is accepted. */
  lemma ObservingAllowed(parent: SessionRow, part: PartRow, observation: Option<Observation>, clock: int)
    requires Writable(parent) && parent.reconciledAt.Some? && PartSound(part)
    ensures PartUpdateAllowed(parent, part, Observing(part, observation, clock))
  {
    ChecksumHasShape(part.sha256);
    hide ChecksumShape, ChecksumBase64, IsDigest;
  }

  lemma ReconcilingAllowed(parent: SessionRow, part: PartRow, observation: Option<Observation>, clock: int)
    requires Writable(parent) && parent.reconciledAt.Some? && PartSound(part)
    ensures var mid, next := Observing(part, observation, clock), Reconciled(part, observation, clock);
      next == mid || PartUpdateAllowed(parent, mid, next)
  {
    ChecksumHasShape(part.sha256);
    hide ChecksumShape, ChecksumBase64, IsDigest;
  }

  lemma RecheckAllowed(parent: SessionRow, part: PartRow, observation: Option<Observation>, clock: int)
    requires Writable(parent) && parent.reconciledAt.Some? && PartSound(part)
    ensures var mid, next := Observing(part, observation, clock), Recheck(part, observation, clock);
      next == mid || PartUpdateAllowed(parent, mid, next)
  {
    ChecksumHasShape(part.sha256);
    hide ChecksumShape, ChecksumBase64, IsDigest;
  }

  lemma ReconciledSound(part: PartRow, observation: Option<Observation>, clock: int)
    requires PartSound(part)
    ensures PartSound(Reconciled(part, observation, clock)) && PartKeeps(part, Reconciled(part, observation, clock))
    ensures PartSound(Recheck(part, observation, clock)) && PartKeeps(part, Recheck(part, observation, clock))
  {
    hide ChecksumShape, ChecksumBase64, IsDigest;
  }

  /** A stored receipt agrees with an observation exactly when the four facts
      agree: etag, listed checksum, expected checksum and planned size. */
  lemma AgreesExactly(part: PartRow, seen: Observation)
    ensures Agrees(part, Some(seen)) <==>
      && seen.size == part.size
      && seen.checksum == ChecksumBase64(part.sha256)
      && part.responseEtag == Some(seen.etag)
      && part.responseChecksum == Some(seen.checksum)
  {
  }

  // ------------------------------------------------------------- all the parts

  lemma ReconciledParts(parent: SessionRow, parts: seq<PartRow>, observations: seq<Observation>, clock: int)
    requires Writable(parent) && parent.reconciledAt.Some? && PartsSound(parts)
    ensures var mid, rows := ObserveAll(parts, observations, clock), ReconcileAll(parts, observations, clock);
      && PartsUpdateAllowed(parent, parts, mid) && PartsUpdateAllowed(parent, mid, rows)
      && PartsSound(rows) && PartsKeep(parts, rows)
  {
    hide PartSound, PartUpdateAllowed, Observing, Reconciled, PartKeeps, ObservationFor, Writable;
    forall i | 0 <= i < |parts|
      ensures PartUpdateAllowed(parent, parts[i], ObserveAll(parts, observations, clock)[i])
      ensures ReconcileAll(parts, observations, clock)[i] == ObserveAll(parts, observations, clock)[i]
        || PartUpdateAllowed(parent, ObserveAll(parts, observations, clock)[i], ReconcileAll(parts, observations, clock)[i])
      ensures PartSound(ReconcileAll(parts, observations, clock)[i])
      ensures PartKeeps(parts[i], ReconcileAll(parts, observations, clock)[i])
    {
      var observation := ObservationFor(observations, parts[i].number);
      ObservingAllowed(parent, parts[i], observation, clock);
      ReconcilingAllowed(parent, parts[i], observation, clock);
      ReconciledSound(parts[i], observation, clock);
    }
  }

  lemma RecheckedParts(parent: SessionRow, parts: seq<PartRow>, observations: seq<Observation>, clock: int)
    requires Writable(parent) && parent.reconciledAt.Some? && PartsSound(parts)
    ensures var mid, rows := ObserveAll(parts, observations, clock), RecheckAll(parts, observations, clock);
      && PartsUpdateAllowed(parent, parts, mid) && PartsUpdateAllowed(parent, mid, rows)
      && PartsSound(rows) && PartsKeep(parts, rows)
  {
    hide PartSound, PartUpdateAllowed, Observing, Recheck, PartKeeps, ObservationFor, Writable;
    forall i | 0 <= i < |parts|
      ensures PartUpdateAllowed(parent, parts[i], ObserveAll(parts, observations, clock)[i])
      ensures RecheckAll(parts, observations, clock)[i] == ObserveAll(parts, observations, clock)[i]
        || PartUpdateAllowed(parent, ObserveAll(parts, observations, clock)[i], RecheckAll(parts, observations, clock)[i])
      ensures PartSound(RecheckAll(parts, observations, clock)[i])
      ensures PartKeeps(parts[i], RecheckAll(parts, observations, clock)[i])
    {
      var observation := ObservationFor(observations, parts[i].number);
      ObservingAllowed(parent, parts[i], observation, clock);
      RecheckAllowed(parent, parts[i], observation, clock);
      ReconciledSound(parts[i], observation, clock);
    }
  }
}
