/** What a frozen plan gives every later transaction: it seals, it reloads, and
    writes that leave the planned columns alone keep it frozen. */
module Sealing {
  import opened Base
  import opened Digest
  import opened Flush
  import opened Frame
  import opened Guards
  import opened History
  import opened Invariant
  import opened Multipart
  import opened PartRanges
  import opened Rows
  import opened SqlPlan
  import PlanCodec

  /** A sound session rebuilds exactly the plan it froze. */
  lemma PlanRebuilds(row: SessionRow, parts: seq<PartRow>, blobSize: int)
    requires PlanFrozen(row, parts, blobSize)
    ensures PlanCodec.Build(row.frozen.value.schema, blobSize, row.frozen.value.partSize, Definitions(parts))
      == Ok(FrozenPlan(row, parts, blobSize))
  {
    PlanCodec.ValidPlanSorted(FrozenPlan(row, parts, blobSize));
  }

  lemma ReceiptReads(part: PartRow)
    requires PartSound(part)
    ensures StoredReceipt(part) ==
      Ok(if part.responseEtag.Some? then Some(Receipt(part.number, part.responseEtag.value, part.responseChecksum.value)) else None)
  {
    if part.responseEtag.Some? {
      ChecksumBijection(part.responseChecksum.value, part.sha256);
      hide ChecksumToDigest, ChecksumBase64, IsDigest;
    }
  }

  /** Reading the context of a frozen session never fails, and returns the
      frozen plan. */
  lemma ContextLoads(db: Db, s: Id)
    requires s in db.sessions && db.sessions[s].blobId in db.blobs
    requires PlanFrozen(db.sessions[s], PartsOf(db, s), db.blobs[db.sessions[s].blobId].size)
    requires PartsSound(PartsOf(db, s))
    ensures var row, parts := db.sessions[s], PartsOf(db, s);
      LoadContext(db, s) ==
        Ok(Context(s, row, FrozenPlan(row, parts, db.blobs[row.blobId].size), db.blobs[row.blobId], parts))
  {
    hide PartSound, PlanCodec.Build, PlanCodec.ValidPlan, StoredReceipt;
    var row, parts := db.sessions[s], PartsOf(db, s);
    PlanRebuilds(row, parts, db.blobs[row.blobId].size);
    forall i | 0 <= i < |parts|
      ensures StoredReceipt(parts[i]).Ok?
    {
      ReceiptReads(parts[i]);
    }
  }

  /** The rows of a valid plan carry consecutive numbers. */
  lemma NumberedFromOne(row: SessionRow, parts: seq<PartRow>, blobSize: int, i: int)
    requires PlanFrozen(row, parts, blobSize) && 0 <= i < |parts|
    ensures parts[i].number == i + 1
  {
    var plan := FrozenPlan(row, parts, blobSize);
    assert StepAccepted(plan.partSize, PlanCodec.Ranges(plan.parts), i);
  }

  lemma RowRangesAreRanges(parts: seq<PartRow>)
    ensures RowRanges(parts) == PlanCodec.Ranges(Definitions(parts))
  {
  }

  /** What the rows of a frozen plan are: the generated boundaries. */
  lemma FrozenRowsAreBoundaries(row: SessionRow, parts: seq<PartRow>, blobSize: int)
    requires PlanFrozen(row, parts, blobSize)
    ensures MAX_SINGLE_PUT_BYTES < blobSize <= MAX_MULTIPART_BLOB_BYTES
    ensures RowRanges(parts) == Boundaries(blobSize)
    ensures SumSizes(RowRanges(parts)) == blobSize
  {
    var plan := FrozenPlan(row, parts, blobSize);
    var ranges := RowRanges(parts);
    RowRangesAreRanges(parts);
    forall i | 0 <= i < |ranges|
      ensures ValidRange(ranges[i])
    {
      assert PlanCodec.ValidDefinition(plan.parts[i]);
    }
    hide RangesAccepted, PartSizeFor, Boundaries;
    ValidatorIsGenerator(blobSize, ranges);
    assert RangesAccepted(blobSize, plan.partSize, ranges);
    assert SumSizes(ranges) == blobSize by {
      SumOfAccepted(blobSize, plan.partSize, ranges);
    }
  }

  lemma SumOfAccepted(blobSize: int, partSize: int, ranges: seq<Range>)
    requires RangesAccepted(blobSize, partSize, ranges)
    ensures SumSizes(ranges) == blobSize && |ranges| > 0
  {
  }

  /** The trigger accepts the stored rows of a frozen plan and their hash. */
  lemma FrozenPlanSeals(row: SessionRow, parts: seq<PartRow>, blobSize: int)
    requires PlanFrozen(row, parts, blobSize)
    ensures PlanSealed(row, parts, blobSize)
  {
    var plan, ranges := FrozenPlan(row, parts, blobSize), RowRanges(parts);
    RowRangesAreRanges(parts);
    PlanCodec.SqlTextAgrees(plan);
    FrozenRowsAreBoundaries(row, parts, blobSize);
    SumOfAccepted(blobSize, plan.partSize, ranges);
    assert |parts| == PartCount(blobSize);
    hide PlanCodec.SqlCanonicalText, PlanCodec.CanonicalText, PartCount, PartSizeFor;
    BoundariesSatisfyAggregate(blobSize);
  }

  lemma KeptDefinitions(parts: seq<PartRow>, rows: seq<PartRow>)
    requires PartsKeep(parts, rows)
    ensures Definitions(rows) == Definitions(parts) && RowRanges(rows) == RowRanges(parts)
  {
    forall i | 0 <= i < |rows|
      ensures Definitions(rows)[i] == Definitions(parts)[i]
    {
      assert PartKeeps(parts[i], rows[i]);
    }
    assert Definitions(rows) == Definitions(parts);
    forall i | 0 <= i < |rows|
      ensures RowRanges(rows)[i] == RowRanges(parts)[i]
    {
      assert PartKeeps(parts[i], rows[i]);
    }
  }

  lemma PlanStaysFrozen(row: SessionRow, parts: seq<PartRow>, next: SessionRow, rows: seq<PartRow>, blobSize: int)
    requires PlanFrozen(row, parts, blobSize) && next.frozen == row.frozen && PartsKeep(parts, rows)
    ensures PlanFrozen(next, rows, blobSize)
  {
    KeptDefinitions(parts, rows);
    hide PlanCodec.ValidPlan, PartsKeep;
  }

  lemma PartsKeepReflexive(parts: seq<PartRow>)
    ensures PartsKeep(parts, parts)
  {
  }

  // ------------------------------------------------------------------- commits

  /** The deferred check reads no clock but the commit's own. */
  lemma PublicationIgnoresClock(db: Db, b: Id, clock: int, commit: int)
    ensures PublicationConsistent(db.(clock := clock), b, commit) == PublicationConsistent(db, b, commit)
  {
    var other := db.(clock := clock);
    hide EvidenceMatches;
    assert HasMultipart(other, b) == HasMultipart(db, b);
    assert HasCompleted(other, b) == HasCompleted(db, b) by {
      assert forall s :: IsCompletedFor(other, s, b) == IsCompletedFor(db, s, b);
    }
    if b in db.blobs {
      assert HasValidCompletion(other, b) == HasValidCompletion(db, b) by {
        assert forall s :: IsCompletedFor(other, s, b) == IsCompletedFor(db, s, b);
      }
    }
    assert HasNonterminal(other, b) == HasNonterminal(db, b);
    assert forall s :: s in db.sessions ==> RetainsOwnership(other, s, b, commit) == RetainsOwnership(db, s, b, commit);
  }

  /** A sound outcome is committed. */
  lemma CommitPasses<T>(db: Db, b: Id, at: Instants, value: T)
    requires Inv(Finish(db, at, value).db)
    ensures Commit(db, b, at, value) == Ok(Finish(db, at, value))
  {
    InvPassesCommit(db.(clock := at.commit), b, at.commit);
    PublicationIgnoresClock(db, b, at.commit, at.commit);
  }
}
