/** What a completing or completed session, and an AVAILABLE Blob, guarantee in
    every database that satisfies the invariant. */
module Coverage {
  import opened Base
  import opened Digest
  import opened Frame
  import opened Guards
  import opened Insertion
  import opened Invariant
  import opened Multipart
  import opened PartRanges
  import opened Rows
  import opened Sealing

  // ----------------------------------------------------------------- coverage

  predicate Covered(part: PartRow) {
    && part.state == PartVerified
    && part.responseEtag.Some? && part.responseEtag == part.listedEtag
    && part.responseChecksum.Some? && part.responseChecksum == part.listedChecksum
    && ChecksumToDigest(part.listedChecksum.value) == Some(part.sha256)
    && part.listedSize == Some(part.size)
  }

  /** The sizes the provider listed, absent ones counting nothing. */
  function ListedBytes(parts: seq<PartRow>): int {
    if |parts| == 0 then 0
    else
      ListedBytes(parts[..|parts| - 1]) +
      var listed := parts[|parts| - 1].listedSize;
      if listed.Some? then listed.value else 0
  }

  /** Byte `offset` of the Blob lies in part `i`. */
  predicate Holds(part: PartRow, offset: int) {
    part.offset <= offset < part.offset + part.size
  }

  lemma {:induction false} ListedIsPlanned(parts: seq<PartRow>)
    requires forall i :: 0 <= i < |parts| ==> parts[i].listedSize == Some(parts[i].size)
    ensures ListedBytes(parts) == SumSizes(RowRanges(parts))
  {
    if |parts| > 0 {
      ListedIsPlanned(parts[..|parts| - 1]);
      assert RowRanges(parts)[..|parts| - 1] == RowRanges(parts[..|parts| - 1]);
    }
  }

  lemma FrozenParts(db: Db, s: Id)
    requires Inv(db) && IsMultipart(db, s)
    ensures s in db.parts && db.sessions[s].blobId in db.blobs
    ensures PlanFrozen(db.sessions[s], db.parts[s], db.blobs[db.sessions[s].blobId].size) && PartsSound(db.parts[s])
    ensures StateSound(db.sessions[s], db.parts[s], db.blobs[db.sessions[s].blobId])
    ensures BlobFollows(db.sessions[s], db.blobs[db.sessions[s].blobId])
  {
    hide Inv, PlanFrozen, PartsSound, StateSound, BlobFollows, LeasesSound;
    SoundOf(db, s);
  }

  lemma VerifiedIsCovered(part: PartRow)
    requires PartSound(part) && part.state == PartVerified
    ensures Covered(part)
  {
    ChecksumBijection(ChecksumBase64(part.sha256), part.sha256);
    hide ChecksumToDigest, ChecksumBase64, IsDigest;
  }

  /** Coverage: whenever a multipart session is COMPLETING or COMPLETED, every
      planned part is verified against its receipt, its expected digest and its
      planned size, and the listed sizes add up to the Blob. */
  lemma CompletingIsCovered(db: Db, s: Id)
    requires Inv(db) && IsMultipart(db, s) && db.sessions[s].state in {Completing, Completed}
    ensures s in db.parts && db.sessions[s].blobId in db.blobs
    ensures forall i :: 0 <= i < |db.parts[s]| ==> Covered(db.parts[s][i])
    ensures ListedBytes(db.parts[s]) == db.blobs[db.sessions[s].blobId].size
  {
    hide Inv, PartSound, PlanFrozen, BlobFollows, Covered;
    FrozenParts(db, s);
    var parts := db.parts[s];
    assert AllVerified(parts);
    forall i | 0 <= i < |parts|
      ensures Covered(parts[i]) && parts[i].listedSize == Some(parts[i].size)
    {
      VerifiedIsCovered(parts[i]);
      CoveredSize(parts[i]);
    }
    ListedIsPlanned(parts);
    FrozenRowsAreBoundaries(db.sessions[s], parts, db.blobs[db.sessions[s].blobId].size);
  }

  lemma CoveredSize(part: PartRow)
    requires Covered(part)
    ensures part.listedSize == Some(part.size)
  {
  }

  lemma RowHoldsOnce(parts: seq<PartRow>, size: int, offset: int) returns (i: int)
    requires 0 < size <= MAX_MULTIPART_BLOB_BYTES && RowRanges(parts) == Boundaries(size) && 0 <= offset < size
    ensures 0 <= i < |parts| && forall j :: 0 <= j < |parts| ==> (Holds(parts[j], offset) <==> j == i)
  {
    assert |parts| == PartCount(size);
    i := ByteInExactlyOneRange(size, offset);
    hide PartSizeFor, Boundary, PartCount;
    forall j | 0 <= j < |parts|
      ensures Holds(parts[j], offset) <==> j == i
    {
      assert RowRanges(parts)[j] == Boundaries(size)[j];
    }
  }

  /** Every byte of the Blob lies in exactly one part, and that part is covered. */
  lemma EveryByteCoveredOnce(db: Db, s: Id, offset: int) returns (i: int)
    requires Inv(db) && IsMultipart(db, s) && db.sessions[s].state in {Completing, Completed}
    requires db.sessions[s].blobId in db.blobs && 0 <= offset < db.blobs[db.sessions[s].blobId].size
    ensures s in db.parts && 0 <= i < |db.parts[s]| && Covered(db.parts[s][i])
    ensures forall j :: 0 <= j < |db.parts[s]| ==> (Holds(db.parts[s][j], offset) <==> j == i)
  {
    hide Inv, Covered, StateSound, BlobFollows, PartsSound, PlanFrozen, Boundaries, Holds;
    CompletingIsCovered(db, s);
    FrozenParts(db, s);
    var size := db.blobs[db.sessions[s].blobId].size;
    FrozenRowsAreBoundaries(db.sessions[s], db.parts[s], size);
    i := RowHoldsOnce(db.parts[s], size, offset);
  }

  // --------------------------------------------------------- publication safety

  /** Session `c` is the one completed session of the Blob, with its evidence. */
  predicate CompletedBy(db: Db, blobId: Id, c: Id)
    requires blobId in db.blobs
  {
    && IsCompletedFor(db, c, blobId) && EvidenceMatches(db.sessions[c], db.blobs[blobId])
    && (forall s :: s in db.sessions && s != c ==> !IsCompletedFor(db, s, blobId))
    && (forall s :: s in db.sessions && db.sessions[s].blobId == blobId ==> !Active(db.sessions[s].state))
  }

  /** A Blob with multipart history is AVAILABLE exactly when one of its
      sessions, and only one, is COMPLETED with evidence equal to the Blob's
      digest and size, and no other session is unfinished. */
  lemma AvailableExactlyWhenCompleted(db: Db, blobId: Id)
    requires Inv(db) && blobId in db.blobs && HasMultipart(db, blobId)
    ensures db.blobs[blobId].state == BlobAvailable <==> exists c :: c in db.sessions && CompletedBy(db, blobId, c)
  {
    if db.blobs[blobId].state == BlobAvailable {
      AvailableHasCompletion(db, blobId);
    }
    if c: Id :| c in db.sessions && CompletedBy(db, blobId, c) {
      hide Inv;
      FrozenParts(db, c);
    }
  }

  lemma AvailableHasCompletion(db: Db, blobId: Id)
    requires Inv(db) && blobId in db.blobs && HasMultipart(db, blobId) && db.blobs[blobId].state == BlobAvailable
    ensures exists c :: c in db.sessions && CompletedBy(db, blobId, c)
  {
    hide SessionsOk, PairsOk, GenerationsOk, VersionsOk, BindingsOk;
    assert BlobSound(db, blobId);
    var c :| c in db.sessions && IsCompletedFor(db, c, blobId);
    hide Inv, BlobSound, HasCompleted, HasMultipart;
    FrozenParts(db, c);
    forall s | s in db.sessions && db.sessions[s].blobId == blobId
      ensures !Active(db.sessions[s].state) && (s != c ==> !IsCompletedFor(db, s, blobId))
    {
      if Active(db.sessions[s].state) {
        UnfinishedNotAvailable(db, s);
      }
      if s != c && IsCompletedFor(db, s, blobId) {
        FrozenParts(db, s);
        PairOf(db, s, c);
      }
    }
    assert CompletedBy(db, blobId, c);
  }

  lemma UnfinishedNotAvailable(db: Db, s: Id)
    requires Inv(db) && s in db.sessions && Active(db.sessions[s].state)
    ensures db.sessions[s].blobId in db.blobs && db.blobs[db.sessions[s].blobId].state != BlobAvailable
  {
    hide Inv, PlanFrozen, PartsSound, LeasesSound;
    SoundOf(db, s);
  }

  // --------------------------------------------------------------- generations

  /** The generations of a Blob are exactly 1 to k, each held by one session. */
  lemma GenerationsAreConsecutive(db: Db, blobId: Id, g: int)
    requires Inv(db)
    ensures var k := MaxGeneration(db, blobId, db.nextId);
      (exists s :: s in db.sessions && HasGeneration(db.sessions[s], blobId, g)) <==> 1 <= g <= k
  {
    MaxGenerationBounds(db, blobId, db.nextId);
    var k := MaxGeneration(db, blobId, db.nextId);
    if s: Id :| s in db.sessions && HasGeneration(db.sessions[s], blobId, g) {
      hide Inv;
      GenerationPositive(db, s);
    }
    if 1 <= g <= k {
      SmallerGenerationsExist(db.sessions, blobId, k, g);
    }
  }

  lemma GenerationPositive(db: Db, s: Id)
    requires Inv(db) && s in db.sessions && db.sessions[s].frozen.Some?
    ensures db.sessions[s].frozen.value.generation > 0 && s < db.nextId && db.sessions[s].strategy == Multipart
  {
    hide Inv, PartsSound, StateSound, BlobFollows, LeasesSound;
    SoundOf(db, s);
  }

  /** No generation is shared, and only the last may be unfinished. */
  lemma OnlyTheLastGenerationRuns(db: Db, s: Id, r: Id)
    requires Inv(db) && s in db.sessions && r in db.sessions && s != r && db.sessions[s].blobId == db.sessions[r].blobId
    requires db.sessions[s].frozen.Some? && db.sessions[r].frozen.Some?
    ensures db.sessions[s].frozen.value.generation != db.sessions[r].frozen.value.generation
    ensures db.sessions[s].frozen.value.generation < db.sessions[r].frozen.value.generation ==> Terminal(db.sessions[s].state)
  {
    hide Inv;
    PairOf(db, s, r);
  }

  /** A session with an admission lease is a multipart one. */
  lemma AdmittedIsMulti(db: Db, s: Id)
    requires Inv(db) && s in db.sessions && s in db.admission
    ensures IsMultipart(db, s)
  {
    hide Inv, MultipartSound, SingleSound;
    SoundOf(db, s);
  }
}
