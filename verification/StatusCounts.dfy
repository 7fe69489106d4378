/** What status counts, for every stored Version, finished or not. */
module StatusCounts {
  import opened Base
  import opened Guards
  import opened Invariant
  import opened Publication
  import opened Registry
  import opened Rows
  import opened SingleSafety
  import opened Weights

  predicate Ready(blobs: map<Id, BlobRow>, b: Id) {
    b in blobs && blobs[b].state == BlobAvailable
  }

  predicate UsedBelow(entries: seq<EntryRow>, n: nat, b: Id)
    requires n <= |entries|
  {
    exists k :: 0 <= k < n && entries[k].blobId == b
  }

  /** The sizes of the files whose Blob is AVAILABLE, by ordinal, below `n`. */
  ghost function ReadyFiles(blobs: map<Id, BlobRow>, entries: seq<EntryRow>, n: nat): map<int, int>
    requires n <= |entries|
  {
    map k | 0 <= k < n && Ready(blobs, entries[k].blobId) :: blobs[entries[k].blobId].size
  }

  /** The sizes of the AVAILABLE Blobs they use, each once. */
  ghost function ReadyBlobs(blobs: map<Id, BlobRow>, entries: seq<EntryRow>, n: nat): map<Id, int>
    requires n <= |entries|
  {
    map b | b in blobs && Ready(blobs, b) && UsedBelow(entries, n, b) :: blobs[b].size
  }

  lemma FilesStep(blobs: map<Id, BlobRow>, entries: seq<EntryRow>, n: nat)
    requires n < |entries|
    ensures var b, before := entries[n].blobId, ReadyFiles(blobs, entries, n);
      && n !in before
      && ReadyFiles(blobs, entries, n + 1) == if Ready(blobs, b) then before[n := blobs[b].size] else before
  {
  }

  lemma BlobsStep(blobs: map<Id, BlobRow>, entries: seq<EntryRow>, n: nat)
    requires n < |entries|
    ensures var b, before := entries[n].blobId, ReadyBlobs(blobs, entries, n);
      ReadyBlobs(blobs, entries, n + 1) == if Ready(blobs, b) && b !in before then before[b := blobs[b].size] else before
  {
    forall b
      ensures UsedBelow(entries, n + 1, b) <==> UsedBelow(entries, n, b) || b == entries[n].blobId
    {
    }
  }

  lemma {:induction false} CountsFiles(db: Db, entries: seq<EntryRow>, n: nat)
    requires n <= |entries|
    ensures var ready := AvailableEntries(db, entries[..n]);
      |ready| == |ReadyFiles(db.blobs, entries, n)| && LogicalBytes(db.blobs, ready) == Total(ReadyFiles(db.blobs, entries, n))
  {
    if n > 0 {
      CountsFiles(db, entries, n - 1);
      assert entries[..n][..n - 1] == entries[..n - 1];
      FilesStep(db.blobs, entries, n - 1);
      var b, before := entries[n - 1].blobId, AvailableEntries(db, entries[..n - 1]);
      if Ready(db.blobs, b) {
        TotalGrows(ReadyFiles(db.blobs, entries, n - 1), n - 1, db.blobs[b].size);
        assert (before + [entries[n - 1]])[..|before|] == before;
      }
    }
  }

  lemma DistinctStep(blobs: map<Id, BlobRow>, before: seq<EntryRow>, entry: EntryRow)
    ensures var ids, b := DistinctBlobs(before), entry.blobId;
      && DistinctBlobs(before + [entry]) == (if b in ids then ids else ids + [b])
      && (b in blobs ==> SumBlobSizes(blobs, ids + [b]) == SumBlobSizes(blobs, ids) + blobs[b].size)
  {
    var ids := DistinctBlobs(before);
    assert (before + [entry])[..|before|] == before && (ids + [entry.blobId])[..|ids|] == ids;
  }

  /** `ids` lists the Blobs of the map, each once. */
  ghost predicate Enumerates(blobs: map<Id, BlobRow>, ids: seq<Id>, ready: map<Id, int>) {
    && (forall b :: b in ids <==> b in ready)
    && |ids| == |ready| && SumBlobSizes(blobs, ids) == Total(ready)
  }

  lemma EnumeratesOneMore(blobs: map<Id, BlobRow>, ids: seq<Id>, ready: map<Id, int>, b: Id)
    requires Enumerates(blobs, ids, ready) && b in blobs && b !in ids
    requires SumBlobSizes(blobs, ids + [b]) == SumBlobSizes(blobs, ids) + blobs[b].size
    ensures Enumerates(blobs, ids + [b], ready[b := blobs[b].size])
  {
    hide SumBlobSizes, Total;
    TotalGrows(ready, b, blobs[b].size);
  }

  lemma {:induction false} CountsBlobs(db: Db, entries: seq<EntryRow>, n: nat)
    requires n <= |entries|
    ensures Enumerates(db.blobs, DistinctBlobs(AvailableEntries(db, entries[..n])), ReadyBlobs(db.blobs, entries, n))
  {
    if n > 0 {
      CountsBlobs(db, entries, n - 1);
      assert entries[..n][..n - 1] == entries[..n - 1];
      var b, before := entries[n - 1].blobId, AvailableEntries(db, entries[..n - 1]);
      var ids, ready := DistinctBlobs(before), ReadyBlobs(db.blobs, entries, n - 1);
      hide ReadyBlobs, DistinctBlobs, SumBlobSizes, Total;
      assert b in ids <==> b in ready;
      BlobsStep(db.blobs, entries, n - 1);
      AvailableStep(db, entries[..n]);
      DistinctStep(db.blobs, before, entries[n - 1]);
      hide Enumerates, AvailableEntries;
      if Ready(db.blobs, b) {
        if b !in ids {
          EnumeratesOneMore(db.blobs, ids, ready, b);
        }
      } else {
        assert before + [] == before;
      }
    }
  }

  predicate Blocks(db: Db, entries: seq<EntryRow>, k: int, failure: Failure) {
    0 <= k < |entries| && entries[k].blobId in db.blobs && db.blobs[entries[k].blobId].failure == Some(failure)
  }

  lemma {:induction false} BlockingIsFailure(db: Db, entries: seq<EntryRow>)
    ensures var found := BlockingFailure(db, entries);
      if found.Some? then exists k :: Blocks(db, entries, k, found.value) else forall k, failure :: !Blocks(db, entries, k, failure)
  {
    if |entries| > 0 {
      BlockingIsFailure(db, entries[1..]);
      if entries[0].blobId in db.blobs && db.blobs[entries[0].blobId].failure.Some? {
        var first := 0;
        assert Blocks(db, entries, first, db.blobs[entries[0].blobId].failure.value);
      } else if BlockingFailure(db, entries[1..]).Some? {
        var failure := BlockingFailure(db, entries[1..]).value;
        var k :| Blocks(db, entries[1..], k, failure);
        assert Blocks(db, entries, k + 1, failure);
      } else {
        forall k, failure
          ensures !Blocks(db, entries, k, failure)
        {
          assert k > 0 ==> !Blocks(db, entries[1..], k - 1, failure);
        }
      }
    }
  }

  /** Status names a failure exactly when a Blob of the Version has one, and then
      one of theirs. */
  lemma StatusNamesFailure(db: Db, v: Id)
    requires Inv(db) && v in db.versions
    ensures v in db.entries && GetStatus(db, v).Ok?
    ensures var entries, named := db.entries[v], GetStatus(db, v).value.blocking;
      if named.Some? then exists k :: Blocks(db, entries, k, named.value) else forall k, failure :: !Blocks(db, entries, k, failure)
  {
    hide Inv, WithinTotals, Blocks, BlockingFailure;
    StatusIsExact(db, v);
    VersionFacts(db, v);
    BlockingIsFailure(db, db.entries[v]);
  }

  /** Status counts the files whose Blob is AVAILABLE and the AVAILABLE Blobs they
      use, and adds up their sizes, at every stage of an upload. */
  lemma StatusIsCount(db: Db, v: Id)
    requires Inv(db) && v in db.versions
    ensures v in db.entries && GetStatus(db, v).Ok? && GetStatus(db, v).value.version == db.versions[v]
    ensures var entries, progress := db.entries[v], GetStatus(db, v).value.progress;
      var files, blobs := ReadyFiles(db.blobs, entries, |entries|), ReadyBlobs(db.blobs, entries, |entries|);
      && progress.fileCount == |files| && progress.logicalBytes == Total(files)
      && progress.blobCount == |blobs| && progress.blobBytes == Total(blobs)
  {
    hide Inv, ReadyFiles, ReadyBlobs, AvailableEntries, DistinctBlobs, LogicalBytes, SumBlobSizes, WithinTotals;
    StatusIsExact(db, v);
    VersionFacts(db, v);
    var entries := db.entries[v];
    assert entries[..|entries|] == entries;
    CountsFiles(db, entries, |entries|);
    CountsBlobs(db, entries, |entries|);
  }
}
