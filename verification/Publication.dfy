/** What READY means, and what status reports. */
module Publication {
  import opened Base
  import opened Digest
  import opened Flush
  import opened Guards
  import opened History
  import opened Invariant
  import opened Registry
  import opened RegisterSafety
  import opened Rows
  import opened SingleSafety

  // --------------------------------------------------------------------- READY

  /** Entry `k` of the Version is line `k` of its manifest, through the Blob. */
  lemma DownloadEntryIsLine(db: Db, v: Id, k: nat)
    requires Inv(db) && v in db.versions
    ensures GetDownloadEntry(db, v, k) ==
      if k < |db.versions[v].manifest| then Some(db.versions[v].manifest[k]) else None
  {
    hide Inv, SoundLines, Recount, ManifestTotals, AllAvailable;
    VersionOf(db, v);
    if k < |db.versions[v].manifest| {
      assert EntryMatches(db.blobs, db.entries[v][k], db.versions[v].manifest[k]);
    }
  }

  /** Every Blob a READY Version references is AVAILABLE, and has the digest and
      size the manifest line names. */
  lemma ReadyIsHonest(db: Db, v: Id, k: nat)
    requires Inv(db) && v in db.versions && db.versions[v].state == Ready && k < |db.versions[v].manifest|
    ensures v in db.entries && k < |db.entries[v]|
    ensures var b, line := db.entries[v][k].blobId, db.versions[v].manifest[k];
      b in db.blobs && db.blobs[b].state == BlobAvailable && db.blobs[b].sha256 == line.sha256 && db.blobs[b].size == line.size
  {
    hide Inv, SoundLines, Recount, ManifestTotals;
    VersionOf(db, v);
    assert EntryMatches(db.blobs, db.entries[v][k], db.versions[v].manifest[k]);
  }

  /** Published content never changes again. */
  lemma PublishedIsFinal(db: Db, after: Db, v: Id, b: Id)
    requires Advances(db, after)
    ensures v in db.versions && db.versions[v].state == Ready ==> v in after.versions && after.versions[v] == db.versions[v]
    ensures v in db.versions && v in db.entries ==> v in after.entries && after.entries[v] == db.entries[v]
    ensures b in db.blobs && db.blobs[b].state == BlobAvailable ==> b in after.blobs && after.blobs[b] == db.blobs[b]
  {
    hide SessionsAdvance, LeasesAdvance, BindingsPersist;
  }

  // -------------------------------------------------------------------- totals

  /** Stored totals equal a recount over entries and distinct Blobs, and the
      totals of the manifest. */
  lemma StoredTotalsAreRecounts(db: Db, v: Id)
    requires Inv(db) && v in db.versions
    ensures db.versions[v].totals == Recount(db.blobs, EntriesOf(db, v)) == ManifestTotals(db.versions[v].manifest)
  {
    hide Inv, SoundLines, Recount, ManifestTotals, AllAvailable, EntriesMatch;
    VersionOf(db, v);
  }

  // -------------------------------------------------------------------- status

  predicate IsAvailable(db: Db, b: Id) {
    b in db.blobs && db.blobs[b].state == BlobAvailable
  }

  function AvailableOnly(db: Db, ids: seq<Id>): seq<Id> {
    if |ids| == 0 then []
    else
      var before := AvailableOnly(db, ids[..|ids| - 1]);
      if IsAvailable(db, ids[|ids| - 1]) then before + [ids[|ids| - 1]] else before
  }

  lemma {:induction false} AvailableOnlyHas(db: Db, ids: seq<Id>, b: Id)
    ensures b in AvailableOnly(db, ids) <==> b in ids && IsAvailable(db, b)
  {
    if |ids| > 0 {
      AvailableOnlyHas(db, ids[..|ids| - 1], b);
      assert ids == ids[..|ids| - 1] + [ids[|ids| - 1]];
    }
  }

  lemma AvailableOnlyAppend(db: Db, ids: seq<Id>, b: Id)
    ensures AvailableOnly(db, ids + [b]) == AvailableOnly(db, ids) + if IsAvailable(db, b) then [b] else []
  {
    assert (ids + [b])[..|ids|] == ids;
  }

  /** Keeping available entries and taking distinct Blobs commute. */
  lemma {:induction false} DistinctCommutes(db: Db, entries: seq<EntryRow>)
    ensures DistinctBlobs(AvailableEntries(db, entries)) == AvailableOnly(db, DistinctBlobs(entries))
  {
    if |entries| > 0 {
      var n := |entries| - 1;
      var b, before := entries[n].blobId, AvailableEntries(db, entries[..n]);
      DistinctCommutes(db, entries[..n]);
      AvailableOnlyHas(db, DistinctBlobs(entries[..n]), b);
      AvailableOnlyAppend(db, DistinctBlobs(entries[..n]), b);
      assert (before + [entries[n]])[..|before|] == before;
    }
  }

  lemma {:induction false} AvailableSums(db: Db, ids: seq<Id>)
    requires forall b :: b in db.blobs ==> db.blobs[b].size >= 0
    ensures 0 <= |AvailableOnly(db, ids)| <= |ids|
    ensures 0 <= SumBlobSizes(db.blobs, AvailableOnly(db, ids)) <= SumBlobSizes(db.blobs, ids)
  {
    if |ids| > 0 {
      AvailableSums(db, ids[..|ids| - 1]);
      var before := AvailableOnly(db, ids[..|ids| - 1]);
      assert (before + [ids[|ids| - 1]])[..|before|] == before;
    }
  }

  lemma AvailableStep(db: Db, entries: seq<EntryRow>)
    requires |entries| > 0
    ensures var n := |entries| - 1;
      AvailableEntries(db, entries) == AvailableEntries(db, entries[..n]) + if IsAvailable(db, entries[n].blobId) then [entries[n]] else []
  {
    var before := AvailableEntries(db, entries[..|entries| - 1]);
    assert before + [] == before;
  }

  lemma AllAvailableStep(db: Db, entries: seq<EntryRow>)
    requires |entries| > 0
    ensures AllAvailable(db, entries) <==> AllAvailable(db, entries[..|entries| - 1]) && IsAvailable(db, entries[|entries| - 1].blobId)
  {
    var first, last := entries[..|entries| - 1], entries[|entries| - 1];
    if AllAvailable(db, first) && IsAvailable(db, last.blobId) {
      forall i | 0 <= i < |entries|
        ensures IsAvailable(db, entries[i].blobId)
      {
        assert i < |first| ==> first[i] == entries[i];
      }
    }
  }

  lemma {:induction false} AvailableEntryCount(db: Db, entries: seq<EntryRow>)
    ensures 0 <= |AvailableEntries(db, entries)| <= |entries|
    ensures |AvailableEntries(db, entries)| == |entries| <==> AllAvailable(db, entries)
    ensures AllAvailable(db, entries) ==> AvailableEntries(db, entries) == entries
  {
    if |entries| > 0 {
      hide AvailableEntries, AllAvailable;
      AvailableEntryCount(db, entries[..|entries| - 1]);
      AvailableStep(db, entries);
      AllAvailableStep(db, entries);
      assert entries == entries[..|entries| - 1] + [entries[|entries| - 1]];
    }
  }

  lemma {:induction false} AvailableEntryBytes(db: Db, entries: seq<EntryRow>)
    requires forall b :: b in db.blobs ==> db.blobs[b].size >= 0
    ensures 0 <= LogicalBytes(db.blobs, AvailableEntries(db, entries)) <= LogicalBytes(db.blobs, entries)
  {
    if |entries| > 0 {
      var n := |entries| - 1;
      var before := AvailableEntries(db, entries[..n]);
      AvailableEntryBytes(db, entries[..n]);
      AvailableStep(db, entries);
      assert (before + [entries[n]])[..|before|] == before && before + [] == before;
    }
  }

  lemma SizesAreNatural(db: Db)
    requires Inv(db)
    ensures forall b :: b in db.blobs ==> db.blobs[b].size >= 0
  {
    hide SessionsOk, PairsOk, GenerationsOk, VersionsOk, BindingsOk, IsDigest;
    assert forall b :: b in db.blobs ==> BlobSound(db, b);
  }

  /** Status never fails for a stored Version: progress stays within the totals,
      and equals them exactly when every referenced Blob is AVAILABLE. */
  lemma StatusIsExact(db: Db, v: Id)
    requires Inv(db) && v in db.versions
    ensures GetStatus(db, v).Ok?
    ensures var status := GetStatus(db, v).value;
      && status.version == db.versions[v] && WithinTotals(status.progress, status.version.totals)
      && (status.progress == status.version.totals <==> AllAvailable(db, EntriesOf(db, v)))
  {
    hide Inv, ManifestTotals, LogicalBytes, DistinctBlobs, SumBlobSizes, AvailableEntries, AllAvailable;
    StoredTotalsAreRecounts(db, v);
    SizesAreNatural(db);
    var entries := EntriesOf(db, v);
    DistinctCommutes(db, entries);
    AvailableSums(db, DistinctBlobs(entries));
    AvailableEntryCount(db, entries);
    AvailableEntryBytes(db, entries);
  }

  lemma ReadyIsComplete(db: Db, v: Id)
    requires Inv(db) && v in db.versions && db.versions[v].state == Ready
    ensures GetStatus(db, v).Ok?
    ensures GetStatus(db, v).value.version == db.versions[v] && GetStatus(db, v).value.progress == db.versions[v].totals
  {
    hide Inv, GetStatus, AllAvailable;
    StatusIsExact(db, v);
    VersionFacts(db, v);
  }

  // ------------------------------------------------------------ Version numbers

  /** The numbers of a Dataset's Versions are exactly 1 to n, one Version each,
      with pairwise different manifests. */
  lemma NumbersAreConsecutive(db: Db, datasetId: Id, number: int)
    requires Inv(db)
    ensures var n := MaxVersionNumber(db, datasetId, db.nextId);
      NumberExists(db.versions, datasetId, number) <==> 1 <= number <= n
  {
    hide SessionsOk, PairsOk, GenerationsOk, BlobsOk, BindingsOk, SoundLines, EntriesMatch, Recount, ManifestTotals;
    hide AllAvailable, MaxVersionNumber;
    MaxIsNext(db, datasetId);
    if NumberExists(db.versions, datasetId, number) {
      var w :| w in db.versions && db.versions[w].datasetId == datasetId && db.versions[w].number == number;
      assert VersionSound(db, w);
    }
  }

  lemma VersionsAreDistinct(db: Db, v: Id, w: Id)
    requires Inv(db) && v in db.versions && w in db.versions && v != w
    requires db.versions[v].datasetId == db.versions[w].datasetId
    ensures db.versions[v].number != db.versions[w].number && db.versions[v].manifest != db.versions[w].manifest
  {
    hide SessionsOk, PairsOk, GenerationsOk, BlobsOk, BindingsOk, VersionSound, NumbersDense;
    assert VersionsDiffer(db.versions[v], db.versions[w]);
  }
}
