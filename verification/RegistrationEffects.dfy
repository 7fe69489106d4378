/** Registration, field by field: the Version, its entries and the Blobs it adds,
    and the one thing of the registry that can stand in its way. */
module RegistrationEffects {
  import opened Base
  import opened CreationEffects
  import opened Digest
  import opened Flush
  import opened Guards
  import opened History
  import opened Insertion
  import opened Invariant
  import opened RegisterSafety
  import opened Registry
  import opened Rows
  import S = SingleSafety
  import Scenes

  /** No stored Blob of the line's digest has another size. */
  predicate Agreeing(blobs: map<Id, BlobRow>, line: ManifestLine) {
    forall b :: b in blobs && blobs[b].sha256 == line.sha256 ==> blobs[b].size == line.size
  }

  predicate AllAgreeing(blobs: map<Id, BlobRow>, lines: seq<ManifestLine>) {
    forall i :: 0 <= i < |lines| ==> Agreeing(blobs, lines[i])
  }

  predicate Uses(entries: seq<EntryRow>, b: Id) {
    exists i :: 0 <= i < |entries| && entries[i].blobId == b
  }

  /** Stored Blobs stand; the others are PENDING, and some entry needs each. */
  predicate Adds(blobs: map<Id, BlobRow>, later: map<Id, BlobRow>, entries: seq<EntryRow>) {
    && (forall b :: b in blobs ==> b in later && later[b] == blobs[b])
    && (forall b :: b in later && b !in blobs ==> NeededBlob(later[b]) && Uses(entries, b))
  }

  predicate NeededBlob(blob: BlobRow) {
    blob.state == BlobPending && blob.failure.None? && blob.verifiedAt.None?
  }

  /** Entry `i` has the path of line `i`, and its Blob the digest and size. */
  predicate Lists(blobs: map<Id, BlobRow>, entries: seq<EntryRow>, lines: seq<ManifestLine>) {
    |entries| == |lines| && forall i :: 0 <= i < |lines| ==>
      && entries[i].path == lines[i].path && entries[i].blobId in blobs
      && blobs[entries[i].blobId].sha256 == lines[i].sha256 && blobs[entries[i].blobId].size == lines[i].size
  }

  lemma LastBlob(db: Db, mid: Db, entries: seq<EntryRow>, lines: seq<ManifestLine>)
    requires Extends(db, mid) && IdsBelow(db) && SoundLines(lines) && |lines| > 0
    requires EntriesMatch(mid.blobs, entries, lines[..|lines| - 1]) && Adds(db.blobs, mid.blobs, entries)
    ensures GetOrCreateBlob(mid, lines[|lines| - 1]).Ok? <==> Agreeing(db.blobs, lines[|lines| - 1])
    ensures var blob := GetOrCreateBlob(mid, lines[|lines| - 1]);
      blob.Ok? ==> Adds(db.blobs, blob.value.db.blobs, entries + [EntryRow(lines[|lines| - 1].path, blob.value.value)])
  {
    hide IsDigest, EntriesMatch, NewBlob, Extended, Adds, SoundLines;
    var line := lines[|lines| - 1];
    LastLine(lines);
    ExtendedBelow(db, mid);
    var found := BlobBySha(mid, line.sha256, mid.nextId);
    if found.None? {
      StillAdds(db, mid, entries, line);
      MoreEntries(db.blobs, mid.blobs, entries, EntryRow(line.path, mid.nextId));
    } else {
      var b := found.value;
      MoreEntries(db.blobs, mid.blobs, entries, EntryRow(line.path, b));
      if b !in db.blobs {
        NewBlobFits(db, mid, entries, lines, b);
      }
    }
    KeptBlobs(db, mid);
  }

  lemma KeptBlobs(db: Db, mid: Db)
    requires Extends(db, mid)
    ensures forall b :: b in db.blobs ==> b in mid.blobs && mid.blobs[b] == db.blobs[b]
  {
    hide IsDigest, NewBlob;
  }

  lemma MoreEntries(blobs: map<Id, BlobRow>, later: map<Id, BlobRow>, entries: seq<EntryRow>, entry: EntryRow)
    requires Adds(blobs, later, entries)
    ensures Adds(blobs, later, entries + [entry])
  {
    var all := entries + [entry];
    forall b | b in later && b !in blobs
      ensures Uses(all, b)
    {
      var i :| 0 <= i < |entries| && entries[i].blobId == b;
      assert all[i].blobId == b;
    }
  }

  lemma StillAdds(db: Db, mid: Db, entries: seq<EntryRow>, line: ManifestLine)
    requires Adds(db.blobs, mid.blobs, entries) && mid.nextId !in mid.blobs
    ensures Adds(db.blobs, mid.blobs[mid.nextId := PendingBlob(line)], entries + [EntryRow(line.path, mid.nextId)])
  {
    var all := entries + [EntryRow(line.path, mid.nextId)];
    MoreEntries(db.blobs, mid.blobs, entries, EntryRow(line.path, mid.nextId));
    assert all[|entries|].blobId == mid.nextId && Uses(all, mid.nextId);
    hide Uses;
  }

  /** A Blob this manifest added has the size of every line of its digest. */
  lemma NewBlobFits(db: Db, mid: Db, entries: seq<EntryRow>, lines: seq<ManifestLine>, b: Id)
    requires SoundLines(lines) && |lines| > 0 && EntriesMatch(mid.blobs, entries, lines[..|lines| - 1])
    requires Adds(db.blobs, mid.blobs, entries) && b in mid.blobs && b !in db.blobs
    requires mid.blobs[b].sha256 == lines[|lines| - 1].sha256 && Extends(db, mid)
    ensures mid.blobs[b].size == lines[|lines| - 1].size && Agreeing(db.blobs, lines[|lines| - 1])
  {
    hide IsDigest, NewBlob, SoundLine;
    var i :| 0 <= i < |entries| && entries[i].blobId == b;
    assert EntryMatches(mid.blobs, entries[i], lines[..|lines| - 1][i]);
    assert lines[i].sha256 == lines[|lines| - 1].sha256;
  }

  lemma AgreeingPrefix(blobs: map<Id, BlobRow>, lines: seq<ManifestLine>)
    requires |lines| > 0
    ensures AllAgreeing(blobs, lines) <==> AllAgreeing(blobs, lines[..|lines| - 1]) && Agreeing(blobs, lines[|lines| - 1])
  {
    hide Agreeing;
  }

  /** All entries are listed exactly when no stored Blob of a digest has another
      size, and only Blobs that are needed are added. */
  lemma {:induction false} EntriesDecide(db: Db, v: Id, lines: seq<ManifestLine>)
    requires IdsBelow(db) && DistinctShas(db.blobs)
    requires v in db.versions && db.versions[v].sealedAt.None? && SoundLines(lines)
    ensures InsertEntries(db, v, lines).Ok? <==> AllAgreeing(db.blobs, lines)
    ensures InsertEntries(db, v, lines).Ok? ==>
      Adds(db.blobs, InsertEntries(db, v, lines).value.db.blobs, InsertEntries(db, v, lines).value.value)
  {
    hide IsDigest, GetOrCreateBlob, InsertEntry, SoundLines, NewBlob, EntryMatches, Agreeing, Adds, AllAgreeing;
    if |lines| == 0 {
      NothingListed(db);
    } else {
      var n := |lines| - 1;
      PrefixIsSound(lines);
      EntriesDecide(db, v, lines[..n]);
      EntriesExtend(db, v, lines[..n]);
      EntriesExtend(db, v, lines);
      AgreeingPrefix(db.blobs, lines);
      var before := InsertEntries(db, v, lines[..n]);
      if before.Ok? {
        LastBlob(db, before.value.db, before.value.value, lines);
        var blob := GetOrCreateBlob(before.value.db, lines[n]);
        if blob.Ok? {
          LastLine(lines);
          BlobExtends(db, before.value.db, lines[n]);
          LinesStillMatch(before.value.db.blobs, blob.value.db.blobs, before.value.value, lines[..n]);
          StandingBlob(blob.value.db.blobs, blob.value.value, lines[n]);
          EntryInserted(blob.value.db, v, before.value.value, lines, blob.value.value);
        }
      }
    }
  }

  lemma NothingListed(db: Db)
    ensures Adds(db.blobs, db.blobs, []) && AllAgreeing(db.blobs, [])
  {
  }

  // --------------------------------------------------------------- the Version

  /** The Version of the Dataset that has this manifest. */
  predicate Known(db: Db, datasetId: Id, lines: seq<ManifestLine>, v: Id) {
    v in db.versions && db.versions[v].datasetId == datasetId && db.versions[v].manifest == lines
  }

  /** A sealed DRAFT with the manifest's totals. */
  predicate NewVersion(row: VersionRow, datasetId: Id, lines: seq<ManifestLine>, wall: int) {
    && row.datasetId == datasetId && row.manifest == lines && row.state == Draft
    && row.totals == Totals(|lines|, SumLines(lines), |FirstUses(lines)|, SumLines(FirstUses(lines)))
    && row.failure.None? && row.sealedAt == Some(wall) && row.verifyingAt.None? && row.readyAt.None?
  }

  ghost predicate RegistrationLeaves(db: Db, datasetId: Id, lines: seq<ManifestLine>, request: Id, fingerprint: Sha, at: Instants,
                                     done: Done<Id>) {
    var v := done.value;
    && v !in db.versions && v in done.db.versions && v in done.db.entries
    && NewVersion(done.db.versions[v], datasetId, lines, at.wall) && NextNumber(db, datasetId, done.db.versions[v].number)
    && Lists(done.db.blobs, done.db.entries[v], lines) && Adds(db.blobs, done.db.blobs, done.db.entries[v])
    && done.db == db.(
         clock := at.commit, nextId := done.db.nextId, blobs := done.db.blobs, versions := db.versions[v := done.db.versions[v]],
         entries := db.entries[v := done.db.entries[v]],
         idempotency := db.idempotency[Key(RegisterScope, request) := IdempotencyRow(RegisterRequest(fingerprint), v, None)])
  }

  function KnownLeaves(db: Db, v: Id, request: Id, fingerprint: Sha, at: Instants): Db {
    db.(clock := at.commit,
        idempotency := db.idempotency[Key(RegisterScope, request) := IdempotencyRow(RegisterRequest(fingerprint), v, None)])
  }

  lemma KnownIsFound(db: Db, datasetId: Id, lines: seq<ManifestLine>)
    requires Inv(db)
    ensures var found := VersionByManifest(db, datasetId, lines, db.nextId);
      && (found.Some? ==> Known(db, datasetId, lines, found.value))
      && forall v: Id :: Known(db, datasetId, lines, v) ==> found == Some(v)
  {
    hide Inv;
    var found := VersionByManifest(db, datasetId, lines, db.nextId);
    forall v: Id | Known(db, datasetId, lines, v)
      ensures found == Some(v)
    {
      VersionIdBelow(db, v);
      OneManifest(db, v, if found.Some? then found.value else v);
    }
  }

  lemma VersionIdBelow(db: Db, v: Id)
    requires Inv(db) && v in db.versions
    ensures v < db.nextId
  {
    hide Inv, SoundLines, EntriesMatch, Recount, ManifestTotals, AllAvailable;
    S.VersionOf(db, v);
  }

  lemma OneManifest(db: Db, v: Id, w: Id)
    requires Inv(db) && v in db.versions && w in db.versions && db.versions[v].datasetId == db.versions[w].datasetId
    requires db.versions[v].manifest == db.versions[w].manifest
    ensures v == w
  {
    hide Inv;
    if v != w {
      VersionsAreDifferent(db, v, w);
    }
  }

  lemma VersionsAreDifferent(db: Db, v: Id, w: Id)
    requires Inv(db) && v in db.versions && w in db.versions && v != w
    ensures VersionsDiffer(db.versions[v], db.versions[w])
  {
    hide SessionsOk, PairsOk, GenerationsOk, BlobsOk, BindingsOk, VersionSound, NumbersDense, VersionsDiffer;
  }

  lemma NewCase(db: Db, datasetId: Id, lines: seq<ManifestLine>, request: Id, fingerprint: Sha, at: Instants,
                result: Result<Done<Id>, Error>)
    requires Inv(db) && ValidInstants(db, at) && result == Register(db, datasetId, lines, request, fingerprint, at)
    requires Registrable(db, datasetId, lines) && Key(RegisterScope, request) !in db.idempotency
    ensures if AllAgreeing(db.blobs, lines) then result.Ok? else result == Err(ContentConflict)
    ensures result.Ok? ==> RegistrationLeaves(db, datasetId, lines, request, fingerprint, at, result.value)
  {
    hide Inv, Advances, SoundLines, VersionByManifest, InsertVersion, InsertEntries, PutVersion, MaxVersionNumber, RequireSealed;
    hide AllAgreeing, Lists, Adds, NextNumber, EntriesMatch, Extends, DistinctShas, ManifestTotals;
    var draft := DraftVersion(db, datasetId, lines);
    var inserted := db.(nextId := db.nextId + 1, versions := db.versions[db.nextId := draft]);
    var listed := InsertEntries(inserted, db.nextId, lines);
    DraftInserted(db, datasetId, lines);
    EntriesListed(db, draft, lines);
    SoundBlobs(db, inserted);
    EntriesDecide(inserted, db.nextId, lines);
    if listed.Ok? {
      Scenes.RegisterCommits(db, datasetId, lines, listed.value, request, fingerprint, at);
      RegistrationRows(db, datasetId, lines, listed.value, request, fingerprint, at);
    }
  }

  lemma SoundBlobs(db: Db, inserted: Db)
    requires Inv(db) && inserted.blobs == db.blobs && db.nextId <= inserted.nextId
    ensures IdsBelow(inserted) && DistinctShas(inserted.blobs)
  {
    hide SessionsOk, PairsOk, GenerationsOk, VersionsOk, BindingsOk, IsDigest;
    assert forall b :: b in db.blobs ==> BlobSound(db, b);
  }

  lemma RegistrationRows(db: Db, datasetId: Id, lines: seq<ManifestLine>, listed: Done<seq<EntryRow>>, request: Id,
                         fingerprint: Sha, at: Instants)
    requires Inv(db) && Registrable(db, datasetId, lines) && Adds(db.blobs, listed.db.blobs, listed.value)
    requires var draft := DraftVersion(db, datasetId, lines);
      Extends(db.(nextId := db.nextId + 1, versions := db.versions[db.nextId := draft]), listed.db)
    requires EntriesMatch(listed.db.blobs, listed.value, lines)
    ensures var after := Scenes.Sealed(db, datasetId, lines, listed, Key(RegisterScope, request), RegisterRequest(fingerprint), at);
      RegistrationLeaves(db, datasetId, lines, request, fingerprint, at, Done(after, db.nextId))
  {
    hide Inv, Advances, SoundLines, VersionByManifest, MaxVersionNumber, Adds, NextNumber, DistinctShas, NewBlob, Extended;
    FreshId(db);
    MaxIsNext(db, datasetId);
    MatchLists(listed.db.blobs, listed.value, lines);
    hide EntriesMatch, Lists;
  }

  lemma MatchLists(blobs: map<Id, BlobRow>, entries: seq<EntryRow>, lines: seq<ManifestLine>)
    requires EntriesMatch(blobs, entries, lines)
    ensures Lists(blobs, entries, lines)
  {
    forall i | 0 <= i < |lines|
      ensures entries[i].path == lines[i].path && entries[i].blobId in blobs
      ensures blobs[entries[i].blobId].sha256 == lines[i].sha256 && blobs[entries[i].blobId].size == lines[i].size
    {
      assert EntryMatches(blobs, entries[i], lines[i]);
    }
  }

  /** A new request seals a Version exactly when its manifest is canonical, its
      Dataset exists, and no stored Blob contradicts it; a manifest the Dataset has
      already is answered by its Version. */
  lemma RegisterDecides(db: Db, datasetId: Id, lines: seq<ManifestLine>, request: Id, fingerprint: Sha, at: Instants,
                        result: Result<Done<Id>, Error>)
    requires Inv(db) && ValidInstants(db, at) && result == Register(db, datasetId, lines, request, fingerprint, at)
    requires Key(RegisterScope, request) !in db.idempotency
    ensures !SoundLines(lines) ==> result == Err(ManifestMismatch)
    ensures SoundLines(lines) && datasetId !in db.datasets ==> result == Err(NotFound)
    ensures forall v: Id :: SoundLines(lines) && datasetId in db.datasets && Known(db, datasetId, lines, v) ==>
      result == Ok(Done(KnownLeaves(db, v, request, fingerprint, at), v))
    ensures SoundLines(lines) && datasetId in db.datasets && (forall v: Id :: !Known(db, datasetId, lines, v)) ==>
      if AllAgreeing(db.blobs, lines) then result.Ok? && RegistrationLeaves(db, datasetId, lines, request, fingerprint, at, result.value)
      else result == Err(ContentConflict)
  {
    hide Inv, Advances, SoundLines, VersionByManifest, InsertVersion, InsertEntries, PutVersion, MaxVersionNumber, RequireSealed;
    hide AllAgreeing, RegistrationLeaves, ManifestTotals, Known;
    KnownIsFound(db, datasetId, lines);
    if SoundLines(lines) && datasetId in db.datasets && VersionByManifest(db, datasetId, lines, db.nextId).None? {
      NewCase(db, datasetId, lines, request, fingerprint, at, result);
    }
  }

  lemma RegisterRepeats(db: Db, datasetId: Id, lines: seq<ManifestLine>, request: Id, fingerprint: Sha, at: Instants,
                        result: Result<Done<Id>, Error>)
    requires Inv(db) && result == Register(db, datasetId, lines, request, fingerprint, at)
    requires Key(RegisterScope, request) in db.idempotency && SoundLines(lines) && datasetId in db.datasets
    ensures var row := db.idempotency[Key(RegisterScope, request)];
      result == if row.request == RegisterRequest(fingerprint) then Ok(Done(db.(clock := at.commit), row.resourceId)) else Err(IdempotencyConflict)
  {
    hide Inv, SoundLines;
    Bound(db, Key(RegisterScope, request));
  }
}
