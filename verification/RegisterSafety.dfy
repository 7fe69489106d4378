/** Sealing a Version: its entries, its Blobs and its totals. */
module RegisterSafety {
  import opened Base
  import opened Digest
  import opened Flush
  import opened Frame
  import opened Guards
  import opened History
  import opened Insertion
  import opened Invariant
  import opened LeaseSafety
  import opened Registry
  import opened Rewrite
  import opened Rows
  import opened Safety
  import opened SingleSafety
  import opened TextOrder

  // ------------------------------------------------------------------- totals

  ghost predicate DistinctShas(blobs: map<Id, BlobRow>) {
    forall b, c :: b in blobs && c in blobs && b != c ==> blobs[b].sha256 != blobs[c].sha256
  }

  lemma {:induction false} LogicalBytesAreLines(blobs: map<Id, BlobRow>, entries: seq<EntryRow>,
                                                lines: seq<ManifestLine>)
    requires EntriesMatch(blobs, entries, lines)
    ensures LogicalBytes(blobs, entries) == SumLines(lines)
  {
    if |lines| > 0 {
      var n := |lines| - 1;
      PrefixMatches(blobs, entries, lines);
      LogicalBytesAreLines(blobs, entries[..n], lines[..n]);
      assert EntryMatches(blobs, entries[n], lines[n]);
    }
  }

  lemma PrefixMatches(blobs: map<Id, BlobRow>, entries: seq<EntryRow>, lines: seq<ManifestLine>)
    requires EntriesMatch(blobs, entries, lines) && |lines| > 0
    ensures EntriesMatch(blobs, entries[..|lines| - 1], lines[..|lines| - 1])
  {
    var before, first := entries[..|lines| - 1], lines[..|lines| - 1];
    forall i | 0 <= i < |first|
      ensures EntryMatches(blobs, before[i], first[i])
    {
      assert EntryMatches(blobs, entries[i], lines[i]);
    }
  }

  /** A Blob stands for the line that first used its digest. */
  ghost predicate StandsFor(blobs: map<Id, BlobRow>, b: Id, line: ManifestLine) {
    b in blobs && blobs[b].sha256 == line.sha256 && blobs[b].size == line.size
  }

  ghost predicate StandFor(blobs: map<Id, BlobRow>, ids: seq<Id>, lines: seq<ManifestLine>) {
    |ids| == |lines| && forall i :: 0 <= i < |ids| ==> StandsFor(blobs, ids[i], lines[i])
  }

  /** Distinct Blobs and distinct digests are the same thing. */
  lemma {:induction false} DistinctBlobsAreFirstUses(blobs: map<Id, BlobRow>, entries: seq<EntryRow>,
      lines: seq<ManifestLine>)
    requires EntriesMatch(blobs, entries, lines) && DistinctShas(blobs)
    ensures StandFor(blobs, DistinctBlobs(entries), FirstUses(lines))
  {
    if |lines| > 0 {
      var n := |lines| - 1;
      PrefixMatches(blobs, entries, lines);
      DistinctBlobsAreFirstUses(blobs, entries[..n], lines[..n]);
      assert EntryMatches(blobs, entries[n], lines[n]);
      var ids, firsts := DistinctBlobs(entries[..n]), FirstUses(lines[..n]);
      if entries[n].blobId in ids {
        var i :| 0 <= i < |ids| && ids[i] == entries[n].blobId;
        assert StandsFor(blobs, ids[i], firsts[i]);
        assert firsts[i].sha256 == lines[n].sha256;
      }
      if Uses(firsts, lines[n].sha256) {
        var i :| 0 <= i < |firsts| && firsts[i].sha256 == lines[n].sha256;
        assert StandsFor(blobs, ids[i], firsts[i]);
        assert ids[i] == entries[n].blobId;
      }
    }
  }

  lemma {:induction false} BlobSizesAreLines(blobs: map<Id, BlobRow>, ids: seq<Id>, lines: seq<ManifestLine>)
    requires StandFor(blobs, ids, lines)
    ensures SumBlobSizes(blobs, ids) == SumLines(lines)
  {
    if |ids| > 0 {
      BlobSizesAreLines(blobs, ids[..|ids| - 1], lines[..|ids| - 1]);
      assert StandsFor(blobs, ids[|ids| - 1], lines[|ids| - 1]);
    }
  }

  /** The recount the trigger makes over entry rows equals the totals the
      application computed from the manifest. */
  lemma TotalsAgree(blobs: map<Id, BlobRow>, entries: seq<EntryRow>, lines: seq<ManifestLine>)
    requires EntriesMatch(blobs, entries, lines) && DistinctShas(blobs)
    ensures Recount(blobs, entries) == ManifestTotals(lines)
  {
    LogicalBytesAreLines(blobs, entries, lines);
    DistinctBlobsAreFirstUses(blobs, entries, lines);
    BlobSizesAreLines(blobs, DistinctBlobs(entries), FirstUses(lines));
  }

  predicate NaturalSizes(lines: seq<ManifestLine>) {
    forall i :: 0 <= i < |lines| ==> lines[i].size >= 0
  }

  lemma {:induction false} LinesAddUp(lines: seq<ManifestLine>)
    requires NaturalSizes(lines)
    ensures SumLines(lines) >= 0
  {
    if |lines| > 0 {
      LinesAddUp(lines[..|lines| - 1]);
    }
  }

  lemma {:induction false} FirstUsesAreNatural(lines: seq<ManifestLine>)
    requires NaturalSizes(lines)
    ensures NaturalSizes(FirstUses(lines))
  {
    if |lines| > 0 {
      FirstUsesAreNatural(lines[..|lines| - 1]);
    }
  }

  // -------------------------------------------------------------------- Blobs

  ghost predicate NewBlob(db: Db, after: Db, b: Id) {
    && b in after.blobs && db.nextId <= b < after.nextId
    && after.blobs[b].state == BlobPending && IsDigest(after.blobs[b].sha256) && after.blobs[b].size >= 0
  }

  /** Only PENDING Blobs with new digests were added. */
  ghost predicate Extends(db: Db, after: Db) {
    && after == db.(blobs := after.blobs, nextId := after.nextId)
    && db.nextId <= after.nextId
    && Extended(db.blobs, after.blobs)
    && (forall b :: b in after.blobs && b !in db.blobs ==> NewBlob(db, after, b))
    && DistinctShas(after.blobs)
  }

  predicate Extended(blobs: map<Id, BlobRow>, later: map<Id, BlobRow>) {
    forall b :: b in blobs ==> b in later && later[b] == blobs[b]
  }

  ghost predicate IdsBelow(db: Db) {
    forall b :: b in db.blobs ==> b < db.nextId
  }

  function WithBlob(db: Db, line: ManifestLine): Db {
    db.(nextId := db.nextId + 1, blobs := db.blobs[db.nextId := PendingBlob(line)])
  }

  lemma NewBlobExtends(db: Db, mid: Db, line: ManifestLine)
    requires Extends(db, mid) && IdsBelow(mid) && IsDigest(line.sha256) && line.size >= 0
    requires forall b :: b in mid.blobs ==> mid.blobs[b].sha256 != line.sha256
    ensures Extends(db, WithBlob(mid, line)) && StandsFor(WithBlob(mid, line).blobs, mid.nextId, line)
    ensures Extended(mid.blobs, WithBlob(mid, line).blobs)
  {
    hide IsDigest;
    var after := WithBlob(mid, line);
    forall b | b in after.blobs && b !in db.blobs
      ensures NewBlob(db, after, b)
    {
      assert b != mid.nextId ==> NewBlob(db, mid, b);
    }
  }

  lemma ExtendedBelow(db: Db, mid: Db)
    requires Extends(db, mid) && IdsBelow(db)
    ensures IdsBelow(mid)
  {
    hide IsDigest;
    forall b | b in mid.blobs
      ensures b < mid.nextId
    {
      assert b !in db.blobs ==> NewBlob(db, mid, b);
    }
  }

  lemma BlobExtends(db: Db, mid: Db, line: ManifestLine)
    requires Extends(db, mid) && IdsBelow(db) && IsDigest(line.sha256) && line.size >= 0
    ensures GetOrCreateBlob(mid, line).Err? ==> GetOrCreateBlob(mid, line).error == ContentConflict
    ensures GetOrCreateBlob(mid, line).Ok? ==>
      var done := GetOrCreateBlob(mid, line).value;
      && Extends(db, done.db) && StandsFor(done.db.blobs, done.value, line)
      && Extended(mid.blobs, done.db.blobs)
  {
    ExtendedBelow(db, mid);
    hide IsDigest, Extends;
    if BlobBySha(mid, line.sha256, mid.nextId).None? {
      NewBlobExtends(db, mid, line);
    }
  }

  lemma PrefixIsSound(lines: seq<ManifestLine>)
    requires SoundLines(lines) && |lines| > 0
    ensures SoundLines(lines[..|lines| - 1])
  {
    hide SoundLine;
  }

  /** The row of the last line passes the guards of an entry. */
  lemma EntryInserted(db: Db, v: Id, listed: seq<EntryRow>, lines: seq<ManifestLine>, b: Id)
    requires SoundLines(lines) && |lines| > 0 && EntriesMatch(db.blobs, listed, lines[..|lines| - 1])
    requires v in db.versions && db.versions[v].sealedAt.None? && b in db.blobs
    ensures var row := EntryRow(lines[|lines| - 1].path, b); InsertEntry(db, v, listed, row) == Ok(listed + [row])
  {
    hide IsDigest, Utf8Length;
    var n := |lines| - 1;
    assert SoundLine(lines[n]);
    forall i | 0 <= i < |listed|
      ensures listed[i].path != lines[n].path
    {
      assert EntryMatches(db.blobs, listed[i], lines[..n][i]);
    }
  }

  /** Entry rows match their lines, or a known digest has another size. */
  ghost predicate EntriesInserted(db: Db, lines: seq<ManifestLine>, result: Result<Done<seq<EntryRow>>, Error>) {
    if result.Ok? then Extends(db, result.value.db) && EntriesMatch(result.value.db.blobs, result.value.value, lines)
    else result.error == ContentConflict
  }

  /** No guard refuses an entry or a Blob of a sound manifest. */
  lemma {:induction false} EntriesExtend(db: Db, v: Id, lines: seq<ManifestLine>)
    requires IdsBelow(db) && DistinctShas(db.blobs)
    requires v in db.versions && db.versions[v].sealedAt.None? && SoundLines(lines)
    ensures EntriesInserted(db, lines, InsertEntries(db, v, lines))
  {
    hide IsDigest, GetOrCreateBlob, InsertEntry, SoundLines, SoundLine, NewBlob, EntryMatches;
    if |lines| > 0 {
      var n := |lines| - 1;
      PrefixIsSound(lines);
      EntriesExtend(db, v, lines[..n]);
      var before := InsertEntries(db, v, lines[..n]);
      if before.Ok? {
        LastLine(lines);
        BlobExtends(db, before.value.db, lines[n]);
        var blob := GetOrCreateBlob(before.value.db, lines[n]);
        if blob.Ok? {
          LinesStillMatch(before.value.db.blobs, blob.value.db.blobs, before.value.value, lines[..n]);
          StandingBlob(blob.value.db.blobs, blob.value.value, lines[n]);
          EntryInserted(blob.value.db, v, before.value.value, lines, blob.value.value);
          MatchExtends(before.value.db.blobs, blob.value.db.blobs, before.value.value, lines, blob.value.value);
        }
      }
    }
  }

  lemma LastLine(lines: seq<ManifestLine>)
    requires SoundLines(lines) && |lines| > 0
    ensures IsDigest(lines[|lines| - 1].sha256) && lines[|lines| - 1].size >= 0
  {
    assert SoundLine(lines[|lines| - 1]);
  }

  lemma StandingBlob(blobs: map<Id, BlobRow>, b: Id, line: ManifestLine)
    requires StandsFor(blobs, b, line)
    ensures b in blobs
  {
  }

  lemma LinesStillMatch(blobs: map<Id, BlobRow>, later: map<Id, BlobRow>, entries: seq<EntryRow>,
                        lines: seq<ManifestLine>)
    requires EntriesMatch(blobs, entries, lines) && Extended(blobs, later)
    ensures EntriesMatch(later, entries, lines)
  {
    forall i | 0 <= i < |lines|
      ensures EntryMatches(later, entries[i], lines[i])
    {
      assert EntryMatches(blobs, entries[i], lines[i]);
    }
  }

  lemma MatchExtends(blobs: map<Id, BlobRow>, later: map<Id, BlobRow>, entries: seq<EntryRow>, lines: seq<ManifestLine>,
                     b: Id)
    requires |lines| > 0 && EntriesMatch(blobs, entries, lines[..|lines| - 1])
    requires StandsFor(later, b, lines[|lines| - 1])
    requires Extended(blobs, later)
    ensures EntriesMatch(later, entries + [EntryRow(lines[|lines| - 1].path, b)], lines)
  {
    var all := entries + [EntryRow(lines[|lines| - 1].path, b)];
    forall i | 0 <= i < |lines|
      ensures EntryMatches(later, all[i], lines[i])
    {
      if i < |lines| - 1 {
        assert EntryMatches(blobs, entries[i], lines[..|lines| - 1][i]);
      }
    }
  }

  // ------------------------------------------------------------ Version numbers

  lemma {:induction false} MaxNumberBounds(db: Db, datasetId: Id, below: Id)
    ensures forall v :: v in db.versions && v < below && db.versions[v].datasetId == datasetId ==>
      db.versions[v].number <= MaxVersionNumber(db, datasetId, below)
    ensures MaxVersionNumber(db, datasetId, below) > 0 ==> NumberExists(db.versions, datasetId, MaxVersionNumber(db, datasetId, below))
  {
    if below > 0 {
      MaxNumberBounds(db, datasetId, below - 1);
    }
  }

  /** A fresh number is one above every stored one of the Dataset. */
  ghost predicate NextNumber(db: Db, datasetId: Id, number: int) {
    && number > 0
    && (forall v :: v in db.versions && db.versions[v].datasetId == datasetId ==> db.versions[v].number < number)
    && (forall n :: 1 <= n < number ==> NumberExists(db.versions, datasetId, n))
  }

  lemma MaxIsNext(db: Db, datasetId: Id)
    requires Inv(db)
    ensures NextNumber(db, datasetId, MaxVersionNumber(db, datasetId, db.nextId) + 1)
  {
    hide SessionsOk, PairsOk, GenerationsOk, BlobsOk, BindingsOk, SoundLines, EntriesMatch, Recount, ManifestTotals;
    hide AllAvailable;
    var top := MaxVersionNumber(db, datasetId, db.nextId);
    MaxNumberBounds(db, datasetId, db.nextId);
    forall v | v in db.versions && db.versions[v].datasetId == datasetId
      ensures db.versions[v].number <= top
    {
      assert VersionSound(db, v);
    }
    forall n | 1 <= n <= top
      ensures NumberExists(db.versions, datasetId, n)
    {
      assert NumberExists(db.versions, datasetId, top);
      var w :| w in db.versions && db.versions[w].datasetId == datasetId && db.versions[w].number == top;
      assert NumbersDense(db.versions, w);
    }
  }

  // ----------------------------------------------------------------- the Version

  /** The database after a Version, its entries and its Blobs were inserted. */
  function Listed(db: Db, later: Db, version: VersionRow, entries: seq<EntryRow>): Db {
    later.(versions := db.versions[db.nextId := version], entries := db.entries[db.nextId := entries])
  }

  ghost predicate Sealable(db: Db, later: Db, version: VersionRow, entries: seq<EntryRow>) {
    && later.nextId > db.nextId && Extends(db.(nextId := db.nextId + 1), later)
    && version.datasetId in db.datasets && SoundLines(version.manifest)
    && NextNumber(db, version.datasetId, version.number)
    && (forall v :: v in db.versions && db.versions[v].datasetId == version.datasetId ==> db.versions[v].manifest != version.manifest)
    && EntriesMatch(later.blobs, entries, version.manifest)
    && version.totals == ManifestTotals(version.manifest)
    && version.state == Draft && version.sealedAt.Some?
  }

  lemma ListedBlobs(db: Db, later: Db, version: VersionRow, entries: seq<EntryRow>)
    requires Inv(db) && Sealable(db, later, version, entries)
    ensures BlobsOk(Listed(db, later, version, entries))
  {
    hide SessionsOk, PairsOk, GenerationsOk, VersionsOk, BindingsOk, SoundLines, EntriesMatch, NextNumber;
    hide ManifestTotals, IsDigest;
    var after := Listed(db, later, version, entries);
    forall b | b in after.blobs
      ensures BlobSound(after, b)
    {
      if b in db.blobs {
        assert BlobSound(db, b);
        assert HasMultipart(after, b) == HasMultipart(db, b);
        if HasCompleted(db, b) {
          var c :| c in db.sessions && IsCompletedFor(db, c, b);
          assert IsCompletedFor(after, c, b);
        }
      } else {
        assert NewBlob(db.(nextId := db.nextId + 1), later, b);
      }
    }
  }

  lemma ListedSessions(db: Db, later: Db, version: VersionRow, entries: seq<EntryRow>)
    requires Inv(db) && Sealable(db, later, version, entries)
    ensures SessionsOk(Listed(db, later, version, entries))
  {
    hide PairsOk, GenerationsOk, BlobsOk, VersionsOk, BindingsOk, SoundLines, EntriesMatch, NextNumber, ManifestTotals;
    hide IsDigest, SessionSound, NewBlob;
    hide DistinctShas;
    var after := Listed(db, later, version, entries);
    forall s | s in after.sessions
      ensures SessionSound(after, s)
    {
      ListedSession(db, later, version, entries, s);
    }
  }

  lemma ListedSession(db: Db, later: Db, version: VersionRow, entries: seq<EntryRow>, s: Id)
    requires Inv(db) && Sealable(db, later, version, entries) && s in db.sessions
    ensures SessionSound(Listed(db, later, version, entries), s)
  {
    hide Inv, SoundLines, EntriesMatch, NextNumber, ManifestTotals, IsDigest, NewBlob, DistinctShas, MultipartSound;
    hide SingleSound, LeasesSound;
    SoundOf(db, s);
    SameRowsSound(db, Listed(db, later, version, entries), s);
  }

  lemma ListedVersion(db: Db, later: Db, version: VersionRow, entries: seq<EntryRow>, w: Id)
    requires Inv(db) && Sealable(db, later, version, entries) && (w == db.nextId || w in db.versions)
    ensures VersionSound(Listed(db, later, version, entries), w)
  {
    hide Inv, SoundLines, EntriesMatch, ManifestTotals, IsDigest, NewBlob, BlobAdvances;
    FreshId(db);
    if w == db.nextId {
      TotalsAgree(later.blobs, entries, version.manifest);
      hide Recount;
    } else {
      VersionOf(db, w);
      SameBlobsAdvance(db.blobs, later.blobs);
      hide Recount, VersionSound;
      VersionSoundLater(db, Listed(db, later, version, entries), w);
    }
  }

  lemma SameBlobsAdvance(blobs: map<Id, BlobRow>, later: map<Id, BlobRow>)
    requires Extended(blobs, later)
    ensures forall b :: b in blobs ==> b in later && BlobAdvances(blobs[b], later[b])
  {
  }

  lemma ListedNumbers(db: Db, later: Db, version: VersionRow, entries: seq<EntryRow>, w: Id)
    requires Inv(db) && Sealable(db, later, version, entries) && (w == db.nextId || w in db.versions)
    ensures NumbersDense(Listed(db, later, version, entries).versions, w)
  {
    hide SessionsOk, PairsOk, GenerationsOk, BlobsOk, BindingsOk, SoundLines, EntriesMatch, ManifestTotals, Extends;
    hide VersionSound;
    FreshId(db);
    var after := Listed(db, later, version, entries).versions;
    assert w in db.versions ==> NumbersDense(db.versions, w);
    forall n | 1 <= n < after[w].number
      ensures NumberExists(after, after[w].datasetId, n)
    {
      assert NumberExists(db.versions, after[w].datasetId, n);
      var x :| x in db.versions && db.versions[x].datasetId == after[w].datasetId && db.versions[x].number == n;
      assert after[x].number == n;
    }
  }

  lemma ListedVersions(db: Db, later: Db, version: VersionRow, entries: seq<EntryRow>)
    requires Inv(db) && Sealable(db, later, version, entries)
    ensures VersionsOk(Listed(db, later, version, entries))
  {
    hide SessionsOk, PairsOk, GenerationsOk, BlobsOk, BindingsOk, SoundLines, EntriesMatch, ManifestTotals, Extends;
    hide VersionSound, NumbersDense;
    FreshId(db);
    var after := Listed(db, later, version, entries);
    forall w | w in after.versions
      ensures VersionSound(after, w) && NumbersDense(after.versions, w)
    {
      ListedVersion(db, later, version, entries, w);
      ListedNumbers(db, later, version, entries, w);
    }
  }

  lemma ListedAdvances(db: Db, later: Db, version: VersionRow, entries: seq<EntryRow>)
    requires Inv(db) && Sealable(db, later, version, entries)
    ensures Advances(db, Listed(db, later, version, entries))
  {
    hide Inv, SoundLines, EntriesMatch, ManifestTotals, NewBlob, NextNumber, DistinctShas;
    FreshId(db);
  }

  lemma ListedKeepsInv(db: Db, later: Db, version: VersionRow, entries: seq<EntryRow>)
    requires Inv(db) && Sealable(db, later, version, entries)
    ensures Inv(Listed(db, later, version, entries)) && Advances(db, Listed(db, later, version, entries))
  {
    ListedSessions(db, later, version, entries);
    ListedBlobs(db, later, version, entries);
    ListedVersions(db, later, version, entries);
    ListedAdvances(db, later, version, entries);
    hide SessionsOk, BlobsOk, VersionsOk, BindingSound, SessionsAdvance, LeasesAdvance, ContentAdvances, SoundLines;
    hide EntriesMatch, NewBlob, NextNumber;
    BindingsOkAfter(db, Listed(db, later, version, entries), Key(AcceptScope, 0));
  }

  // ------------------------------------------------------------------ register

  function DraftVersion(db: Db, datasetId: Id, lines: seq<ManifestLine>): VersionRow {
    VersionRow(datasetId, MaxVersionNumber(db, datasetId, db.nextId) + 1, lines, Draft, ManifestTotals(lines), None, None, None, None)
  }

  predicate Registrable(db: Db, datasetId: Id, lines: seq<ManifestLine>) {
    && SoundLines(lines) && datasetId in db.datasets
    && VersionByManifest(db, datasetId, lines, db.nextId).None?
  }

  lemma ManifestIsNew(db: Db, datasetId: Id, lines: seq<ManifestLine>)
    requires Inv(db) && Registrable(db, datasetId, lines)
    ensures forall v :: v in db.versions && db.versions[v].datasetId == datasetId ==> db.versions[v].manifest != lines
  {
    hide Inv, SoundLines, EntriesMatch, Recount, ManifestTotals, AllAvailable;
    forall v | v in db.versions
      ensures v < db.nextId
    {
      VersionOf(db, v);
    }
  }

  /** The draft row passes the indexes and check constraints. */
  lemma DraftInserted(db: Db, datasetId: Id, lines: seq<ManifestLine>)
    requires Inv(db) && Registrable(db, datasetId, lines)
    ensures var v, draft := db.nextId, DraftVersion(db, datasetId, lines);
      && InsertVersion(db.(nextId := v + 1), v, draft) == Ok(db.(nextId := v + 1, versions := db.versions[v := draft]))
      && NextNumber(db, datasetId, draft.number)
  {
    FreshId(db);
    MaxIsNext(db, datasetId);
    ManifestIsNew(db, datasetId, lines);
    DraftTotals(lines);
    hide Inv, IsDigest, MaxVersionNumber, VersionByManifest;
  }

  lemma DraftTotals(lines: seq<ManifestLine>)
    requires SoundLines(lines)
    ensures var totals := ManifestTotals(lines);
      totals.fileCount >= 0 && totals.logicalBytes >= 0 && totals.blobCount >= 0 && totals.blobBytes >= 0
  {
    forall i | 0 <= i < |lines|
      ensures lines[i].size >= 0
    {
      assert SoundLine(lines[i]);
    }
    LinesAddUp(lines);
    FirstUsesAreNatural(lines);
    LinesAddUp(FirstUses(lines));
  }

  lemma EntriesListed(db: Db, draft: VersionRow, lines: seq<ManifestLine>)
    requires Inv(db) && SoundLines(lines) && draft.sealedAt.None?
    ensures var inserted := db.(nextId := db.nextId + 1, versions := db.versions[db.nextId := draft]);
      EntriesInserted(inserted, lines, InsertEntries(inserted, db.nextId, lines))
  {
    var inserted := db.(nextId := db.nextId + 1, versions := db.versions[db.nextId := draft]);
    assert IdsBelow(inserted) && DistinctShas(inserted.blobs) by {
      hide SessionsOk, PairsOk, GenerationsOk, VersionsOk, BindingsOk, IsDigest;
      assert forall b :: b in db.blobs ==> BlobSound(db, b);
    }
    hide Inv, IsDigest, Extends, EntriesMatch, SoundLines;
    EntriesExtend(inserted, db.nextId, lines);
  }

  /** A new Version, its entries and its Blobs, once sealed. */
  lemma SealedKeepsInv(db: Db, datasetId: Id, lines: seq<ManifestLine>, listed: Done<seq<EntryRow>>, at: int)
    requires Inv(db) && Registrable(db, datasetId, lines)
    requires var draft := DraftVersion(db, datasetId, lines);
      InsertEntries(db.(nextId := db.nextId + 1, versions := db.versions[db.nextId := draft]), db.nextId, lines) == Ok(listed)
    ensures var draft, v := DraftVersion(db, datasetId, lines), db.nextId;
      var filled := listed.db.(entries := listed.db.entries[v := listed.value]);
      var after := Listed(db, listed.db, draft.(sealedAt := Some(at)), listed.value);
      && listed.db.idempotency == db.idempotency && listed.db.clock == db.clock
      && PutVersion(filled, v, draft.(sealedAt := Some(at))) == Ok(after)
      && Inv(after) && Advances(db, after)
  {
    hide Inv, Advances, SoundLines, EntriesMatch, ManifestTotals, Recount, MaxVersionNumber, VersionByManifest, NewBlob;
    hide NextNumber, InsertEntries;
    var draft := DraftVersion(db, datasetId, lines);
    DraftInserted(db, datasetId, lines);
    EntriesListed(db, draft, lines);
    ManifestIsNew(db, datasetId, lines);
    TotalsAgree(listed.db.blobs, listed.value, lines);
    var inserted := db.(nextId := db.nextId + 1, versions := db.versions[db.nextId := draft]);
    var later := listed.db.(versions := db.versions);
    ExtendsBelow(db, inserted, listed.db, later);
    ListedKeepsInv(db, later, draft.(sealedAt := Some(at)), listed.value);
    hide Extends;
    var filled := listed.db.(entries := listed.db.entries[db.nextId := listed.value]);
    assert inserted.versions[db.nextId := draft.(sealedAt := Some(at))] == db.versions[db.nextId := draft.(sealedAt := Some(at))];
    assert EntriesOf(filled, db.nextId) == listed.value;
  }

  lemma ExtendsBelow(db: Db, inserted: Db, listed: Db, later: Db)
    requires inserted == db.(nextId := db.nextId + 1, versions := inserted.versions)
    requires Extends(inserted, listed) && later == listed.(versions := db.versions)
    ensures Extends(db.(nextId := db.nextId + 1), later) && later.nextId > db.nextId
    ensures listed.versions == inserted.versions
    ensures listed.entries == db.entries
  {
    hide DistinctShas, IsDigest;
    forall b | b in later.blobs && b !in db.blobs
      ensures NewBlob(db.(nextId := db.nextId + 1), later, b)
    {
      assert NewBlob(inserted, listed, b);
    }
  }

  lemma RegisteredBinds(db: Db, key: Key, payload: Request, v: Id, at: Instants)
    requires Inv(db) && v in db.versions && key.scope == RegisterScope && payload.RegisterRequest?
    requires key !in db.idempotency && db.clock <= at.commit
    ensures var done := Finish(db.(idempotency := db.idempotency[key := IdempotencyRow(payload, v, None)]), at, v);
      Inv(done.db) && Advances(db, done.db)
  {
    hide Inv, Advances;
    var row := IdempotencyRow(payload, v, None);
    InvAfterBinding(db, key, row);
    var bound := db.(idempotency := db.idempotency[key := row]);
    InvAfterTime(bound, at.commit);
    AdvancesTransitive(db, bound, bound.(clock := at.commit));
  }

  /** Registration is refused by the store's own checks only. */
  lemma RegisterSafe(db: Db, datasetId: Id, lines: seq<ManifestLine>, request: Id, fingerprint: Sha, at: Instants)
    requires Inv(db) && ValidInstants(db, at)
    ensures Safe(db, Register(db, datasetId, lines, request, fingerprint, at))
  {
    hide Inv, Advances, SoundLines, VersionByManifest, InsertVersion, InsertEntries, PutVersion, ManifestTotals, Finish;
    hide EntriesMatch, Extends, RequireSealed;
    var key, payload := Key(RegisterScope, request), RegisterRequest(fingerprint);
    if SoundLines(lines) && datasetId in db.datasets {
      if key in db.idempotency {
        InvAfterTime(db, at.commit);
        FinishedIs(db, at, db.idempotency[key].resourceId);
      } else {
        match VersionByManifest(db, datasetId, lines, db.nextId)
        case Some(v) => RegisteredBinds(db, key, payload, v, at);
        case None =>
          var draft := DraftVersion(db, datasetId, lines);
          DraftInserted(db, datasetId, lines);
          EntriesListed(db, draft, lines);
          var listed := InsertEntries(db.(nextId := db.nextId + 1, versions := db.versions[db.nextId := draft]), db.nextId, lines);
          if listed.Ok? {
            SealedKeepsInv(db, datasetId, lines, listed.value, at.wall);
            SealedBinds(db, listed.value, draft.(sealedAt := Some(at.wall)), key, payload, at);
          }
      }
    }
  }

  lemma SealedBinds(db: Db, listed: Done<seq<EntryRow>>, version: VersionRow, key: Key, payload: Request, at: Instants)
    requires var after := Listed(db, listed.db, version, listed.value); Inv(after) && Advances(db, after)
    requires listed.db.idempotency == db.idempotency && listed.db.clock == db.clock
    requires key.scope == RegisterScope && payload.RegisterRequest? && key !in db.idempotency && db.clock <= at.commit
    ensures var after := Listed(db, listed.db, version, listed.value);
      var done := Finish(after.(idempotency := after.idempotency[key := IdempotencyRow(payload, db.nextId, None)]), at, db.nextId);
      && after.idempotency == db.idempotency && Inv(done.db) && Advances(db, done.db)
      && RequireSealed(after.(idempotency := after.idempotency[key := IdempotencyRow(payload, db.nextId, None)]), db.nextId).Pass?
  {
    hide Inv, Advances, DistinctShas, NewBlob;
    var after := Listed(db, listed.db, version, listed.value);
    RegisteredBinds(after, key, payload, db.nextId, at);
    SealedPasses(after.(idempotency := after.idempotency[key := IdempotencyRow(payload, db.nextId, None)]), db.nextId, at.commit);
    AdvancesTransitive(db, after, Finish(after.(idempotency := after.idempotency[key := IdempotencyRow(payload, db.nextId, None)]), at, db.nextId).db);
  }
}
