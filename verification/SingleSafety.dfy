/** The single-PUT and publication transactions keep the same invariant. The
    database refuses them in three cases: a first session on a Blob whose slot an
    INITIATING multipart session holds, a restart on one whose slot is taken, and
    publication of a Blob with multipart history. */
module SingleSafety {
  import opened Base
  import opened Flush
  import opened Frame
  import opened Guards
  import opened History
  import opened Insertion
  import opened Invariant
  import opened Registry
  import opened Rewrite
  import opened Rows
  import opened Safety
  import opened Sealing
  import C = CreateSafety

  // ----------------------------------------------------------------- one Version

  lemma VersionStillSound(db: Db, v: Id, row: VersionRow, w: Id)
    requires v in db.versions && w in db.versions && VersionSound(db, v) && VersionSound(db, w)
    requires VersionContentUnchanged(db.versions[v], row) && row.state != Verifying && db.versions[v].sealedAt.Some?
    requires row.state == Ready ==> v in db.entries && AllAvailable(db, db.entries[v])
    ensures VersionSound(db.(versions := db.versions[v := row]), w)
  {
    hide SoundLines, EntriesMatch, Recount, ManifestTotals;
  }

  lemma VersionsStillDiffer(versions: map<Id, VersionRow>, v: Id, row: VersionRow)
    requires v in versions && VersionContentUnchanged(versions[v], row)
    requires forall w, x :: w in versions && x in versions && w != x ==> VersionsDiffer(versions[w], versions[x])
    ensures var after := versions[v := row];
      forall w, x :: w in after && x in after && w != x ==> VersionsDiffer(after[w], after[x])
  {
    var after := versions[v := row];
    forall w, x | w in after && x in after && w != x
      ensures VersionsDiffer(after[w], after[x])
    {
      assert VersionsDiffer(versions[w], versions[x]);
    }
  }

  lemma NumbersStillDense(versions: map<Id, VersionRow>, v: Id, row: VersionRow, w: Id)
    requires v in versions && w in versions && VersionContentUnchanged(versions[v], row) && NumbersDense(versions, w)
    ensures NumbersDense(versions[v := row], w)
  {
    var after := versions[v := row];
    forall n | 1 <= n < after[w].number
      ensures NumberExists(after, after[w].datasetId, n)
    {
      assert NumberExists(versions, versions[w].datasetId, n);
      var x :| x in versions && versions[x].datasetId == versions[w].datasetId && versions[x].number == n;
      assert after[x].number == n;
    }
  }

  lemma VersionsStillOk(db: Db, v: Id, row: VersionRow)
    requires VersionsOk(db) && v in db.versions
    requires VersionContentUnchanged(db.versions[v], row) && row.state != Verifying
    requires row.state == Ready ==> v in db.entries && AllAvailable(db, db.entries[v])
    ensures VersionsOk(db.(versions := db.versions[v := row]))
  {
    var after := db.(versions := db.versions[v := row]);
    assert VersionSound(db, v);
    hide VersionsDiffer, NumbersDense, VersionContentUnchanged, AllAvailable;
    VersionsStillDiffer(db.versions, v, row);
    assert db.versions[v].sealedAt.Some?;
    hide VersionSound;
    forall w | w in after.versions
      ensures VersionSound(after, w) && NumbersDense(after.versions, w)
    {
      VersionStillSound(db, v, row, w);
      NumbersStillDense(db.versions, v, row, w);
    }
  }

  /** Changing the state of one Version keeps the database sound. */
  lemma InvAfterVersion(db: Db, v: Id, row: VersionRow)
    requires Inv(db) && v in db.versions && VersionAdvances(db.versions[v], row) && row.state != Verifying
    requires row.state == Ready ==> v in db.entries && AllAvailable(db, db.entries[v])
    ensures var after := db.(versions := db.versions[v := row]); Inv(after) && Advances(db, after)
  {
    hide PairsOk, GenerationsOk, VersionsOk, BlobSound, BindingSound, SessionSound;
    var after := db.(versions := db.versions[v := row]);
    VersionsStillOk(db, v, row);
    forall s | s in after.sessions
      ensures SessionSound(after, s)
    {
      SameButVersions(db, v, row, s);
    }
    forall b | b in after.blobs
      ensures BlobSound(after, b)
    {
      BlobSoundWithVersions(db, v, row, b);
    }
    VersionAlone(db, v, row);
    BindingsOkAfter(db, after, Key(AcceptScope, 0));
  }

  lemma VersionAlone(db: Db, v: Id, row: VersionRow)
    requires v in db.versions && VersionAdvances(db.versions[v], row)
    ensures Advances(db, db.(versions := db.versions[v := row]))
  {
  }

  lemma SameButVersions(db: Db, v: Id, row: VersionRow, s: Id)
    requires Inv(db) && s in db.sessions
    ensures SessionSound(db.(versions := db.versions[v := row]), s)
  {
    hide Inv, MultipartSound, SingleSound, LeasesSound;
    SoundOf(db, s);
    SameRowsSound(db, db.(versions := db.versions[v := row]), s);
  }

  lemma BlobSoundWithVersions(db: Db, v: Id, row: VersionRow, b: Id)
    requires Inv(db) && b in db.blobs
    ensures BlobSound(db.(versions := db.versions[v := row]), b)
  {
    hide Inv;
    C.BlobOf(db, b);
    var after := db.(versions := db.versions[v := row]);
    assert HasMultipart(after, b) == HasMultipart(db, b);
    if HasCompleted(db, b) {
      var c :| c in db.sessions && IsCompletedFor(db, c, b);
      assert IsCompletedFor(after, c, b);
    }
  }

  lemma VersionOf(db: Db, v: Id)
    requires Inv(db) && v in db.versions
    ensures VersionSound(db, v)
  {
  }

  lemma VersionFacts(db: Db, v: Id)
    requires Inv(db) && v in db.versions
    ensures v in db.entries && db.versions[v].sealedAt.Some?
    ensures db.versions[v].totals == ManifestTotals(db.versions[v].manifest)
    ensures db.versions[v].state != Verifying
    ensures db.versions[v].state == Ready ==> AllAvailable(db, db.entries[v])
  {
    hide Inv, SoundLines, EntriesMatch, Recount, ManifestTotals;
    VersionOf(db, v);
  }

  /** In a sound outcome every Version is sealed. */
  lemma SealedPasses(db: Db, v: Id, commit: int)
    requires Inv(db.(clock := commit))
    ensures RequireSealed(db, v).Pass?
  {
    hide Inv;
    if v in db.versions {
      VersionFacts(db.(clock := commit), v);
    }
  }

  // ---------------------------------------------------------- one single-PUT row

  ghost predicate SingleMoves(was: Write, row: SessionRow, blob: BlobRow) {
    && SessionAdvances(was.row, row) && SingleSound(row, blob)
    && BlobMay(was, was.(row := row, blob := blob))
  }

  lemma SingleRows(db: Db, s: Id)
    requires Inv(db) && IsSingle(db, s)
    ensures db.sessions[s].blobId in db.blobs && db.sessions[s].versionId in db.versions
    ensures var w := Standing(db, s);
      w.parts.None? && w.admission.None? && w.completion.None? && SingleSound(w.row, w.blob) && w.blob.state != BlobVerifying
  {
    hide Inv, SingleSound;
    SoundOf(db, s);
    C.BlobOf(db, db.sessions[s].blobId);
  }

  lemma SingleKeepsInv(db: Db, s: Id, row: SessionRow, blob: BlobRow, commit: int)
    requires Inv(db) && IsSingle(db, s) && db.clock <= commit && db.sessions[s].blobId in db.blobs
    requires SingleMoves(Standing(db, s), row, blob)
    requires blob.state == BlobAvailable && blob != db.blobs[db.sessions[s].blobId] ==> !HasMultipart(db, db.sessions[s].blobId)
    ensures var after := db.(sessions := db.sessions[s := row], blobs := db.blobs[db.sessions[s].blobId := blob]);
      Inv(after.(clock := commit)) && Advances(db, after.(clock := commit))
  {
    hide Inv, Advances, SingleSound, BlobMay, Rewritten, HasMultipart;
    SoundOf(db, s);
    hide SessionSound;
    SingleRows(db, s);
    var w := Standing(db, s);
    var next := w.(row := row, blob := blob);
    RewriteKeepsInv(db, s, next, commit);
    RewrittenBlob(db, s, w, row, blob);
  }

  // -------------------------------------------------------------- in progress

  function OpenedBlob(blob: BlobRow): BlobRow {
    if blob.state == BlobPending then blob.(state := BlobUploading) else blob
  }

  function OpenedVersion(version: VersionRow): VersionRow {
    if version.state in {Draft, VersionFailed} then version.(state := Uploading, failure := None) else version
  }

  lemma StartedRows(w: Write, at: int)
    requires w.row.strategy == SinglePut && SingleSound(w.row, w.blob) && w.row.state == Created
    requires w.blob.state != BlobVerifying
    ensures var row := OpenedSession(w.row, at);
      && SessionUpdateAllowed(w.row, row, [], OpenedBlob(w.blob))
      && BlobUpdateAllowed(w.blob, OpenedBlob(w.blob)) && SingleMoves(w, row, OpenedBlob(w.blob))
  {
  }

  /** The session's row, its Blob and its Version move together. */
  function Moved(db: Db, s: Id, version: VersionRow, row: SessionRow, blob: BlobRow): Db
    requires s in db.sessions
  {
    db.(versions := db.versions[db.sessions[s].versionId := version], sessions := db.sessions[s := row],
        blobs := db.blobs[db.sessions[s].blobId := blob])
  }

  lemma MovedKeepsInv(db: Db, s: Id, version: VersionRow, row: SessionRow, blob: BlobRow, commit: int)
    requires Inv(db) && IsSingle(db, s) && db.clock <= commit && db.sessions[s].blobId in db.blobs
    requires db.sessions[s].versionId in db.versions
    requires VersionAdvances(db.versions[db.sessions[s].versionId], version) && version.state != Verifying
    requires version.state == Ready ==> db.versions[db.sessions[s].versionId].state == Ready
    requires blob.state == BlobAvailable ==> blob == db.blobs[db.sessions[s].blobId]
    requires SingleMoves(Standing(db, s), row, blob)
    ensures var after := Moved(db, s, version, row, blob).(clock := commit); Inv(after) && Advances(db, after)
  {
    hide Inv, Advances, SingleMoves, AllAvailable;
    VersionFacts(db, db.sessions[s].versionId);
    InvAfterVersion(db, db.sessions[s].versionId, version);
    var mid := db.(versions := db.versions[db.sessions[s].versionId := version]);
    SingleKeepsInv(mid, s, row, blob, commit);
    AdvancesTransitive(db, mid, Moved(db, s, version, row, blob).(clock := commit));
  }

  lemma OpenedVersionAllowed(db: Db, v: Id)
    requires Inv(db) && v in db.versions
    ensures VersionUpdateAllowed(db.versions[v], OpenedVersion(db.versions[v]), Recount(db.blobs, EntriesOf(db, v)))
    ensures VersionAdvances(db.versions[v], OpenedVersion(db.versions[v]))
    ensures OpenedVersion(db.versions[v]).state != Verifying
    ensures OpenedVersion(db.versions[v]).state == Ready ==> db.versions[v].state == Ready
  {
    hide Inv, Recount, AllAvailable;
    VersionFacts(db, v);
  }

  function OpenedSession(row: SessionRow, at: int): SessionRow {
    row.(state := InProgress, lastActivityAt := at)
  }

  /** Both deferred checks of a transaction that changed a Version and a Blob. */
  function SealAndCommit(db: Db, v: Id, b: Id, at: Instants): Result<Done<()>, Error> {
    var sealed := RequireSealed(db, v);
    :- sealed;
    Commit(db, b, at, ())
  }

  /** The three writes of a start amount to one move of its rows. */
  lemma MarkInProgressWrites(db: Db, s: Id, at: Instants)
    requires Inv(db) && CheckSingle(db, s).Pass? && db.sessions[s].state == Created
    ensures var row := db.sessions[s];
      MarkInProgress(db, s, at) ==
        SealAndCommit(Moved(db, s, OpenedVersion(db.versions[row.versionId]), OpenedSession(row, at.wall), OpenedBlob(db.blobs[row.blobId])),
                      row.versionId, row.blobId, at)
  {
    hide Inv, SessionUpdateAllowed, BlobUpdateAllowed, VersionUpdateAllowed, SingleMoves, SingleSound, Commit, Recount;
    hide RequireSealed, VersionAdvances, SessionAdvances, BlobMay;
    SingleRows(db, s);
    var w := Standing(db, s);
    StartedRows(w, at.wall);
    OpenedVersionAllowed(db, w.row.versionId);
    RecountAfterBlob(db, w.row.versionId, w.row.blobId, OpenedBlob(w.blob));
  }

  lemma MarkInProgressSafe(db: Db, s: Id, at: Instants)
    requires Inv(db) && ValidInstants(db, at)
    ensures Safe(db, MarkInProgress(db, s, at))
  {
    hide Inv, Advances, VersionAdvances, SingleMoves, SingleSound, Commit, PutBlob, PutSession, PutVersion, Moved;
    InvAfterTime(db, at.commit);
    if CheckSingle(db, s).Pass? && db.sessions[s].state == Created {
      SingleRows(db, s);
      var w := Standing(db, s);
      var row, version, blob := OpenedSession(w.row, at.wall), OpenedVersion(db.versions[w.row.versionId]), OpenedBlob(w.blob);
      StartedRows(w, at.wall);
      OpenedVersionAllowed(db, w.row.versionId);
      MarkInProgressWrites(db, s, at);
      MovedKeepsInv(db, s, version, row, blob, at.commit);
      SealedPasses(Moved(db, s, version, row, blob), w.row.versionId, at.commit);
      CommitPasses(Moved(db, s, version, row, blob), w.row.blobId, at, ());
    }
  }

  /** A Blob that keeps its size does not change any recount. */
  lemma RecountAfterBlob(db: Db, v: Id, b: Id, blob: BlobRow)
    requires Inv(db) && v in db.versions && b in db.blobs && blob.size == db.blobs[b].size
    ensures Recount(db.blobs[b := blob], EntriesOf(db, v)) == Recount(db.blobs, EntriesOf(db, v))
  {
    hide Inv, SoundLines, Recount, ManifestTotals;
    VersionOf(db, v);
    forall i | 0 <= i < |EntriesOf(db, v)|
      ensures SameSize(db.blobs, db.blobs[b := blob], EntriesOf(db, v)[i].blobId)
    {
      assert EntryMatches(db.blobs, db.entries[v][i], db.versions[v].manifest[i]);
    }
    RecountSame(db.blobs, db.blobs[b := blob], EntriesOf(db, v));
  }
}
