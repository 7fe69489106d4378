/** A new session on a Blob whose slot is free keeps the database sound. */
module Insertion {
  import opened Base
  import opened Frame
  import opened Guards
  import opened History
  import opened Invariant
  import opened Multipart
  import opened Registry
  import opened Rewrite
  import opened Rows

  // -------------------------------------------------------------- generations

  /** The next generation is above every stored one, and the one below it exists. */
  lemma {:induction false} MaxGenerationBounds(db: Db, blobId: Id, below: Id)
    ensures forall s :: s in db.sessions && s < below && db.sessions[s].blobId == blobId && db.sessions[s].frozen.Some? ==>
      db.sessions[s].frozen.value.generation <= MaxGeneration(db, blobId, below)
    ensures MaxGeneration(db, blobId, below) > 0 ==> GenerationExists(db.sessions, blobId, MaxGeneration(db, blobId, below))
  {
    if below > 0 {
      MaxGenerationBounds(db, blobId, below - 1);
      var s := below - 1;
      if s in db.sessions && db.sessions[s].blobId == blobId && db.sessions[s].frozen.Some? {
        assert HasGeneration(db.sessions[s], blobId, db.sessions[s].frozen.value.generation);
      }
    }
  }

  lemma SmallerGenerationsExist(sessions: map<Id, SessionRow>, blobId: Id, top: int, g: int)
    requires GenerationsOk(sessions) && GenerationExists(sessions, blobId, top) && 1 <= g <= top
    ensures GenerationExists(sessions, blobId, g)
  {
    var r :| r in sessions && HasGeneration(sessions[r], blobId, top);
    assert GenerationsDense(sessions, r);
  }

  // ---------------------------------------------------------------- insertion

  function Inserted(db: Db, row: SessionRow, parts: Option<seq<PartRow>>, blob: BlobRow): Db {
    db.(nextId := db.nextId + 1, sessions := db.sessions[db.nextId := row], parts := Put(db.parts, db.nextId, parts),
        blobs := db.blobs[row.blobId := blob])
  }

  /** What must be shown of a new session row and its Blob. */
  ghost predicate Insertable(db: Db, row: SessionRow, parts: Option<seq<PartRow>>, blob: BlobRow) {
    && row.state == Created
    && row.blobId in db.blobs && row.versionId in db.versions
    && ActiveSlotFree(db, row.blobId)
    && blob.sha256 == db.blobs[row.blobId].sha256 && blob.size == db.blobs[row.blobId].size
    && blob.state != BlobVerifying && blob.state != BlobAvailable && db.blobs[row.blobId].state != BlobAvailable
    && (row.strategy == Multipart ==> parts.Some? && MultipartSound(row, parts.value, blob))
    && (row.strategy == SinglePut ==> parts.None? && SingleSound(row, blob))
    && (row.frozen.Some? ==> row.frozen.value.generation == MaxGeneration(db, row.blobId, db.nextId) + 1)
  }

  lemma FreshId(db: Db)
    requires Inv(db)
    ensures db.nextId !in db.sessions && db.nextId !in db.parts && db.nextId !in db.admission
    ensures db.nextId !in db.completion
    ensures db.nextId !in db.blobs && db.nextId !in db.versions
  {
    hide MultipartSound, SingleSound, LeasesSound, PairsOk, GenerationsOk, BindingsOk, SoundLines, EntriesMatch;
    hide Recount, ManifestTotals;
    assert db.nextId in db.sessions ==> SessionSound(db, db.nextId);
    assert db.nextId in db.blobs ==> BlobSound(db, db.nextId);
    assert db.nextId in db.versions ==> VersionSound(db, db.nextId);
  }

  lemma OthersAfterInsertion(db: Db, row: SessionRow, parts: Option<seq<PartRow>>, blob: BlobRow, r: Id)
    requires Inv(db) && Insertable(db, row, parts, blob) && r in db.sessions
    ensures SessionSound(Inserted(db, row, parts, blob), r)
  {
    hide Inv, MultipartSound, SingleSound, LeasesSound, SameRows;
    SoundOf(db, r);
    OthersStand(db, row, parts, blob, r);
    SameRowsSound(db, Inserted(db, row, parts, blob), r);
  }

  lemma OthersStand(db: Db, row: SessionRow, parts: Option<seq<PartRow>>, blob: BlobRow, r: Id)
    requires Inv(db) && r in db.sessions
    ensures SameRows(db, Inserted(db, row, parts, blob), r)
  {
    hide Inv;
    FreshId(db);
    PutElsewhere(db.parts, db.nextId, parts, r);
  }

  lemma SoundOf(db: Db, s: Id)
    requires Inv(db) && s in db.sessions
    ensures SessionSound(db, s)
  {
  }

  lemma InsertedSound(db: Db, row: SessionRow, parts: Option<seq<PartRow>>, blob: BlobRow, clock: int)
    requires Inv(db) && Insertable(db, row, parts, blob) && db.clock <= clock
    ensures SessionSound(Inserted(db, row, parts, blob).(clock := clock), db.nextId)
  {
    hide PairsOk, GenerationsOk, BlobsOk, VersionsOk, BindingsOk, MultipartSound, SingleSound, ActiveSlotFree;
    FreshId(db);
  }

  lemma InsertedPairs(db: Db, row: SessionRow, parts: Option<seq<PartRow>>, blob: BlobRow)
    requires Inv(db) && Insertable(db, row, parts, blob)
    ensures PairsOk(Inserted(db, row, parts, blob).sessions)
  {
    hide GenerationsOk, BlobsOk, VersionsOk, BindingsOk, MultipartSound, SingleSound, LeasesSound;
    FreshId(db);
    var after := Inserted(db, row, parts, blob).sessions;
    MaxGenerationBounds(db, row.blobId, db.nextId);
    forall p, q | p in after && q in after && p != q
      ensures Compatible(after[p], after[q])
    {
      if p != db.nextId && q != db.nextId {
        PairOf(db, p, q);
      } else {
        NewIsCompatible(db, row, parts, blob, if p == db.nextId then q else p);
      }
    }
  }

  lemma NewIsCompatible(db: Db, row: SessionRow, parts: Option<seq<PartRow>>, blob: BlobRow, r: Id)
    requires Inv(db) && Insertable(db, row, parts, blob) && r in db.sessions
    ensures Compatible(db.sessions[r], row) && Compatible(row, db.sessions[r])
  {
    hide PairsOk, GenerationsOk, BlobsOk, VersionsOk, BindingsOk, PlanFrozen, PartsSound, LeasesSound;
    MaxGenerationBounds(db, row.blobId, db.nextId);
    assert SessionSound(db, r);
  }

  lemma InsertedGenerations(db: Db, row: SessionRow, parts: Option<seq<PartRow>>, blob: BlobRow)
    requires Inv(db) && Insertable(db, row, parts, blob)
    ensures GenerationsOk(Inserted(db, row, parts, blob).sessions)
  {
    hide SessionsOk, PairsOk, BlobsOk, VersionsOk, BindingsOk, MultipartSound, SingleSound;
    FreshId(db);
    var after, top := Inserted(db, row, parts, blob).sessions, MaxGeneration(db, row.blobId, db.nextId);
    MaxGenerationBounds(db, row.blobId, db.nextId);
    forall s | s in after
      ensures GenerationsDense(after, s)
    {
      if after[s].frozen.Some? {
        assert s != db.nextId ==> GenerationsDense(db.sessions, s);
        forall g | 1 <= g < after[s].frozen.value.generation
          ensures GenerationExists(after, after[s].blobId, g)
        {
          if s == db.nextId {
            SmallerGenerationsExist(db.sessions, row.blobId, top, g);
          }
          assert GenerationExists(db.sessions, after[s].blobId, g);
          var r :| r in db.sessions && HasGeneration(db.sessions[r], after[s].blobId, g);
          assert r in after && HasGeneration(after[r], after[s].blobId, g);
        }
      }
    }
  }

  lemma InsertedBlobs(db: Db, row: SessionRow, parts: Option<seq<PartRow>>, blob: BlobRow)
    requires Inv(db) && Insertable(db, row, parts, blob)
    ensures BlobsOk(Inserted(db, row, parts, blob))
  {
    hide SessionsOk, PairsOk, GenerationsOk, VersionsOk, BindingsOk, MultipartSound, SingleSound, ActiveSlotFree;
    FreshId(db);
    var after := Inserted(db, row, parts, blob);
    forall b | b in after.blobs
      ensures BlobSound(after, b)
    {
      assert BlobSound(db, b);
      if after.blobs[b].state == BlobAvailable && HasMultipart(after, b) {
        var m :| m in after.sessions && after.sessions[m].blobId == b && after.sessions[m].strategy == Multipart;
        assert m in db.sessions && db.sessions[m].blobId == b && db.sessions[m].strategy == Multipart;
        var c :| c in db.sessions && IsCompletedFor(db, c, b);
        assert IsCompletedFor(after, c, b);
      }
    }
  }

  lemma InsertedAdvances(db: Db, row: SessionRow, parts: Option<seq<PartRow>>, blob: BlobRow)
    requires Inv(db) && Insertable(db, row, parts, blob)
    ensures Advances(db, Inserted(db, row, parts, blob))
  {
    hide Inv, MultipartSound, SingleSound, ActiveSlotFree;
    FreshId(db);
    var after := Inserted(db, row, parts, blob);
    forall r | r in db.parts
      ensures r in after.parts && PartsKeep(db.parts[r], after.parts[r])
    {
      PutElsewhere(db.parts, db.nextId, parts, r);
    }
  }

  lemma InsertedSessions(db: Db, row: SessionRow, parts: Option<seq<PartRow>>, blob: BlobRow, clock: int)
    requires Inv(db) && Insertable(db, row, parts, blob) && db.clock <= clock
    ensures SessionsOk(Inserted(db, row, parts, blob).(clock := clock))
  {
    hide PairsOk, GenerationsOk, BlobsOk, VersionsOk, BindingsOk, SessionSound, Insertable;
    FreshId(db);
    var mid := Inserted(db, row, parts, blob);
    var after := mid.(clock := clock);
    forall r | r in after.sessions
      ensures SessionSound(after, r)
    {
      if r == db.nextId {
        InsertedSound(db, row, parts, blob, clock);
      } else {
        OthersAfterInsertion(db, row, parts, blob, r);
        SessionSoundLater(mid, clock, mid.nextId, mid.idempotency, r);
      }
    }
  }

  /** The insertion theorem. */
  lemma InsertionKeepsInv(db: Db, row: SessionRow, parts: Option<seq<PartRow>>, blob: BlobRow, clock: int)
    requires Inv(db) && Insertable(db, row, parts, blob) && db.clock <= clock
    ensures var after := Inserted(db, row, parts, blob).(clock := clock); Inv(after) && Advances(db, after)
  {
    hide SessionsOk, PairsOk, GenerationsOk, BlobsOk, VersionsOk, Insertable, BindingSound;
    var mid := Inserted(db, row, parts, blob);
    var after := mid.(clock := clock);
    InsertedSessions(db, row, parts, blob, clock);
    InsertedPairs(db, row, parts, blob);
    InsertedGenerations(db, row, parts, blob);
    InsertedBlobs(db, row, parts, blob);
    BlobsIgnoreClock(mid, clock);
    InsertedAdvances(db, row, parts, blob);
    SameRowsAdvance(mid, after);
    AdvancesTransitive(db, mid, after);
    hide BlobAdvances, SessionsAdvance, LeasesAdvance;
    VersionsOkAfter(db, after);
    BindingsOkAfter(db, after, Key(AcceptScope, 0));
  }

  lemma BlobsIgnoreClock(db: Db, clock: int)
    requires BlobsOk(db)
    ensures BlobsOk(db.(clock := clock))
  {
    hide BlobSound;
    forall b | b in db.blobs
      ensures BlobSound(db.(clock := clock), b)
    {
      BlobSoundLater(db, clock, db.nextId, db.idempotency, b);
    }
  }
}
