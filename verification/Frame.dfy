/** Transactions write one session, its parts and leases, and perhaps its Blob.
    These lemmas lift what was shown about those rows to the whole database. */
module Frame {
  import opened Base
  import opened Guards
  import opened History
  import opened Invariant
  import opened Registry
  import opened Rows

  /** Only the rows of session `s` and its Blob, and new bindings, differ. */
  ghost predicate Touches(db: Db, after: Db, s: Id) {
    && s in db.sessions && s in after.sessions
    && after.sessions == db.sessions[s := after.sessions[s]]
    && SessionAdvances(db.sessions[s], after.sessions[s])
    && (forall r :: r in after.parts <==> r in db.parts)
    && (forall r :: r in db.parts && r != s ==> after.parts[r] == db.parts[r])
    && (s in db.parts ==> PartsKeep(db.parts[s], after.parts[s]))
    && (forall r :: r != s ==> AdmissionOf(after, r) == AdmissionOf(db, r))
    && (forall r :: r != s ==> CompletionOf(after, r) == CompletionOf(db, r))
    && (s in db.admission ==> s in after.admission && AdmissionAdvances(db.admission[s], after.admission[s], db.clock))
    && (s in db.completion ==> s in after.completion && CompletionAdvances(db.completion[s], after.completion[s], db.clock))
    && after.versions == db.versions && after.entries == db.entries && after.datasets == db.datasets
    && db.clock <= after.clock && db.nextId <= after.nextId
  }

  /** The Blob keeps its identity; its state moves only while `s` holds the
      active slot, never away from AVAILABLE, and to AVAILABLE only with `s`
      completed or without multipart history. */
  ghost predicate BlobMoves(db: Db, after: Db, s: Id) {
    s in db.sessions && s in after.sessions && db.sessions[s].blobId in db.blobs &&
    var b := db.sessions[s].blobId;
    && b in after.blobs
    && after.blobs == db.blobs[b := after.blobs[b]]
    && after.blobs[b].sha256 == db.blobs[b].sha256 && after.blobs[b].size == db.blobs[b].size
    && after.blobs[b].state != BlobVerifying
    && (after.blobs[b] != db.blobs[b] ==>
          && Active(db.sessions[s].state) && db.blobs[b].state != BlobAvailable
          && (after.blobs[b].state == BlobAvailable ==> IsCompletedFor(after, s, b) || !HasMultipart(db, b)))
  }

  /** The Blob of another session moves only while that session is closed. */
  lemma OtherSessionSound(row: SessionRow, parts: seq<PartRow>, was: BlobRow, blob: BlobRow)
    requires blob.sha256 == was.sha256 && blob.size == was.size
    requires blob != was ==> !Active(row.state) && was.state != BlobAvailable
    ensures MultipartSound(row, parts, was) ==> MultipartSound(row, parts, blob)
    ensures SingleSound(row, was) ==> SingleSound(row, blob)
  {
  }

  /** The rows `SessionSound` reads are the same, but for the Blob's state. */
  ghost predicate SameRows(db: Db, after: Db, r: Id) {
    && r in db.sessions && r in after.sessions && after.sessions[r] == db.sessions[r]
    && (r in after.parts <==> r in db.parts) && (r in db.parts ==> after.parts[r] == db.parts[r])
    && AdmissionOf(after, r) == AdmissionOf(db, r) && CompletionOf(after, r) == CompletionOf(db, r)
    && db.clock <= after.clock && db.nextId <= after.nextId
    && (db.sessions[r].versionId in db.versions ==> db.sessions[r].versionId in after.versions)
  }

  lemma SameRowsSound(db: Db, after: Db, r: Id)
    requires SameRows(db, after, r) && SessionSound(db, r) && db.sessions[r].blobId in after.blobs
    requires var was, blob := db.blobs[db.sessions[r].blobId], after.blobs[db.sessions[r].blobId];
      && blob.sha256 == was.sha256 && blob.size == was.size
      && (blob != was ==> !Active(db.sessions[r].state) && was.state != BlobAvailable)
    ensures SessionSound(after, r)
  {
    hide MultipartSound, SingleSound, AdmissionSound, CompletionSound;
    var c := db.sessions[r].blobId;
    OtherSessionSound(db.sessions[r], PartsOf(db, r), db.blobs[c], after.blobs[c]);
    assert LeasesSound(db.sessions[r], AdmissionOf(after, r), CompletionOf(after, r), after.clock, after.nextId) by {
      LeasesSoundLater(db.sessions[r], AdmissionOf(db, r), CompletionOf(db, r), db.clock, db.nextId, after.clock, after.nextId);
    }
  }

  lemma LeasesSoundLater(row: SessionRow, admission: Option<AdmissionLease>, completion: Option<CompletionLease>,
                         clock: int, nextId: Id, later: int, laterId: Id)
    requires LeasesSound(row, admission, completion, clock, nextId) && clock <= later && nextId <= laterId
    ensures LeasesSound(row, admission, completion, later, laterId)
  {
  }

  lemma LocalLater(db: Db, after: Db, s: Id, r: Id)
    requires Inv(db) && Touches(db, after, s) && BlobMoves(db, after, s) && r in db.sessions && r != s
    ensures SessionSound(after, r)
  {
    hide PairsOk, GenerationsOk, BlobsOk, VersionsOk, BindingsOk, MultipartSound, SingleSound, LeasesSound;
    hide SessionAdvances, PartsKeep, AdmissionAdvances, CompletionAdvances;
    assert SessionSound(db, r);
    var b, c := db.sessions[s].blobId, db.sessions[r].blobId;
    if c == b && after.blobs[b] != db.blobs[b] {
      PairOf(db, s, r);
    }
    SameRowsSound(db, after, r);
  }

  lemma PairOf(db: Db, s: Id, r: Id)
    requires Inv(db) && s in db.sessions && r in db.sessions && s != r
    ensures Compatible(db.sessions[s], db.sessions[r])
  {
  }

  lemma SessionsOkAfter(db: Db, after: Db, s: Id)
    requires Inv(db) && Touches(db, after, s) && BlobMoves(db, after, s) && SessionSound(after, s)
    ensures SessionsOk(after)
  {
    hide SessionSound, PairsOk, GenerationsOk, BlobsOk, VersionsOk, BindingsOk, BlobMoves;
    hide SessionAdvances, PartsKeep, AdmissionAdvances, CompletionAdvances;
    forall r | r in after.sessions
      ensures SessionSound(after, r)
    {
      if r != s {
        LocalLater(db, after, s, r);
      }
    }
    forall r | r in after.admission
      ensures r in after.sessions
    {
      assert AdmissionOf(after, r).Some?;
      assert r != s ==> AdmissionOf(db, r).Some?;
    }
    forall r | r in after.completion
      ensures r in after.sessions
    {
      assert CompletionOf(after, r).Some?;
      assert r != s ==> CompletionOf(db, r).Some?;
    }
  }

  /** Replacing one row by a later one keeps sessions of one Blob compatible. */
  lemma PairsOkAfter(sessions: map<Id, SessionRow>, s: Id, next: SessionRow)
    requires PairsOk(sessions) && s in sessions && RowKeeps(sessions[s], next)
    requires Active(next.state) ==> Active(sessions[s].state)
    requires Terminal(sessions[s].state) ==> Terminal(next.state)
    requires forall r :: r in sessions && r != s && sessions[r].blobId == next.blobId && sessions[r].frozen.Some? && next.frozen.Some? ==>
      !(next.state == Completed && sessions[r].state == Completed)
    ensures PairsOk(sessions[s := next])
  {
    var after := sessions[s := next];
    forall p, q | p in after && q in after && p != q
      ensures Compatible(after[p], after[q])
    {
      assert Compatible(sessions[p], sessions[q]);
    }
  }

  lemma GenerationsOkAfter(sessions: map<Id, SessionRow>, s: Id, next: SessionRow)
    requires GenerationsOk(sessions) && s in sessions && RowKeeps(sessions[s], next)
    ensures GenerationsOk(sessions[s := next])
  {
    var after := sessions[s := next];
    forall p | p in after
      ensures GenerationsDense(after, p)
    {
      assert GenerationsDense(sessions, p);
      if after[p].frozen.Some? {
        forall g | 1 <= g < after[p].frozen.value.generation
          ensures GenerationExists(after, after[p].blobId, g)
        {
          assert GenerationExists(sessions, sessions[p].blobId, g);
          var r :| r in sessions && HasGeneration(sessions[r], sessions[p].blobId, g);
          assert r in after && HasGeneration(after[r], after[p].blobId, g);
        }
      }
    }
  }

  lemma BlobsOkAfter(db: Db, after: Db, s: Id)
    requires Inv(db) && Touches(db, after, s) && BlobMoves(db, after, s)
    ensures BlobsOk(after)
  {
    hide SessionsOk, PairsOk, GenerationsOk, VersionsOk, BindingsOk, PartsKeep, AdmissionAdvances, CompletionAdvances;
    forall b | b in after.blobs
      ensures BlobSound(after, b)
    {
      assert b in db.blobs && BlobSound(db, b);
      if after.blobs[b].state == BlobAvailable && HasMultipart(after, b) {
        CompletedAfter(db, after, s, b);
      }
    }
  }

  lemma CompletedAfter(db: Db, after: Db, s: Id, b: Id)
    requires Touches(db, after, s) && BlobMoves(db, after, s) && b in db.blobs && BlobSound(db, b)
    requires after.blobs[b].state == BlobAvailable && HasMultipart(after, b)
    ensures HasCompleted(after, b)
  {
    hide PartsKeep, AdmissionAdvances, CompletionAdvances;
    if after.blobs[b] == db.blobs[b] {
      var m :| m in after.sessions && after.sessions[m].blobId == b && after.sessions[m].strategy == Multipart;
      assert m in db.sessions && db.sessions[m].blobId == b && db.sessions[m].strategy == Multipart;
      var c :| c in db.sessions && IsCompletedFor(db, c, b);
      assert IsCompletedFor(after, c, b);
    } else {
      var m :| m in after.sessions && after.sessions[m].blobId == b && after.sessions[m].strategy == Multipart;
      assert m in db.sessions && db.sessions[m].blobId == b && db.sessions[m].strategy == Multipart;
      assert b == db.sessions[s].blobId && IsCompletedFor(after, s, b);
    }
  }

  ghost predicate SameSize(blobs: map<Id, BlobRow>, later: map<Id, BlobRow>, b: Id) {
    b in blobs && b in later && blobs[b].size == later[b].size
  }

  lemma {:induction false} LogicalBytesSame(blobs: map<Id, BlobRow>, later: map<Id, BlobRow>, entries: seq<EntryRow>)
    requires forall i :: 0 <= i < |entries| ==> SameSize(blobs, later, entries[i].blobId)
    ensures LogicalBytes(later, entries) == LogicalBytes(blobs, entries)
  {
    if |entries| > 0 {
      LogicalBytesSame(blobs, later, entries[..|entries| - 1]);
      assert entries[|entries| - 1].blobId in blobs;
    }
  }

  lemma {:induction false} DistinctBlobsAreEntries(entries: seq<EntryRow>, i: int)
    requires 0 <= i < |DistinctBlobs(entries)|
    ensures exists k :: 0 <= k < |entries| && entries[k].blobId == DistinctBlobs(entries)[i]
  {
    if |entries| > 0 {
      var before := DistinctBlobs(entries[..|entries| - 1]);
      if i < |before| {
        DistinctBlobsAreEntries(entries[..|entries| - 1], i);
        var k :| 0 <= k < |entries| - 1 && entries[..|entries| - 1][k].blobId == before[i];
        assert entries[k].blobId == DistinctBlobs(entries)[i];
      } else {
        assert entries[|entries| - 1].blobId == DistinctBlobs(entries)[i];
      }
    }
  }

  lemma {:induction false} SumBlobSizesSame(blobs: map<Id, BlobRow>, later: map<Id, BlobRow>, ids: seq<Id>)
    requires forall i :: 0 <= i < |ids| ==> SameSize(blobs, later, ids[i])
    ensures SumBlobSizes(later, ids) == SumBlobSizes(blobs, ids)
  {
    if |ids| > 0 {
      SumBlobSizesSame(blobs, later, ids[..|ids| - 1]);
      assert SameSize(blobs, later, ids[|ids| - 1]);
    }
  }

  /** A recount depends only on the sizes of the entries' Blobs. */
  lemma RecountSame(blobs: map<Id, BlobRow>, later: map<Id, BlobRow>, entries: seq<EntryRow>)
    requires forall i :: 0 <= i < |entries| ==> SameSize(blobs, later, entries[i].blobId)
    ensures Recount(later, entries) == Recount(blobs, entries)
  {
    LogicalBytesSame(blobs, later, entries);
    var ids := DistinctBlobs(entries);
    forall i | 0 <= i < |ids|
      ensures SameSize(blobs, later, ids[i])
    {
      DistinctBlobsAreEntries(entries, i);
      var k :| 0 <= k < |entries| && entries[k].blobId == ids[i];
    }
    SumBlobSizesSame(blobs, later, ids);
  }

  /** Blobs that only advance keep every unchanged Version sound. */
  lemma VersionSoundLater(db: Db, after: Db, v: Id)
    requires v in db.versions && VersionSound(db, v) && v in after.versions && after.versions[v] == db.versions[v]
    requires v in after.entries && after.entries[v] == db.entries[v] && after.datasets == db.datasets
    requires db.nextId <= after.nextId
    requires forall b :: b in db.blobs ==> b in after.blobs && BlobAdvances(db.blobs[b], after.blobs[b])
    ensures VersionSound(after, v)
  {
    var entries := db.entries[v];
    hide SoundLines, ManifestTotals;
    forall i | 0 <= i < |entries|
      ensures SameSize(db.blobs, after.blobs, entries[i].blobId)
      ensures EntryMatches(after.blobs, entries[i], db.versions[v].manifest[i])
    {
      assert EntryMatches(db.blobs, entries[i], db.versions[v].manifest[i]);
    }
    RecountSame(db.blobs, after.blobs, entries);
    hide Recount;
  }

  lemma VersionsOkAfter(db: Db, after: Db)
    requires VersionsOk(db) && after.versions == db.versions && after.entries == db.entries
    requires after.datasets == db.datasets && db.nextId <= after.nextId
    requires forall b :: b in db.blobs ==> b in after.blobs && BlobAdvances(db.blobs[b], after.blobs[b])
    ensures VersionsOk(after)
  {
    forall v | v in after.versions
      ensures VersionSound(after, v)
    {
      assert VersionSound(db, v);
      VersionSoundLater(db, after, v);
    }
    hide VersionSound, BlobAdvances;
  }

  /** Bindings stay sound as the rows they name advance. */
  lemma BindingSoundLater(db: Db, after: Db, key: Key, row: IdempotencyRow)
    requires BindingSound(db, key, row) && SessionsAdvance(db, after) && LeasesAdvance(db, after)
    requires ContentAdvances(db, after)
    ensures BindingSound(after, key, row)
  {
    hide PartsKeep, BlobAdvances, VersionAdvances;
    match key.scope
    case ResolveScope => assert SessionAdvances(db.sessions[row.resourceId], after.sessions[row.resourceId]);
    case AcquireScope => assert AdmissionAdvances(db.admission[row.resourceId], after.admission[row.resourceId], db.clock);
    case AcceptScope => assert SessionAdvances(db.sessions[row.resourceId], after.sessions[row.resourceId]);
    case RegisterScope =>
    case PrepareScope => assert SessionAdvances(db.sessions[row.resourceId], after.sessions[row.resourceId]);
  }

  /** At most one binding is new, and it is sound. */
  ghost predicate BindsAtMost(db: Db, after: Db, key: Key) {
    && BindingsPersist(db, after)
    && (forall k :: k in after.idempotency && k !in db.idempotency ==> k == key)
    && (key in after.idempotency && key !in db.idempotency ==> BindingSound(after, key, after.idempotency[key]))
  }

  lemma BindingsOkAfter(db: Db, after: Db, key: Key)
    requires BindingsOk(db) && BindsAtMost(db, after, key)
    requires SessionsAdvance(db, after) && LeasesAdvance(db, after) && ContentAdvances(db, after)
    ensures BindingsOk(after)
  {
    forall k | k in after.idempotency
      ensures BindingSound(after, k, after.idempotency[k])
    {
      if k in db.idempotency {
        BindingSoundLater(db, after, k, db.idempotency[k]);
      }
    }
  }

  lemma TouchAdvances(db: Db, after: Db, s: Id)
    requires Touches(db, after, s) && BlobMoves(db, after, s) && BindingsPersist(db, after)
    ensures Advances(db, after)
  {
    TouchSessionsAdvance(db, after, s);
    TouchLeasesAdvance(db, after, s);
    TouchContentAdvances(db, after, s);
    hide Touches, BlobMoves, SessionsAdvance, LeasesAdvance, ContentAdvances;
    assert Touches(db, after, s);
    TouchesClock(db, after, s);
  }

  lemma TouchesClock(db: Db, after: Db, s: Id)
    requires Touches(db, after, s)
    ensures db.clock <= after.clock && db.nextId <= after.nextId && db.datasets == after.datasets
  {
  }

  lemma TouchSessionsAdvance(db: Db, after: Db, s: Id)
    requires Touches(db, after, s)
    ensures SessionsAdvance(db, after)
  {
    hide AdmissionAdvances, CompletionAdvances;
    forall r | r in db.parts
      ensures r in after.parts && PartsKeep(db.parts[r], after.parts[r])
    {
    }
  }

  lemma TouchLeasesAdvance(db: Db, after: Db, s: Id)
    requires Touches(db, after, s)
    ensures LeasesAdvance(db, after)
  {
    hide SessionAdvances, PartsKeep;
    forall r | r in db.admission
      ensures r in after.admission && AdmissionAdvances(db.admission[r], after.admission[r], db.clock)
    {
      assert r != s ==> AdmissionOf(after, r) == AdmissionOf(db, r);
    }
    forall r | r in db.completion
      ensures r in after.completion && CompletionAdvances(db.completion[r], after.completion[r], db.clock)
    {
      assert r != s ==> CompletionOf(after, r) == CompletionOf(db, r);
    }
  }

  lemma TouchContentAdvances(db: Db, after: Db, s: Id)
    requires Touches(db, after, s) && BlobMoves(db, after, s)
    ensures ContentAdvances(db, after)
  {
    hide SessionAdvances, PartsKeep, AdmissionAdvances, CompletionAdvances, HasMultipart, IsCompletedFor;
  }

  /** How the state of the touched session may relate to its siblings. */
  ghost predicate StateMoves(db: Db, after: Db, s: Id) {
    && s in db.sessions && s in after.sessions
    && (Active(after.sessions[s].state) ==> Active(db.sessions[s].state))
    && (after.sessions[s].state == Completed && db.sessions[s].state != Completed ==>
          db.sessions[s].blobId in db.blobs && db.blobs[db.sessions[s].blobId].state != BlobAvailable)
  }

  lemma NoSecondCompletion(db: Db, after: Db, s: Id, r: Id)
    requires Inv(db) && Touches(db, after, s) && StateMoves(db, after, s)
    requires r in db.sessions && r != s && db.sessions[r].blobId == db.sessions[s].blobId
    requires db.sessions[r].frozen.Some? && db.sessions[s].frozen.Some?
    ensures !(after.sessions[s].state == Completed && db.sessions[r].state == Completed)
  {
    hide PlanFrozen, PartsSound, GenerationsOk, BlobsOk, VersionsOk, BindingsOk, LeasesSound, PartsKeep;
    hide AdmissionAdvances, CompletionAdvances;
    assert SessionSound(db, r) && SessionSound(db, s);
    if db.sessions[s].state == Completed {
      PairOf(db, s, r);
    }
  }

  /** The frame theorem: a sound touch of one session keeps the invariant. */
  lemma InvAfterTouch(db: Db, after: Db, s: Id, key: Key)
    requires Inv(db) && Touches(db, after, s) && BlobMoves(db, after, s) && StateMoves(db, after, s)
    requires SessionSound(after, s) && BindsAtMost(db, after, key)
    ensures Inv(after) && Advances(db, after)
  {
    TouchAdvances(db, after, s);
    SessionsOkAfter(db, after, s);
    forall r | r in db.sessions && r != s && db.sessions[r].blobId == after.sessions[s].blobId && db.sessions[r].frozen.Some?
               && after.sessions[s].frozen.Some?
      ensures !(after.sessions[s].state == Completed && db.sessions[r].state == Completed)
    {
      NoSecondCompletion(db, after, s, r);
    }
    assert Terminal(db.sessions[s].state) ==> Terminal(after.sessions[s].state);
    PairsOkAfter(db.sessions, s, after.sessions[s]);
    GenerationsOkAfter(db.sessions, s, after.sessions[s]);
    BlobsOkAfter(db, after, s);
    VersionsOkAfter(db, after);
    BindingsOkAfter(db, after, key);
  }

  // ------------------------------------------------------------- commit checks

  /** A database that satisfies the invariant passes the deferred check. */
  lemma InvPassesCommit(db: Db, b: Id, clock: int)
    requires Inv(db) && db.clock <= clock
    ensures PublicationConsistent(db, b, clock)
  {
    hide SessionSound, PairsOk, GenerationsOk, VersionsOk, BindingsOk, HasValidCompletion, HasNonterminal, HasCompleted;
    hide RetainsOwnership;
    if b in db.blobs && HasMultipart(db, b) {
      assert BlobSound(db, b);
      if db.blobs[b].state == BlobAvailable {
        CompletionIsValid(db, b);
        NoneUnfinished(db, b);
      }
      if HasCompleted(db, b) {
        CompletedIsAvailable(db, b);
      }
      forall s | s in db.sessions
        ensures !RetainsOwnership(db, s, b, clock)
      {
        FailedOwnsNothing(db, s, b, clock);
      }
    }
  }

  lemma FailedOwnsNothing(db: Db, s: Id, b: Id, clock: int)
    requires SessionsOk(db) && s in db.sessions && db.clock <= clock
    ensures !RetainsOwnership(db, s, b, clock)
  {
    hide MultipartSound, SingleSound;
    assert SessionSound(db, s);
    assert s in db.completion ==> CompletionOf(db, s) == Some(db.completion[s]);
  }

  lemma CompletedIsAvailable(db: Db, b: Id)
    requires SessionsOk(db) && b in db.blobs && HasCompleted(db, b)
    ensures db.blobs[b].state == BlobAvailable
  {
    hide PlanFrozen, PartsSound, LeasesSound;
    var c :| c in db.sessions && IsCompletedFor(db, c, b);
    assert SessionSound(db, c);
  }

  lemma CompletionIsValid(db: Db, b: Id)
    requires SessionsOk(db) && b in db.blobs && BlobSound(db, b) && db.blobs[b].state == BlobAvailable
    requires HasMultipart(db, b)
    ensures HasValidCompletion(db, b)
  {
    hide PlanFrozen, PartsSound, LeasesSound;
    var c :| c in db.sessions && IsCompletedFor(db, c, b);
    assert SessionSound(db, c);
    assert EvidenceMatches(db.sessions[c], db.blobs[b]);
  }

  lemma NoneUnfinished(db: Db, b: Id)
    requires Inv(db) && b in db.blobs && db.blobs[b].state == BlobAvailable && HasMultipart(db, b)
    ensures !HasNonterminal(db, b)
  {
    hide PlanFrozen, PartsSound, LeasesSound, PairsOk, GenerationsOk, VersionsOk, BindingsOk;
    forall s | s in db.sessions
      ensures !(db.sessions[s].blobId == b && db.sessions[s].strategy == Multipart && Active(db.sessions[s].state))
    {
      assert SessionSound(db, s);
    }
  }
}
