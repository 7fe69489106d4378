/** The row set one transaction writes for one session, and what must be shown
    of those rows alone for the whole database to stay sound. */
module Rewrite {
  import opened Base
  import opened Frame
  import opened Guards
  import opened History
  import opened Invariant
  import opened Rows

  datatype Write = Write(
    row: SessionRow,
    parts: Option<seq<PartRow>>,
    admission: Option<AdmissionLease>,
    completion: Option<CompletionLease>,
    blob: BlobRow)

  function PartsIn(db: Db, s: Id): Option<seq<PartRow>> {
    if s in db.parts then Some(db.parts[s]) else None
  }

  function Put<T>(rows: map<Id, T>, s: Id, row: Option<T>): map<Id, T> {
    if row.Some? then rows[s := row.value] else rows
  }

  /** The rows of session `s` and its Blob as they stand. */
  function Standing(db: Db, s: Id): Write
    requires s in db.sessions && db.sessions[s].blobId in db.blobs
  {
    Write(db.sessions[s], PartsIn(db, s), AdmissionOf(db, s), CompletionOf(db, s), db.blobs[db.sessions[s].blobId])
  }

  function Rewritten(db: Db, s: Id, w: Write): Db {
    db.(sessions := db.sessions[s := w.row],
        parts := Put(db.parts, s, w.parts),
        admission := Put(db.admission, s, w.admission),
        completion := Put(db.completion, s, w.completion),
        blobs := db.blobs[w.row.blobId := w.blob])
  }

  ghost predicate RowsSound(w: Write, clock: int, nextId: Id) {
    && (w.row.strategy == Multipart ==> w.parts.Some? && MultipartSound(w.row, w.parts.value, w.blob))
    && (w.row.strategy == SinglePut ==> w.parts.None? && SingleSound(w.row, w.blob))
    && LeasesSound(w.row, w.admission, w.completion, clock, nextId)
  }

  ghost predicate LeasesMove(was: Write, w: Write, clock: int) {
    && (was.admission.Some? ==> w.admission.Some? && AdmissionAdvances(was.admission.value, w.admission.value, clock))
    && (was.completion.Some? ==> w.completion.Some? && CompletionAdvances(was.completion.value, w.completion.value, clock))
  }

  ghost predicate PartsMove(was: Write, w: Write) {
    if was.parts.Some? then w.parts.Some? && PartsKeep(was.parts.value, w.parts.value) else w.parts.None?
  }

  ghost predicate BlobMay(was: Write, w: Write) {
    && w.blob.sha256 == was.blob.sha256 && w.blob.size == was.blob.size
    && w.blob.state != BlobVerifying
    && (w.blob != was.blob ==>
          && Active(was.row.state) && was.blob.state != BlobAvailable
          && (w.blob.state == BlobAvailable && w.row.strategy == Multipart ==> w.row.state == Completed))
    && (Active(w.row.state) ==> Active(was.row.state))
    && (w.row.state == Completed && was.row.state != Completed ==> was.blob.state != BlobAvailable)
  }

  ghost predicate RowsMove(was: Write, w: Write, clock: int) {
    && SessionAdvances(was.row, w.row)
    && PartsMove(was, w)
    && LeasesMove(was, w, clock)
    && BlobMay(was, w)
  }

  lemma PutElsewhere<T>(rows: map<Id, T>, s: Id, row: Option<T>, r: Id)
    requires r != s
    ensures r in Put(rows, s, row) <==> r in rows
    ensures r in rows ==> Put(rows, s, row)[r] == rows[r]
  {
  }

  /** The rows of every other session stand where they stood. */
  lemma RewriteTouches(db: Db, s: Id, w: Write, commit: int)
    requires s in db.sessions && db.sessions[s].blobId in db.blobs && db.clock <= commit
    requires RowsMove(Standing(db, s), w, db.clock)
    ensures Touches(db, Rewritten(db, s, w).(clock := commit), s)
  {
    hide PartsKeep, AdmissionAdvances, CompletionAdvances;
    var after := Rewritten(db, s, w).(clock := commit);
    assert PartsMove(Standing(db, s), w) && LeasesMove(Standing(db, s), w, db.clock) && SessionAdvances(db.sessions[s], w.row);
    forall r | r != s
      ensures r in after.parts <==> r in db.parts
      ensures r in db.parts ==> after.parts[r] == db.parts[r]
      ensures AdmissionOf(after, r) == AdmissionOf(db, r) && CompletionOf(after, r) == CompletionOf(db, r)
    {
      PutElsewhere(db.parts, s, w.parts, r);
      PutElsewhere(db.admission, s, w.admission, r);
      PutElsewhere(db.completion, s, w.completion, r);
    }
    assert s in after.parts <==> s in db.parts;
  }

  lemma RewriteMovesBlob(db: Db, s: Id, w: Write, commit: int)
    requires s in db.sessions && db.sessions[s].blobId in db.blobs
    requires RowsMove(Standing(db, s), w, db.clock)
    requires w.row.strategy == SinglePut && w.blob.state == BlobAvailable && w.blob != db.blobs[w.row.blobId] ==> !HasMultipart(db, w.row.blobId)
    ensures BlobMoves(db, Rewritten(db, s, w).(clock := commit), s)
    ensures StateMoves(db, Rewritten(db, s, w).(clock := commit), s)
  {
    hide LeasesMove, PartsMove, HasMultipart;
    assert BlobMay(Standing(db, s), w) && RowKeeps(db.sessions[s], w.row);
  }

  lemma RewriteSound(db: Db, s: Id, w: Write, commit: int)
    requires s in db.sessions && SessionSound(db, s) && db.clock <= commit
    requires RowsMove(Standing(db, s), w, db.clock) && RowsSound(w, commit, db.nextId)
    ensures SessionSound(Rewritten(db, s, w).(clock := commit), s)
  {
    hide MultipartSound, SingleSound, LeasesSound, AdmissionAdvances, CompletionAdvances, PartsKeep, BlobMay;
    var after := Rewritten(db, s, w).(clock := commit);
    assert PartsMove(Standing(db, s), w) && LeasesMove(Standing(db, s), w, db.clock) && RowKeeps(db.sessions[s], w.row);
    assert AdmissionOf(after, s) == w.admission;
    assert CompletionOf(after, s) == w.completion;
  }

  lemma HasBlob(db: Db, s: Id)
    requires s in db.sessions && SessionSound(db, s)
    ensures db.sessions[s].blobId in db.blobs
  {
  }

  lemma RewriteBindsNothing(db: Db, s: Id, w: Write, commit: int)
    ensures BindsAtMost(db, Rewritten(db, s, w).(clock := commit), Key(AcceptScope, 0))
  {
    hide BindingSound;
  }

  /** What is sound of the written rows is sound of the database. */
  lemma RewriteKeepsInv(db: Db, s: Id, w: Write, commit: int)
    requires Inv(db) && s in db.sessions && db.clock <= commit && SessionSound(db, s)
    requires RowsMove(Standing(db, s), w, db.clock) && RowsSound(w, commit, db.nextId)
    requires w.row.strategy == SinglePut && w.blob.state == BlobAvailable && w.blob != db.blobs[w.row.blobId] ==> !HasMultipart(db, w.row.blobId)
    ensures Inv(Rewritten(db, s, w).(clock := commit)) && Advances(db, Rewritten(db, s, w).(clock := commit))
  {
    hide *;
    HasBlob(db, s);
    RewriteTouches(db, s, w, commit);
    RewriteMovesBlob(db, s, w, commit);
    RewriteSound(db, s, w, commit);
    RewriteBindsNothing(db, s, w, commit);
    InvAfterTouch(db, Rewritten(db, s, w).(clock := commit), s, Key(AcceptScope, 0));
  }

  // ------------------------------------------- writes as the store spells them

  /** Leases and Blob written back unchanged leave only the session and parts. */
  lemma RewrittenParts(db: Db, s: Id, w: Write, row: SessionRow, rows: seq<PartRow>)
    requires s in db.sessions && db.sessions[s].blobId in db.blobs && w == Standing(db, s) && row.blobId == w.row.blobId
    requires s in db.parts
    ensures Rewritten(db, s, w.(row := row, parts := Some(rows))) ==
      db.(sessions := db.sessions[s := row], parts := db.parts[s := rows])
    ensures rows == db.parts[s] ==> db.parts[s := rows] == db.parts
  {
    assert db.blobs[w.row.blobId := w.blob] == db.blobs;
  }

  lemma RewrittenBlob(db: Db, s: Id, w: Write, row: SessionRow, blob: BlobRow)
    requires s in db.sessions && db.sessions[s].blobId in db.blobs && w == Standing(db, s) && row.blobId == w.row.blobId
    ensures Rewritten(db, s, w.(row := row, blob := blob)) ==
      db.(sessions := db.sessions[s := row], blobs := db.blobs[row.blobId := blob])
    ensures blob == w.blob ==> db.blobs[row.blobId := blob] == db.blobs
  {
  }

  lemma RewrittenAdmission(db: Db, s: Id, w: Write, row: SessionRow, lease: AdmissionLease)
    requires s in db.sessions && db.sessions[s].blobId in db.blobs && w == Standing(db, s) && row.blobId == w.row.blobId
    ensures Rewritten(db, s, w.(row := row, admission := Some(lease))) ==
      db.(sessions := db.sessions[s := row], admission := db.admission[s := lease])
    ensures row == w.row ==> db.sessions[s := row] == db.sessions
  {
    assert s in db.parts ==> db.parts[s := db.parts[s]] == db.parts;
    assert s in db.completion ==> db.completion[s := db.completion[s]] == db.completion;
    assert db.blobs[w.row.blobId := w.blob] == db.blobs;
  }

  lemma RewrittenCompletion(db: Db, s: Id, w: Write, row: SessionRow, rows: seq<PartRow>, lease: CompletionLease,
                            blob: BlobRow)
    requires s in db.sessions && db.sessions[s].blobId in db.blobs && w == Standing(db, s) && row.blobId == w.row.blobId
    requires s in db.parts
    ensures Rewritten(db, s, w.(row := row, parts := Some(rows), completion := Some(lease), blob := blob)) ==
      db.(sessions := db.sessions[s := row], parts := db.parts[s := rows],
          completion := db.completion[s := lease], blobs := db.blobs[row.blobId := blob])
    ensures row == w.row ==> db.sessions[s := row] == db.sessions
    ensures rows == db.parts[s] ==> db.parts[s := rows] == db.parts
    ensures blob == w.blob ==> db.blobs[row.blobId := blob] == db.blobs
  {
    assert s in db.admission ==> db.admission[s := db.admission[s]] == db.admission;
  }

  // ------------------------------------- time, identifiers and new bindings

  /** The same rows, later: the clock, the identifiers handed out and the
      bindings are all that grew. */
  function Later(db: Db, clock: int, nextId: Id, idempotency: map<Key, IdempotencyRow>): Db {
    db.(clock := clock, nextId := nextId, idempotency := idempotency)
  }

  lemma SessionSoundLater(db: Db, clock: int, nextId: Id, idempotency: map<Key, IdempotencyRow>, s: Id)
    requires db.clock <= clock && db.nextId <= nextId && s in db.sessions && SessionSound(db, s)
    ensures SessionSound(Later(db, clock, nextId, idempotency), s)
  {
    hide MultipartSound, SingleSound;
    var after := Later(db, clock, nextId, idempotency);
    assert AdmissionOf(after, s) == AdmissionOf(db, s) && CompletionOf(after, s) == CompletionOf(db, s);
  }

  lemma BlobSoundLater(db: Db, clock: int, nextId: Id, idempotency: map<Key, IdempotencyRow>, b: Id)
    requires db.nextId <= nextId && b in db.blobs && BlobSound(db, b)
    ensures BlobSound(Later(db, clock, nextId, idempotency), b)
  {
    var after := Later(db, clock, nextId, idempotency);
    assert HasMultipart(after, b) == HasMultipart(db, b);
    if HasCompleted(db, b) {
      var c :| c in db.sessions && IsCompletedFor(db, c, b);
      assert IsCompletedFor(after, c, b);
    }
  }

  lemma BindingSame(db: Db, clock: int, nextId: Id, idempotency: map<Key, IdempotencyRow>, key: Key, row: IdempotencyRow)
    ensures BindingSound(Later(db, clock, nextId, idempotency), key, row) == BindingSound(db, key, row)
  {
  }

  lemma InvLater(db: Db, clock: int, nextId: Id, idempotency: map<Key, IdempotencyRow>)
    requires Inv(db) && db.clock <= clock && db.nextId <= nextId
    requires forall key :: key in db.idempotency ==> key in idempotency && idempotency[key] == db.idempotency[key]
    requires forall key :: key in idempotency && key !in db.idempotency ==> BindingSound(db, key, idempotency[key])
    ensures Inv(Later(db, clock, nextId, idempotency)) && Advances(db, Later(db, clock, nextId, idempotency))
  {
    hide SessionSound, BlobSound, BindingSound, PairsOk, GenerationsOk, VersionsOk;
    var after := Later(db, clock, nextId, idempotency);
    forall s | s in after.sessions
      ensures SessionSound(after, s)
    {
      SessionSoundLater(db, clock, nextId, idempotency, s);
    }
    forall b | b in after.blobs
      ensures BlobSound(after, b)
    {
      BlobSoundLater(db, clock, nextId, idempotency, b);
    }
    VersionsOkAfter(db, after);
    forall key | key in after.idempotency
      ensures BindingSound(after, key, after.idempotency[key])
    {
      BindingSame(db, clock, nextId, idempotency, key, after.idempotency[key]);
    }
    SameRowsAdvance(db, after);
  }

  lemma SameRowsAdvance(db: Db, after: Db)
    requires after == Later(db, after.clock, after.nextId, after.idempotency) && db.clock <= after.clock
    requires db.nextId <= after.nextId
    requires BindingsPersist(db, after)
    ensures Advances(db, after)
  {
  }

  lemma InvAfterAllocation(db: Db)
    requires Inv(db)
    ensures Inv(db.(nextId := db.nextId + 1)) && Advances(db, db.(nextId := db.nextId + 1))
  {
    hide Inv, Advances, BindingSound;
    InvLater(db, db.clock, db.nextId + 1, db.idempotency);
  }

  lemma InvAfterBinding(db: Db, key: Key, row: IdempotencyRow)
    requires Inv(db) && key !in db.idempotency && BindingSound(db, key, row)
    ensures var after := db.(idempotency := db.idempotency[key := row]); Inv(after) && Advances(db, after)
  {
    hide Inv, Advances, BindingSound;
    InvLater(db, db.clock, db.nextId, db.idempotency[key := row]);
  }

  /** Time passing breaks nothing. */
  lemma InvAfterTime(db: Db, clock: int)
    requires Inv(db) && db.clock <= clock
    ensures Inv(db.(clock := clock)) && Advances(db, db.(clock := clock))
  {
    hide Inv, Advances, BindingSound;
    InvLater(db, clock, db.nextId, db.idempotency);
  }
}
