/** The guarantees of the registry, stated of every database that any run reaches
    from one holding Datasets only. */
module Guarantees {
  import opened Guards
  import opened Invariant
  import opened Multipart
  import opened Registry
  import opened Rows
  import opened Runs
  import C = Coverage
  import F = Fencing
  import P = Publication
  import Flush
  import Frame

  /** Along every run: completing and completed sessions are covered. */
  lemma AlwaysCovered(db: Db, s: Id)
    requires Reachable(db) && IsMultipart(db, s) && db.sessions[s].state in {Completing, Completed}
    ensures s in db.parts && db.sessions[s].blobId in db.blobs
    ensures forall i :: 0 <= i < |db.parts[s]| ==> C.Covered(db.parts[s][i])
    ensures C.ListedBytes(db.parts[s]) == db.blobs[db.sessions[s].blobId].size
  {
    hide Inv, Reachable, C.Covered;
    ReachableIsSound(db);
    C.CompletingIsCovered(db, s);
  }

  /** Along every run: no session has two live owners. */
  lemma NeverTwoOwners(db: Db, s: Id, t: int)
    requires Reachable(db) && db.clock <= t
    ensures !(F.LiveAdmission(db, s, t) && F.LiveCompletion(db, s, t))
  {
    hide Inv, Reachable;
    ReachableIsSound(db);
    F.OwnersExclude(db, s, t);
  }

  /** Along every run: multipart publication is proven by exactly one session, and
      the deferred check would pass for every Blob. */
  lemma AlwaysConsistent(db: Db, b: Id)
    requires Reachable(db) && b in db.blobs
    ensures PublicationConsistent(db, b, db.clock)
    ensures HasMultipart(db, b) ==>
      (db.blobs[b].state == BlobAvailable <==> exists c :: c in db.sessions && C.CompletedBy(db, b, c))
  {
    hide Inv, Reachable, PublicationConsistent, C.CompletedBy, HasMultipart;
    ReachableIsSound(db);
    Frame.InvPassesCommit(db, b, db.clock);
    if HasMultipart(db, b) {
      C.AvailableExactlyWhenCompleted(db, b);
    }
  }

  /** Along every run: READY Versions are complete, and status never contradicts
      itself. */
  lemma AlwaysHonest(db: Db, v: Id)
    requires Reachable(db) && v in db.versions
    ensures GetStatus(db, v).Ok?
    ensures db.versions[v].state == Ready ==>
      AllAvailable(db, Flush.EntriesOf(db, v)) && GetStatus(db, v).value.progress == db.versions[v].totals
  {
    hide Inv, Reachable, GetStatus, AllAvailable;
    ReachableIsSound(db);
    P.StatusIsExact(db, v);
    if db.versions[v].state == Ready {
      P.ReadyIsComplete(db, v);
    }
  }
}
