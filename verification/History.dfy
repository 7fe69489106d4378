/** How the database may move from one transaction to the next: what is fenced
    off, frozen or terminal stays so. */
module History {
  import opened Guards
  import opened Rows

  /** Identity columns never change. */
  ghost predicate RowKeeps(was: SessionRow, next: SessionRow) {
    && next.blobId == was.blobId && next.versionId == was.versionId && next.strategy == was.strategy
    && next.frozen == was.frozen && next.createdAt == was.createdAt
  }

  ghost predicate SessionAdvances(was: SessionRow, next: SessionRow) {
    && RowKeeps(was, next)
    && (was.provider.Some? ==> next.provider == was.provider)
    && (Terminal(was.state) ==> next == was)
  }

  /** Epochs never decrease, one epoch keeps one owner, and a lease that has run
      out does not run again under the same epoch. */
  ghost predicate AdmissionAdvances(was: AdmissionLease, next: AdmissionLease, clock: int) {
    && was.epoch <= next.epoch
    && (next.epoch == was.epoch ==>
          && next.owner == was.owner && next.invocation == was.invocation && next.acquiredAt == was.acquiredAt
          && (was.expiresAt <= clock ==> next == was))
  }

  ghost predicate CompletionAdvances(was: CompletionLease, next: CompletionLease, clock: int) {
    && was.epoch <= next.epoch
    && (next.epoch == was.epoch ==>
          && next.owner == was.owner && next.acquiredAt == was.acquiredAt
          && (was.expiresAt <= clock ==> next == was))
  }

  ghost predicate BlobAdvances(was: BlobRow, next: BlobRow) {
    && next.sha256 == was.sha256 && next.size == was.size
    && (was.state == BlobAvailable ==> next == was)
  }

  ghost predicate VersionAdvances(was: VersionRow, next: VersionRow) {
    && VersionContentUnchanged(was, next)
    && (was.state == Ready ==> next == was)
  }

  /** Frozen part columns and stored receipts never change. */
  ghost predicate PartKeeps(was: PartRow, next: PartRow) {
    && next.number == was.number && next.offset == was.offset && next.size == was.size && next.sha256 == was.sha256
    && (was.responseEtag.Some? ==>
          next.responseEtag == was.responseEtag && next.responseChecksum == was.responseChecksum && next.responseAt == was.responseAt)
  }

  ghost predicate PartsKeep(was: seq<PartRow>, next: seq<PartRow>) {
    |next| == |was| && forall i :: 0 <= i < |was| ==> PartKeeps(was[i], next[i])
  }

  ghost predicate SessionsAdvance(db: Db, after: Db) {
    && (forall s :: s in db.sessions ==> s in after.sessions && SessionAdvances(db.sessions[s], after.sessions[s]))
    && (forall s :: s in db.parts ==> s in after.parts && PartsKeep(db.parts[s], after.parts[s]))
  }

  ghost predicate LeasesAdvance(db: Db, after: Db) {
    && (forall s :: s in db.admission ==> s in after.admission && AdmissionAdvances(db.admission[s], after.admission[s], db.clock))
    && (forall s :: s in db.completion ==> s in after.completion && CompletionAdvances(db.completion[s], after.completion[s], db.clock))
  }

  ghost predicate ContentAdvances(db: Db, after: Db) {
    && (forall b :: b in db.blobs ==> b in after.blobs && BlobAdvances(db.blobs[b], after.blobs[b]))
    && (forall v :: v in db.versions ==> v in after.versions && VersionAdvances(db.versions[v], after.versions[v]))
    && (forall v :: v in db.versions && v in db.entries ==> v in after.entries && after.entries[v] == db.entries[v])
  }

  ghost predicate BindingsPersist(db: Db, after: Db) {
    forall key :: key in db.idempotency ==> key in after.idempotency && after.idempotency[key] == db.idempotency[key]
  }

  ghost predicate Advances(db: Db, after: Db) {
    && db.clock <= after.clock && db.nextId <= after.nextId && db.datasets == after.datasets
    && SessionsAdvance(db, after)
    && LeasesAdvance(db, after)
    && ContentAdvances(db, after)
    && BindingsPersist(db, after)
  }

  lemma AdvancesReflexive(db: Db)
    ensures Advances(db, db)
  {
  }

  lemma AdvancesTransitive(db: Db, mid: Db, after: Db)
    requires Advances(db, mid) && Advances(mid, after)
    ensures Advances(db, after)
  {
    SessionsAdvanceTransitive(db, mid, after);
    LeasesAdvanceTransitive(db, mid, after);
    ContentAdvancesTransitive(db, mid, after);
  }

  lemma SessionsAdvanceTransitive(db: Db, mid: Db, after: Db)
    requires SessionsAdvance(db, mid) && SessionsAdvance(mid, after)
    ensures SessionsAdvance(db, after)
  {
    forall s | s in db.parts
      ensures s in after.parts && PartsKeep(db.parts[s], after.parts[s])
    {
      forall i | 0 <= i < |db.parts[s]|
        ensures PartKeeps(db.parts[s][i], after.parts[s][i])
      {
        assert PartKeeps(db.parts[s][i], mid.parts[s][i]) && PartKeeps(mid.parts[s][i], after.parts[s][i]);
      }
    }
  }

  lemma LeasesAdvanceTransitive(db: Db, mid: Db, after: Db)
    requires db.clock <= mid.clock && LeasesAdvance(db, mid) && LeasesAdvance(mid, after)
    ensures LeasesAdvance(db, after)
  {
  }

  lemma ContentAdvancesTransitive(db: Db, mid: Db, after: Db)
    requires ContentAdvances(db, mid) && ContentAdvances(mid, after)
    ensures ContentAdvances(db, after)
  {
  }
}
