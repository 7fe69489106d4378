/** The registry's own answers to a push: sizes and totals are the true ones. */
module PushService {
  import opened Base
  import opened Flush
  import opened History
  import opened Invariant
  import opened Multipart
  import opened Push
  import opened Registry
  import opened Restarts
  import opened Rows
  import opened Runs
  import opened SingleSafety
  import P = PublishSafety
  import opened Publication

  // ---------------------------------------------------------------- preparation

  /** A Blob the Version references has the size of every line with its digest. */
  lemma ReferencedHasLineSize(db: Db, v: Id, sha256: string, line: ManifestLine)
    requires Inv(db) && v in db.versions && ReferencedBlob(db, EntriesOf(db, v), sha256).Some?
    requires line in db.versions[v].manifest && line.sha256 == sha256
    ensures db.blobs[ReferencedBlob(db, EntriesOf(db, v), sha256).value].size == line.size
  {
    hide Inv, ReferencedBlob, SoundLine;
    var b, lines := ReferencedBlob(db, EntriesOf(db, v), sha256).value, db.versions[v].manifest;
    VersionOf(db, v);
    ReferencedIsEntry(db, EntriesOf(db, v), sha256);
    var i :| 0 <= i < |EntriesOf(db, v)| && EntriesOf(db, v)[i].blobId == b;
    assert EntryMatches(db.blobs, db.entries[v][i], lines[i]);
    var j :| 0 <= j < |lines| && lines[j] == line;
    assert lines[i].sha256 == lines[j].sha256;
  }

  /** Entries that stand find the same Blob of a digest later. */
  lemma {:induction false} ReferencedPersists(db: Db, after: Db, entries: seq<EntryRow>, sha256: string)
    requires ContentAdvances(db, after) && forall i :: 0 <= i < |entries| ==> entries[i].blobId in db.blobs
    ensures ReferencedBlob(after, entries, sha256) == ReferencedBlob(db, entries, sha256)
  {
    if |entries| > 0 {
      ReferencedPersists(db, after, entries[..|entries| - 1], sha256);
      assert BlobAdvances(db.blobs[entries[|entries| - 1].blobId], after.blobs[entries[|entries| - 1].blobId]);
    }
  }

  /** What a preparation answers: the referenced Blob of the digest, and, under a
      fresh key, a session of that very Blob. */
  lemma PreparationAnswers(db: Db, v: Id, sha256: string, request: Id, fingerprint: Sha, at: Instants)
    requires Inv(db) && Prepare(db, v, sha256, request, fingerprint, at).Ok?
    ensures var done := Prepare(db, v, sha256, request, fingerprint, at).value;
      && v in db.versions && ReferencedBlob(db, EntriesOf(db, v), sha256) == Some(done.value.blobId)
      && done.db.blobs == db.blobs && done.db.versions == db.versions
      && (Key(PrepareScope, request) !in db.idempotency && done.value.sessionId.Some? ==>
            && done.value.sessionId.value in done.db.sessions
            && done.db.sessions[done.value.sessionId.value].blobId == done.value.blobId)
  {
    hide Inv, ReferencedBlob, PrepareNew, EntriesOf;
  }

  /** The registry asked again under the same key, after any run, answers with the
      same Blob and the same session, or with none once the Blob is AVAILABLE. */
  lemma PreparationRepeats(db: Db, v: Id, sha256: string, request: Id, fingerprint: Sha, at: Instants, run: seq<Event>,
                           again: Instants)
    requires Inv(db) && ValidInstants(db, at) && Prepare(db, v, sha256, request, fingerprint, at).Ok?
    requires Prepare(db, v, sha256, request, fingerprint, at).value.value.sessionId.Some?
    requires ValidRun(Prepare(db, v, sha256, request, fingerprint, at).value.db, run)
    ensures var first := Prepare(db, v, sha256, request, fingerprint, at).value;
      var later := After(first.db, run);
      var answer := Prepare(later, v, sha256, request, fingerprint, again);
      && answer.Ok? && answer.value.value.blobId == first.value.blobId
      && answer.value.value.sessionId ==
           if IsAvailable(later, first.value.blobId) then None else first.value.sessionId
  {
    hide Inv, Advances, Prepare, After, ValidRun, PreparedUnder, ReferencedBlob;
    var first := Prepare(db, v, sha256, request, fingerprint, at).value;
    P.PrepareSafe(db, v, sha256, request, fingerprint, at);
    PreparationAnswers(db, v, sha256, request, fingerprint, at);
    PreparedBinding(db, v, sha256, request, fingerprint, at, first.value.sessionId.value);
    RunSound(first.db, run);
    var later := After(first.db, run);
    PreparedPersists(first.db, later, v, first.value.blobId, request, fingerprint, first.value.sessionId.value);
    AdvancesTransitive(db, first.db, later);
    SameBlobLater(db, later, v, sha256);
    BoundPrepares(later, v, sha256, request, fingerprint, first.value.sessionId.value, again);
  }

  lemma SameBlobLater(db: Db, later: Db, v: Id, sha256: string)
    requires Inv(db) && Advances(db, later) && v in db.versions
    ensures v in later.versions
    ensures ReferencedBlob(later, EntriesOf(later, v), sha256) == ReferencedBlob(db, EntriesOf(db, v), sha256)
  {
    hide Inv, SessionsAdvance, LeasesAdvance, ReferencedBlob;
    VersionOf(db, v);
    forall i | 0 <= i < |EntriesOf(db, v)|
      ensures EntriesOf(db, v)[i].blobId in db.blobs
    {
      assert EntryMatches(db.blobs, db.entries[v][i], db.versions[v].manifest[i]);
    }
    ReferencedPersists(db, later, EntriesOf(db, v), sha256);
  }

  lemma BoundPrepares(db: Db, v: Id, sha256: string, request: Id, fingerprint: Sha, s: Id, at: Instants)
    requires v in db.versions && ReferencedBlob(db, EntriesOf(db, v), sha256).Some?
    requires var b := ReferencedBlob(db, EntriesOf(db, v), sha256).value;
      PreparedUnder(db, v, b, request, fingerprint, s)
    ensures var b := ReferencedBlob(db, EntriesOf(db, v), sha256).value;
      var answer := Prepare(db, v, sha256, request, fingerprint, at);
      answer.Ok? && answer.value.value == Prepared(b, if IsAvailable(db, b) then None else Some(s))
  {
    hide ReferencedBlob, References;
  }

  // ------------------------------------------------------------------- the plane

  /** The registry states behind the answers, one per request of the push. */
  datatype Service = Service(
    v: Id,
    registered: Db,
    prepared: string -> Db,
    request: string -> Id,
    fingerprint: string -> Sha,
    at: string -> Instants,
    completed: string -> Db,
    finalized: Db,
    closing: Instants)

  function RecordOf(version: VersionRow): Finalized {
    Finalized(true, version.state == Ready, version.totals.blobCount, version.totals.blobBytes)
  }

  /** The answer to one preparation. */
  ghost predicate Prepares(plane: Plane, service: Service, digest: string) {
    plane.prepare(digest).Some? ==>
      var db, preparation := service.prepared(digest), plane.prepare(digest).value;
      && Inv(db) && Advances(service.registered, db) && ValidInstants(db, service.at(digest))
      && var answer := Prepare(db, service.v, digest, service.request(digest), service.fingerprint(digest), service.at(digest));
      && answer.Ok?
      && var blob := db.blobs[answer.value.value.blobId];
      preparation == Preparation(true, blob.size, blob.state == BlobAvailable, answer.value.value.sessionId.Some?)
  }

  /** The answer to one completion tells of the Blob of the prepared session. */
  ghost predicate Completes(plane: Plane, service: Service, digest: string) {
    plane.complete(digest).Some? ==>
      var answer := Prepare(service.prepared(digest), service.v, digest, service.request(digest), service.fingerprint(digest), service.at(digest));
      && plane.prepare(digest).Some? && answer.Ok? && answer.value.value.sessionId.Some?
      && var s, db := answer.value.value.sessionId.value, service.completed(digest);
      && s in answer.value.db.sessions && answer.value.db.sessions[s].blobId == answer.value.value.blobId
      && Advances(answer.value.db, db) && s in db.sessions && db.sessions[s].blobId in db.blobs
      && plane.complete(digest).value.size == db.blobs[db.sessions[s].blobId].size
  }

  /** Every answer was given by the registry, in states that follow the one in
      which the Version was registered. */
  ghost predicate ServedBy(plane: Plane, lines: seq<ManifestLine>, service: Service) {
    && Inv(service.registered) && service.v in service.registered.versions
    && service.registered.versions[service.v].manifest == lines
    && (plane.registered.Some? ==> plane.registered.value == RecordOf(service.registered.versions[service.v]))
    && (plane.finalize.Some? ==>
          && Inv(service.finalized) && Advances(service.registered, service.finalized)
          && Finalize(service.finalized, service.v, service.closing).Ok?
          && plane.finalize.value == RecordOf(Finalize(service.finalized, service.v, service.closing).value.value))
    && forall digest :: Prepares(plane, service, digest) && Completes(plane, service, digest)
  }

  lemma TotalsPersist(db: Db, after: Db, v: Id)
    requires Inv(db) && Advances(db, after) && v in db.versions
    ensures v in after.versions && after.versions[v].totals == ManifestTotals(db.versions[v].manifest)
    ensures after.versions[v].manifest == db.versions[v].manifest
  {
    hide Inv, SessionsAdvance, LeasesAdvance, ManifestTotals;
    VersionFacts(db, v);
    assert VersionAdvances(db.versions[v], after.versions[v]);
  }

  lemma FinalizeAnswers(db: Db, v: Id, at: Instants)
    requires Finalize(db, v, at).Ok?
    ensures v in db.versions && Finalize(db, v, at).value.value.totals == db.versions[v].totals
  {
    hide PutVersion, ManifestTotals, AllAvailable, RequireSealed;
  }

  lemma {:induction false} FirstUseIsLine(lines: seq<ManifestLine>, line: ManifestLine)
    ensures line in FirstUses(lines) ==> line in lines
  {
    if |lines| > 0 {
      FirstUseIsLine(lines[..|lines| - 1], line);
    }
  }

  /** One digest: both answers carry the size of its manifest line. */
  lemma ServedSize(plane: Plane, lines: seq<ManifestLine>, service: Service, line: ManifestLine)
    requires ServedBy(plane, lines, service) && line in lines
    ensures TrueSize(plane, line)
  {
    hide Inv, Advances, Prepare, ReferencedBlob, ManifestTotals, Finalize;
    var digest := line.sha256;
    assert Prepares(plane, service, digest) && Completes(plane, service, digest);
    if plane.prepare(digest).Some? {
      var db := service.prepared(digest);
      TotalsPersist(service.registered, db, service.v);
      PreparationAnswers(db, service.v, digest, service.request(digest), service.fingerprint(digest), service.at(digest));
      ReferencedHasLineSize(db, service.v, digest, line);
      if plane.complete(digest).Some? {
        var answer := Prepare(db, service.v, digest, service.request(digest), service.fingerprint(digest), service.at(digest)).value;
        SessionBlobSize(answer.db, service.completed(digest), answer.value.sessionId.value);
      }
    }
  }

  lemma SessionBlobSize(db: Db, after: Db, s: Id)
    requires Advances(db, after) && s in db.sessions && db.sessions[s].blobId in db.blobs
    ensures s in after.sessions && after.sessions[s].blobId == db.sessions[s].blobId
    ensures after.sessions[s].blobId in after.blobs
    ensures after.blobs[after.sessions[s].blobId].size == db.blobs[db.sessions[s].blobId].size
  {
    hide LeasesAdvance, BindingsPersist;
    assert SessionAdvances(db.sessions[s], after.sessions[s]);
    assert BlobAdvances(db.blobs[db.sessions[s].blobId], after.blobs[db.sessions[s].blobId]);
  }

  /** What a push needs of a control plane holds of the registry's own answers. */
  lemma ServedTruly(plane: Plane, lines: seq<ManifestLine>, service: Service)
    requires ServedBy(plane, lines, service)
    ensures TrueSizes(plane, FirstUses(lines)) && TrueTotals(plane, lines)
  {
    hide Inv, Advances, Prepares, Completes, FirstUses, TrueSize;
    forall i | 0 <= i < |FirstUses(lines)|
      ensures TrueSize(plane, FirstUses(lines)[i])
    {
      FirstUseIsLine(lines, FirstUses(lines)[i]);
      ServedSize(plane, lines, service, FirstUses(lines)[i]);
    }
    AdvancesReflexive(service.registered);
    TotalsPersist(service.registered, service.registered, service.v);
    if plane.finalize.Some? {
      TotalsPersist(service.registered, service.finalized, service.v);
      FinalizeAnswers(service.finalized, service.v, service.closing);
    }
  }
}
