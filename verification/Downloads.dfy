/** Issuing one download at a time, and the walk a client makes through them. */
module Downloads {
  import opened Base
  import opened Base64
  import opened Cursor
  import opened Invariant
  import opened Publication
  import opened Registry
  import opened Rows

  datatype DownloadError = Unavailable(error: Error) | NotReady | BadCursor

  datatype Capability = Capability(item: Option<ManifestLine>, nextCursor: Option<string>, complete: bool)

  /** The capability for one ordinal of a READY Version of `count` files. */
  function CapabilityAt(db: Db, v: Id, uuid: seq<Byte>, count: int, ordinal: int): Result<Capability, DownloadError>
    requires |uuid| == UUID_BYTES
  {
    if ordinal < 0 then Err(BadCursor)
    else
      match GetDownloadEntry(db, v, ordinal)
      case None => Err(BadCursor)
      case Some(entry) =>
        if ordinal + 1 >= count then Ok(Capability(Some(entry), None, true))
        else
          match EncodeCursor(uuid, ordinal + 1)
          case Err(_) => Err(BadCursor)
          case Ok(next) => Ok(Capability(Some(entry), Some(next), false))
  }

  function DownloadPlan(db: Db, v: Id, uuid: seq<Byte>, cursor: Option<string>): Result<Capability, DownloadError>
    requires |uuid| == UUID_BYTES
  {
    match GetStatus(db, v)
    case Err(error) => Err(Unavailable(error))
    case Ok(status) =>
      var count := status.version.totals.fileCount;
      if status.version.state != Ready then Err(NotReady)
      else if count == 0 then
        if cursor.Some? then Err(BadCursor) else Ok(Capability(None, None, true))
      else if cursor.None? then CapabilityAt(db, v, uuid, count, 0)
      else
        match DecodeCursor(cursor.value, uuid, count)
        case Err(_) => Err(BadCursor)
        case Ok(ordinal) => CapabilityAt(db, v, uuid, count, ordinal)
  }

  /** The cursor that stands before ordinal `k`. */
  ghost predicate StandsAt(uuid: seq<Byte>, cursor: Option<string>, k: nat)
    requires |uuid| == UUID_BYTES
  {
    if cursor.None? then k == 0 else EncodeCursor(uuid, k) == Ok(cursor.value)
  }

  /** What the plan answers at ordinal `k` of a manifest. */
  ghost predicate AnswersAt(uuid: seq<Byte>, manifest: seq<ManifestLine>, k: nat, plan: Result<Capability,
                            DownloadError>)
    requires |uuid| == UUID_BYTES && k < |manifest|
  {
    && plan.Ok? && plan.value.item == Some(manifest[k])
    && (plan.value.complete <==> k + 1 == |manifest|)
    && (plan.value.complete <==> plan.value.nextCursor.None?)
    && (!plan.value.complete ==> StandsAt(uuid, plan.value.nextCursor, k + 1))
  }

  lemma CapabilityAnswers(db: Db, v: Id, uuid: seq<Byte>, k: nat)
    requires Inv(db) && v in db.versions && |uuid| == UUID_BYTES && k < |db.versions[v].manifest| < ORDINAL_LIMIT
    ensures AnswersAt(uuid, db.versions[v].manifest, k, CapabilityAt(db, v, uuid, |db.versions[v].manifest|, k))
  {
    hide Inv, GetDownloadEntry, UrlText, Payload;
    DownloadEntryIsLine(db, v, k);
  }

  /** From the cursor of ordinal `k` the plan names line `k` and the cursor of
      `k + 1`, and is complete exactly at the last line. */
  lemma PlanAt(db: Db, v: Id, uuid: seq<Byte>, cursor: Option<string>, k: nat)
    requires Inv(db) && v in db.versions && db.versions[v].state == Ready && |uuid| == UUID_BYTES
    requires k < |db.versions[v].manifest| < ORDINAL_LIMIT && StandsAt(uuid, cursor, k)
    ensures AnswersAt(uuid, db.versions[v].manifest, k, DownloadPlan(db, v, uuid, cursor))
  {
    hide Inv, GetStatus, CapabilityAt, ManifestTotals, DecodeCursor, EncodeCursor, AnswersAt;
    ReadyIsComplete(db, v);
    StoredTotalsAreRecounts(db, v);
    FileCountIs(db.versions[v].manifest);
    CapabilityAnswers(db, v, uuid, k);
    if cursor.Some? {
      CursorBijection(cursor.value, uuid, |db.versions[v].manifest|, k);
    }
  }

  lemma FileCountIs(lines: seq<ManifestLine>)
    ensures ManifestTotals(lines).fileCount == |lines|
  {
  }

  /** What a client sees that follows the returned cursors, at most `calls` times. */
  function Walk(plan: Option<string> -> Result<Capability,
                DownloadError>, cursor: Option<string>, calls: nat): Result<seq<ManifestLine>, DownloadError>
    decreases calls
  {
    if calls == 0 then Ok([])
    else
      match plan(cursor)
      case Err(error) => Err(error)
      case Ok(capability) =>
        var seen := if capability.item.Some? then [capability.item.value] else [];
        if capability.complete then Ok(seen)
        else
          match Walk(plan, capability.nextCursor, calls - 1)
          case Err(error) => Err(error)
          case Ok(rest) => Ok(seen + rest)
  }

  /** The service answers every standing cursor of the manifest. */
  ghost predicate Serves(plan: Option<string> -> Result<Capability, DownloadError>, uuid: seq<Byte>,
                         manifest: seq<ManifestLine>)
    requires |uuid| == UUID_BYTES
  {
    forall cursor, k: nat :: k < |manifest| && StandsAt(uuid, cursor, k) ==> AnswersAt(uuid, manifest, k, plan(cursor))
  }

  function UpTo(k: nat, calls: nat, length: nat): nat {
    if k + calls < length then k + calls else length
  }

  lemma {:induction false} WalkFrom(plan: Option<string> -> Result<Capability, DownloadError>, uuid: seq<Byte>,
                                    manifest: seq<ManifestLine>,
                                    cursor: Option<string>, k: nat, calls: nat)
    requires |uuid| == UUID_BYTES && Serves(plan, uuid, manifest) && k < |manifest| && StandsAt(uuid, cursor, k)
    ensures Walk(plan, cursor, calls) == Ok(manifest[k..UpTo(k, calls, |manifest|)])
    decreases calls
  {
    hide StandsAt;
    if calls == 0 {
      assert manifest[k..k] == [];
    } else {
      assert AnswersAt(uuid, manifest, k, plan(cursor));
      var capability := plan(cursor).value;
      if capability.complete {
        assert manifest[k..UpTo(k, calls, |manifest|)] == [manifest[k]];
      } else {
        WalkFrom(plan, uuid, manifest, capability.nextCursor, k + 1, calls - 1);
        assert UpTo(k, calls, |manifest|) == UpTo(k + 1, calls - 1, |manifest|);
        assert manifest[k..UpTo(k, calls, |manifest|)] == [manifest[k]] + manifest[k + 1..UpTo(k, calls, |manifest|)];
      }
    }
  }

  /** The registry's download service for one Version. */
  function Service(db: Db, v: Id, uuid: seq<Byte>): Option<string> -> Result<Capability, DownloadError>
    requires |uuid| == UUID_BYTES
  {
    cursor => DownloadPlan(db, v, uuid, cursor)
  }

  /** Complete walk: starting without a cursor, `calls` calls see exactly the
      first `calls` lines in order, and never more than the manifest. */
  lemma WalkIsManifest(db: Db, v: Id, uuid: seq<Byte>, calls: nat)
    requires Inv(db) && v in db.versions && db.versions[v].state == Ready && |uuid| == UUID_BYTES
    requires |db.versions[v].manifest| < ORDINAL_LIMIT
    ensures var manifest := db.versions[v].manifest;
      Walk(Service(db, v, uuid), None, calls) == Ok(manifest[..UpTo(0, calls, |manifest|)])
  {
    hide Inv, DownloadPlan, AnswersAt;
    var manifest := db.versions[v].manifest;
    if |manifest| > 0 {
      forall cursor, k: nat | k < |manifest| && StandsAt(uuid, cursor, k)
        ensures AnswersAt(uuid, manifest, k, Service(db, v, uuid)(cursor))
      {
        PlanAt(db, v, uuid, cursor, k);
      }
      WalkFrom(Service(db, v, uuid), uuid, manifest, None, 0, calls);
    } else {
      EmptyPlan(db, v, uuid);
    }
  }

  lemma EmptyPlan(db: Db, v: Id, uuid: seq<Byte>)
    requires Inv(db) && v in db.versions && db.versions[v].state == Ready && |uuid| == UUID_BYTES
    requires |db.versions[v].manifest| == 0
    ensures DownloadPlan(db, v, uuid, None) == Ok(Capability(None, None, true))
  {
    hide Inv, GetStatus, ManifestTotals;
    ReadyIsComplete(db, v);
    StoredTotalsAreRecounts(db, v);
    FileCountIs(db.versions[v].manifest);
  }
}
