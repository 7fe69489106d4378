/** Materializing a READY Version against an arbitrary control plane. */
module Pull {
  import opened AtomicTree
  import opened Base
  import Base64
  import opened Downloads
  import opened Rows
  import C = Cursor
  import Inv = Invariant
  import opened TextOrder
  import R = Registry

  /** Whatever the other side answers: the record and manifest it resolves, and
      its reply to the n-th download request. The last four are the outcomes of
      local and transfer operations, one per ordinal where they repeat. */
  datatype World = World(
    ready: bool,
    digestMatches: bool,
    totals: Totals,
    manifest: seq<ManifestLine>,
    plan: (nat, Option<string>) -> Option<Capability>,
    canonical: bool,
    parentSafe: bool,
    opens: nat -> bool,
    delivers: nat -> bool,
    moves: bool)

  datatype PullResult = PullResult(fileCount: int, bytes: int)

  /** The reply to request `k` is acceptable for the manifest. */
  predicate Acceptable(world: World, k: nat, reply: Option<Capability>)
    requires k < |world.manifest|
  {
    && reply.Some? && reply.value.item == Some(world.manifest[k])
    && (reply.value.complete <==> k + 1 == |world.manifest|)
    && (reply.value.nextCursor.None? <==> k + 1 == |world.manifest|)
  }

  /** The cursor the client presents at ordinal `k`: the one the last reply gave. */
  function CursorAt(world: World, k: nat): Option<string> {
    if k == 0 then None
    else
      var reply := world.plan(k - 1, CursorAt(world, k - 1));
      if reply.Some? then reply.value.nextCursor else None
  }

  predicate StepSucceeds(world: World, k: nat)
    requires k < |world.manifest|
  {
    world.opens(k) && Acceptable(world, k, world.plan(k, CursorAt(world, k))) && world.delivers(k)
  }

  ghost predicate Materializes(world: World, free: bool) {
    && world.canonical && world.parentSafe && free && Placeable(world.manifest)
    && (forall k :: 0 <= k < |world.manifest| ==> StepSucceeds(world, k))
    && world.moves
  }

  /** Everything that must go right for a pull; `free` says that no download is
      active and nothing stands at the output path. */
  ghost predicate Succeeds(world: World, free: bool) {
    Announced(world) && Materializes(world, free)
  }

  /** What is checked before a download begins. */
  predicate Announced(world: World) {
    world.ready && world.digestMatches && R.ManifestTotals(world.manifest) == world.totals
  }

  ghost predicate DistinctPaths(lines: seq<ManifestLine>) {
    forall i, j :: 0 <= i < j < |lines| ==> lines[i].path != lines[j].path
  }

  /** Up to line `n` no file had to be a directory. */
  ghost predicate FreeUpTo(lines: seq<ManifestLine>, n: nat)
    requires n <= |lines|
  {
    forall i, j :: 0 <= i < n && 0 <= j < n ==> !Below(lines[j].path, lines[i].path)
  }

  lemma FreeUpToAll(lines: seq<ManifestLine>, n: nat)
    requires n <= |lines|
    ensures Placeable(lines) ==> FreeUpTo(lines, n)
    ensures FreeUpTo(lines, |lines|) ==> Placeable(lines)
  {
  }

  /** The files and directories staged for the first `n` lines. */
  lemma StagedClash(staged: Tree, lines: seq<ManifestLine>, n: nat)
    requires n < |lines| && staged.Keys == Paths(lines[..n]) && FreeUpTo(lines, n)
    ensures FreeUpTo(lines, n + 1) <==>
      !Blocked(staged, lines[n].path) && lines[n].path !in Directories(lines[..n]) + Ancestors(lines[n].path)
  {
    var path := lines[n].path;
    AncestorIsAbove(path, path);
    if Blocked(staged, path) {
      var ancestor :| ancestor in Ancestors(path) && ancestor in staged;
      var i :| 0 <= i < n && lines[..n][i].path == ancestor;
      AncestorIsAbove(path, ancestor);
      assert Below(lines[n].path, lines[i].path);
    }
    if path in Directories(lines[..n]) {
      var i :| 0 <= i < n && path in Ancestors(lines[..n][i].path);
      AncestorIsAbove(lines[i].path, path);
      assert Below(lines[i].path, lines[n].path);
    }
    if !FreeUpTo(lines, n + 1) {
      var i, j :| 0 <= i < n + 1 && 0 <= j < n + 1 && Below(lines[j].path, lines[i].path);
      AncestorIsAbove(lines[j].path, lines[i].path);
      assert i < n ==> lines[..n][i].path in Paths(lines[..n]);
      assert j < n ==> lines[..n][j] == lines[j];
    }
  }

  lemma DirectoriesGrow(lines: seq<ManifestLine>, n: nat)
    requires n < |lines|
    ensures Directories(lines[..n + 1]) == Directories(lines[..n]) + Ancestors(lines[n].path)
  {
    var before, after := lines[..n], lines[..n + 1];
    assert after[n] == lines[n];
    forall ancestor | ancestor in Directories(after)
      ensures ancestor in Directories(before) + Ancestors(lines[n].path)
    {
      var i :| 0 <= i < |after| && ancestor in Ancestors(after[i].path);
      assert i < n ==> before[i] == after[i];
    }
    forall ancestor | ancestor in Directories(before)
      ensures ancestor in Directories(after)
    {
      var i :| 0 <= i < |before| && ancestor in Ancestors(before[i].path);
      assert after[i] == before[i];
    }
    forall ancestor | ancestor in Ancestors(lines[n].path)
      ensures ancestor in Directories(after)
    {
      assert ancestor in Ancestors(after[n].path);
    }
  }

  lemma NothingStaged(lines: seq<ManifestLine>)
    ensures FreeUpTo(lines, 0) && Directories(lines[..0]) == {}
  {
  }

  /** The checks of a reply, in the order they are made. */
  lemma ReplyChecks(world: World, k: nat, reply: Option<Capability>)
    requires k < |world.manifest|
    ensures var isLast := k + 1 == |world.manifest|;
      Acceptable(world, k, reply) <==>
        && reply.Some? && reply.value.item == Some(world.manifest[k]) && reply.value.complete == isLast
        && !(isLast && reply.value.nextCursor.Some?) && !(!isLast && reply.value.nextCursor.None?)
  {
  }

  /** A staged file stands where entry `k` needs a directory. */
  ghost predicate Obstructed(lines: seq<ManifestLine>, k: nat)
    requires k < |lines|
  {
    exists i :: 0 <= i < k && Below(lines[k].path, lines[i].path)
  }

  /** Why entry `k` is not placed. */
  ghost function StepError(world: World, k: nat): TreeError
    requires k < |world.manifest|
  {
    if Obstructed(world.manifest, k) || !world.opens(k) then UnsafePath
    else if !Acceptable(world, k, world.plan(k, CursorAt(world, k))) then Mismatch
    else TransferFailed
  }

  /** Entry `k` is the first that is not placed. */
  ghost predicate StopsAt(world: World, k: nat) {
    && k < |world.manifest| && FreeUpTo(world.manifest, k) && (forall j :: 0 <= j < k ==> StepSucceeds(world, j))
    && !(StepSucceeds(world, k) && FreeUpTo(world.manifest, k + 1))
  }

  lemma BlockedIsObstructed(staged: Tree, lines: seq<ManifestLine>, k: nat)
    requires k < |lines| && staged.Keys == Paths(lines[..k])
    ensures Blocked(staged, lines[k].path) <==> Obstructed(lines, k)
  {
    if Blocked(staged, lines[k].path) {
      var ancestor :| ancestor in Ancestors(lines[k].path) && ancestor in staged;
      var i :| 0 <= i < k && lines[..k][i].path == ancestor;
      AncestorIsAbove(lines[k].path, ancestor);
    }
    if Obstructed(lines, k) {
      var i :| 0 <= i < k && Below(lines[k].path, lines[i].path);
      AncestorIsAbove(lines[k].path, lines[i].path);
      assert lines[..k][i].path in Paths(lines[..k]);
    }
  }

  /** The staging tree holds the first `k` lines, and nothing is open. */
  ghost predicate Holds(tree: AtomicTreeDownloader, lines: seq<ManifestLine>, k: nat)
    requires k <= |lines|
    reads tree
  {
    && tree.Valid() && tree.active && tree.manifest == lines && tree.prepared == map[]
    && tree.written == lines[..k] && tree.directories == Directories(lines[..k]) && FreeUpTo(lines, k)
  }

  /** One entry: open it, ask for it, check the reply, and place it. */
  method Fetch(world: World, tree: AtomicTreeDownloader, k: nat, cursor: Option<string>)
    returns (result: Result<Option<string>, TreeError>)
    requires k < |world.manifest| && Holds(tree, world.manifest, k) && cursor == CursorAt(world, k)
    modifies tree
    ensures tree.Valid() && tree.output == old(tree.output)
    ensures result.Ok? <==> StepSucceeds(world, k) && FreeUpTo(world.manifest, k + 1)
    ensures result.Ok? ==> Holds(tree, world.manifest, k + 1) && result.value == CursorAt(world, k + 1)
    ensures result.Err? ==> result.error == StepError(world, k)
  {
    hide FreeUpTo, Blocked, Directories, Ancestors, Acceptable, Obstructed;
    BlockedIsObstructed(tree.staged, world.manifest, k);
    var entry := world.manifest[k];
    StagedClash(tree.staged, world.manifest, k);
    DirectoriesGrow(world.manifest, k);
    ReplyChecks(world, k, world.plan(k, cursor));
    var token :- tree.Prepare(entry, world.opens(k));
    var reply := world.plan(k, cursor);
    if reply.None? || reply.value.item != Some(entry) {
      return Err(Mismatch);
    }
    var isLast := k + 1 == |world.manifest|;
    if reply.value.complete != isLast {
      return Err(Mismatch);
    }
    if isLast && reply.value.nextCursor.Some? {
      return Err(Mismatch);
    }
    if !isLast && reply.value.nextCursor.None? {
      return Err(Mismatch);
    }
    var placed :- tree.Write(token, entry, world.delivers(k));
    assert world.manifest[..k + 1] == world.manifest[..k] + [entry];
    result := Ok(reply.value.nextCursor);
  }

  /** Fetch every ordinal in order. */
  method FetchAll(world: World, tree: AtomicTreeDownloader) returns (result: Result<(), TreeError>)
    requires Holds(tree, world.manifest, 0)
    modifies tree
    ensures tree.Valid() && tree.output == old(tree.output)
    ensures result.Ok? <==> Placeable(world.manifest) && forall k :: 0 <= k < |world.manifest| ==> StepSucceeds(world, k)
    ensures result.Ok? ==> Holds(tree, world.manifest, |world.manifest|)
    ensures result.Err? ==> exists k: nat :: StopsAt(world, k) && result.error == StepError(world, k)
  {
    hide FreeUpTo, Placeable, Directories, StepSucceeds, CursorAt, Ancestors, Paths, StepError;
    var cursor: Option<string> := None;
    NoCursorAtZero(world);
    for k := 0 to |world.manifest|
      invariant Holds(tree, world.manifest, k) && tree.output == old(tree.output)
      invariant cursor == CursorAt(world, k)
      invariant forall j :: 0 <= j < k ==> StepSucceeds(world, j)
    {
      FreeUpToAll(world.manifest, k + 1);
      assert !(StepSucceeds(world, k) && FreeUpTo(world.manifest, k + 1)) ==> StopsAt(world, k);
      cursor :- Fetch(world, tree, k, cursor);
    }
    FreeUpToAll(world.manifest, |world.manifest|);
    result := Ok(());
  }

  /** What a materialization raises, by how far it got. */
  ghost predicate MaterializeFails(world: World, active: bool, free: bool, error: TreeError) {
    if active then error == Conflict
    else if !world.canonical then error == Mismatch
    else if !world.parentSafe then error == UnsafePath
    else if !free then error == OutputExists
    else if Placeable(world.manifest) && forall k :: 0 <= k < |world.manifest| ==> StepSucceeds(world, k) then error == OutputExists
    else exists k: nat :: StopsAt(world, k) && error == StepError(world, k)
  }

  /** Begin, fetch everything, and publish. */
  method Materialize(world: World, tree: AtomicTreeDownloader) returns (result: Result<(), TreeError>)
    requires tree.Valid()
    requires world.canonical ==> DistinctPaths(world.manifest)
    modifies tree
    ensures tree.Valid()
    ensures result.Ok? <==> Materializes(world, !old(tree.active) && old(tree.output).None?)
    ensures result.Ok? ==> !tree.active && tree.output.Some? && TreeOf(tree.output.value, world.manifest)
    ensures result.Ok? ==> tree.published == world.manifest
    ensures result.Err? ==> tree.output == old(tree.output)
    ensures result.Err? ==> MaterializeFails(world, old(tree.active), old(tree.output).None?, result.error)
  {
    var begun :- tree.Begin(world.manifest, world.canonical, world.parentSafe);
    NothingStaged(world.manifest);
    hide FreeUpTo, Placeable, Directories, StepSucceeds, Ancestors, StopsAt, StepError;
    var fetched :- FetchAll(world, tree);
    assert world.manifest[..|world.manifest|] == world.manifest;
    StagedIsTree(tree.staged, world.manifest);
    var published :- tree.Commit(world.moves);
    result := Ok(());
  }

  lemma NoCursorAtZero(world: World)
    ensures CursorAt(world, 0) == None
  {
  }

  /** Publishes exactly when everything goes right, and then the whole manifest,
      each entry written once and in order; otherwise it publishes nothing. A
      failure after the announced record was checked leaves no staging tree, not
      even that of another download found active. */
  method Run(world: World, tree: AtomicTreeDownloader) returns (result: Result<PullResult, TreeError>)
    requires tree.Valid()
    requires world.canonical ==> DistinctPaths(world.manifest)
    modifies tree
    ensures tree.Valid()
    ensures result.Ok? <==> Succeeds(world, !old(tree.active) && old(tree.output).None?)
    ensures result.Ok? ==> tree.output.Some? && TreeOf(tree.output.value, world.manifest)
    ensures result.Ok? ==> tree.published == world.manifest
    ensures result.Ok? ==> result.value == PullResult(|world.manifest|, R.SumLines(world.manifest))
    ensures result.Ok? ==> !tree.active
    ensures result.Err? ==> tree.output == old(tree.output)
    ensures result.Err? && Announced(world) ==> !tree.active && tree.staged == map[]
    ensures !Announced(world) ==> unchanged(tree)
    ensures !Announced(world) ==> result == Err(if world.ready then Mismatch else Conflict)
    ensures result.Err? && Announced(world) ==> MaterializeFails(world, old(tree.active), old(tree.output).None?, result.error)
  {
    hide MaterializeFails;
    if !world.ready {
      return Err(Conflict);
    }
    if !world.digestMatches {
      return Err(Mismatch);
    }
    if R.ManifestTotals(world.manifest) != world.totals {
      return Err(Mismatch);
    }
    var outcome := Materialize(world, tree);
    if outcome.Err? {
      tree.Abort();
      return Err(outcome.error);
    }
    result := Ok(PullResult(|world.manifest|, R.SumLines(world.manifest)));
  }

  // ------------------------------------------------------ the registry's own plane

  /** The download service of the registry, as one side of a pull. */
  ghost predicate ServedBy(world: World, db: Db, v: Id, uuid: seq<Base64.Byte>)
    requires |uuid| == C.UUID_BYTES
  {
    && v in db.versions && world.manifest == db.versions[v].manifest
    && forall k, cursor :: world.plan(k, cursor) == Reply(DownloadPlan(db, v, uuid, cursor))
  }

  function Reply(result: Result<Capability, DownloadError>): Option<Capability> {
    match result
    case Ok(capability) => Some(capability)
    case Err(_) => None
  }

  /** A READY Version serves every request of a pull acceptably. */
  lemma {:induction false} ServedAcceptably(world: World, db: Db, v: Id, uuid: seq<Base64.Byte>, k: nat)
    requires Inv.Inv(db) && |uuid| == C.UUID_BYTES && ServedBy(world, db, v, uuid) && db.versions[v].state == Ready
    requires k < |world.manifest| < C.ORDINAL_LIMIT
    ensures StandsAt(uuid, CursorAt(world, k), k) && Acceptable(world, k, world.plan(k, CursorAt(world, k)))
  {
    hide Inv.Inv, DownloadPlan, StandsAt, AnswersAt, Acceptable;
    if k > 0 {
      ServedAcceptably(world, db, v, uuid, k - 1);
      PlanAt(db, v, uuid, CursorAt(world, k - 1), k - 1);
      AnswerIsAcceptable(world, uuid, k - 1, DownloadPlan(db, v, uuid, CursorAt(world, k - 1)));
    } else {
      NoCursorStandsAtZero(uuid);
    }
    PlanAt(db, v, uuid, CursorAt(world, k), k);
    AnswerIsAcceptable(world, uuid, k, DownloadPlan(db, v, uuid, CursorAt(world, k)));
  }

  lemma NoCursorStandsAtZero(uuid: seq<Base64.Byte>)
    requires |uuid| == C.UUID_BYTES
    ensures StandsAt(uuid, None, 0)
  {
  }

  /** An answer of the registry is one the client accepts, and moves it on. */
  lemma AnswerIsAcceptable(world: World, uuid: seq<Base64.Byte>, k: nat, plan: Result<Capability, DownloadError>)
    requires |uuid| == C.UUID_BYTES && k < |world.manifest| && AnswersAt(uuid, world.manifest, k, plan)
    ensures Reply(plan).Some? && Acceptable(world, k, Reply(plan))
    ensures k + 1 < |world.manifest| ==> StandsAt(uuid, Reply(plan).value.nextCursor, k + 1)
  {
    hide StandsAt;
  }
}
