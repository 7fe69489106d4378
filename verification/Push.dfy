/** Publishing a local tree: the loop over distinct contents and its accounts. */
module Push {
  import opened Base
  import opened Registry
  import opened Rows
  import opened Weights

  datatype PushError = Conflict | Mismatch | UploadConflict | Failed

  datatype PutOutcome = PutCreated | PutExisting

  datatype Preparation = Preparation(manifestSame: bool, size: int, available: bool, session: bool)

  datatype Completion = Completion(manifestSame: bool, size: int, available: bool)

  datatype Finalized = Finalized(manifestSame: bool, ready: bool, blobCount: int, blobBytes: int)

  /** What the control plane and the transfer answer for each digest. `None`
      stands for a raised error. */
  datatype Plane = Plane(
    registered: Option<Finalized>,
    prepare: string -> Option<Preparation>,
    put: string -> Option<PutOutcome>,
    complete: string -> Option<Completion>,
    finalize: Option<Finalized>)

  /** One content resolved: how its PUT ended, or `None` if it was there, and its
      size as the control plane reports it. */
  datatype Resolution = Resolution(outcome: Option<PutOutcome>, size: int)

  datatype Kind = Scanned | Skipped | Uploading | Verified | Finalizing

  /** `path` names the file an event is about. */
  datatype Progress = Progress(kind: Kind, path: Option<string>, resolvedCount: int, resolvedBytes: int)

  datatype PushResult = PushResult(createdCount: int, createdBytes: int, reusedCount: int, reusedBytes: int)

  /** Answers carry the true sizes of the contents asked about. */
  predicate TrueSizes(plane: Plane, sources: seq<ManifestLine>) {
    forall i :: 0 <= i < |sources| ==> TrueSize(plane, sources[i])
  }

  predicate TrueSize(plane: Plane, line: ManifestLine) {
    && (plane.prepare(line.sha256).Some? ==> plane.prepare(line.sha256).value.size == line.size)
    && (plane.complete(line.sha256).Some? ==> plane.complete(line.sha256).value.size == line.size)
  }

  /** The registered and the finalized record carry the manifest's totals. */
  predicate TrueTotals(plane: Plane, lines: seq<ManifestLine>) {
    && (plane.registered.Some? ==> CountsOf(plane.registered.value, lines))
    && (plane.finalize.Some? ==> CountsOf(plane.finalize.value, lines))
  }

  predicate CountsOf(record: Finalized, lines: seq<ManifestLine>) {
    record.blobCount == |FirstUses(lines)| && record.blobBytes == SumLines(FirstUses(lines))
  }

  /** The final check of the totals. */
  function CheckTotals(record: Finalized, accounts: PushResult): Result<PushResult, PushError> {
    if accounts.createdCount + accounts.reusedCount != record.blobCount || accounts.createdBytes + accounts.reusedBytes != record.blobBytes
    then Err(Conflict)
    else Ok(accounts)
  }

  /** One content answers as a push needs. */
  predicate Resolves(plane: Plane, line: ManifestLine) {
    && plane.prepare(line.sha256).Some?
    && var preparation := plane.prepare(line.sha256).value;
    && preparation.manifestSame && preparation.size == line.size
    && (preparation.available || (preparation.session && Uploads(plane, line.sha256)))
  }

  predicate Uploads(plane: Plane, digest: string) {
    && plane.put(digest).Some?
    && plane.complete(digest).Some? && plane.complete(digest).value.manifestSame && plane.complete(digest).value.available
  }

  predicate Publishes(plane: Plane, sources: seq<ManifestLine>) {
    && (forall i :: 0 <= i < |sources| ==> Resolves(plane, sources[i]))
    && plane.finalize.Some? && plane.finalize.value.manifestSame && plane.finalize.value.ready
  }

  // ----------------------------------------------------------------- the accounts

  /** This push brought the content: it was not there, and the PUT created it. */
  predicate Brought(plane: Plane, line: ManifestLine) {
    && plane.prepare(line.sha256).Some? && !plane.prepare(line.sha256).value.available
    && plane.put(line.sha256) == Some(PutCreated)
  }

  /** The sizes of the contents this push brought, among the first `n`. */
  ghost function BroughtSizes(plane: Plane, sources: seq<ManifestLine>, n: nat): map<int, int>
    requires n <= |sources|
  {
    map i | 0 <= i < n && Brought(plane, sources[i]) :: sources[i].size
  }

  /** And of those that were there already, or that another writer created first. */
  ghost function FoundSizes(plane: Plane, sources: seq<ManifestLine>, n: nat): map<int, int>
    requires n <= |sources|
  {
    map i | 0 <= i < n && !Brought(plane, sources[i]) :: sources[i].size
  }

  /** Every content is on exactly one side of the accounts. */
  ghost predicate Accounted(plane: Plane, sources: seq<ManifestLine>, n: nat, accounts: PushResult)
    requires n <= |sources|
  {
    var brought, found := BroughtSizes(plane, sources, n), FoundSizes(plane, sources, n);
    && accounts.createdCount == |brought| && accounts.createdBytes == Total(brought)
    && accounts.reusedCount == |found| && accounts.reusedBytes == Total(found)
  }

  lemma NothingAccounted(plane: Plane, sources: seq<ManifestLine>)
    ensures Accounted(plane, sources, 0, PushResult(0, 0, 0, 0))
  {
    assert BroughtSizes(plane, sources, 0) == map[] && FoundSizes(plane, sources, 0) == map[];
  }

  function Entered(plane: Plane, line: ManifestLine, accounts: PushResult): PushResult {
    if Brought(plane, line)
    then PushResult(accounts.createdCount + 1, accounts.createdBytes + line.size, accounts.reusedCount, accounts.reusedBytes)
    else PushResult(accounts.createdCount, accounts.createdBytes, accounts.reusedCount + 1, accounts.reusedBytes + line.size)
  }

  /** One more content, entered on its side. */
  lemma AccountedStep(plane: Plane, sources: seq<ManifestLine>, n: nat, accounts: PushResult)
    requires n < |sources| && Accounted(plane, sources, n, accounts)
    ensures Accounted(plane, sources, n + 1, Entered(plane, sources[n], accounts))
  {
    hide Brought;
    var brought, found := BroughtSizes(plane, sources, n), FoundSizes(plane, sources, n);
    if Brought(plane, sources[n]) {
      assert BroughtSizes(plane, sources, n + 1) == brought[n := sources[n].size];
      assert FoundSizes(plane, sources, n + 1) == found;
      TotalGrows(brought, n, sources[n].size);
    } else {
      assert BroughtSizes(plane, sources, n + 1) == brought;
      assert FoundSizes(plane, sources, n + 1) == found[n := sources[n].size];
      TotalGrows(found, n, sources[n].size);
    }
  }

  // ---------------------------------------------------------- progress and failure

  /** The bytes of the first `n` contents. */
  function BytesBefore(sources: seq<ManifestLine>, n: nat): int
    requires n <= |sources|
  {
    SumLines(sources[..n])
  }

  /** What is reported for one content after `n` others of `bytes` bytes: one event
      if it is there already, one before and one after its upload otherwise. */
  function Handled(plane: Plane, line: ManifestLine, n: int, bytes: int): seq<Progress> {
    var preparation, path := plane.prepare(line.sha256), Some(line.path);
    if preparation.Some? && preparation.value.available then [Progress(Skipped, path, n + 1, bytes + line.size)]
    else [Progress(Kind.Uploading, path, n, bytes), Progress(Verified, path, n + 1, bytes + line.size)]
  }

  /** What is reported for the first `n` contents. */
  function Reported(plane: Plane, sources: seq<ManifestLine>, n: nat): seq<Progress>
    requires n <= |sources|
  {
    if n == 0 then []
    else Reported(plane, sources, n - 1) + Handled(plane, sources[n - 1], n - 1, BytesBefore(sources, n - 1))
  }

  /** The error of a content that does not resolve: its first answer that is wrong. */
  function Problem(plane: Plane, line: ManifestLine): PushError {
    var preparation, completion := plane.prepare(line.sha256), plane.complete(line.sha256);
    if preparation.None? then PushError.Failed
    else if !preparation.value.manifestSame then Mismatch
    else if preparation.value.size != line.size || !preparation.value.session then Conflict
    else if plane.put(line.sha256).None? || completion.None? then PushError.Failed
    else if !completion.value.manifestSame then Mismatch
    else UploadConflict
  }

  /** What a successful push reports: nothing but the scan when the Version is READY. */
  function Announced(plane: Plane, sources: seq<ManifestLine>): seq<Progress> {
    if plane.registered.Some? && plane.registered.value.ready then [Progress(Scanned, None, 0, 0)]
    else [Progress(Scanned, None, 0, 0)] + Reported(plane, sources, |sources|) + [Progress(Finalizing, None, |sources|, SumLines(sources))]
  }

  /** The error of a record that is missing, of another manifest, or not READY. */
  function RecordProblem(record: Option<Finalized>): PushError {
    if record.None? then PushError.Failed else if !record.value.manifestSame then Mismatch else Conflict
  }

  /** What is still reported for the content that does not resolve. */
  function LastReport(plane: Plane, line: ManifestLine, n: int, bytes: int): seq<Progress> {
    var preparation := plane.prepare(line.sha256);
    if preparation.Some? && preparation.value.manifestSame && preparation.value.size == line.size && preparation.value.session
    then [Progress(Kind.Uploading, Some(line.path), n, bytes)]
    else []
  }

  lemma ReportedStep(plane: Plane, sources: seq<ManifestLine>, i: nat)
    requires i < |sources|
    ensures BytesBefore(sources, i + 1) == BytesBefore(sources, i) + sources[i].size
    ensures Reported(plane, sources, i + 1) == Reported(plane, sources, i) + Handled(plane, sources[i], i, BytesBefore(sources, i))
  {
    assert sources[..i + 1][..i] == sources[..i];
  }

  lemma BytesOfAll(sources: seq<ManifestLine>)
    ensures BytesBefore(sources, |sources|) == SumLines(sources)
  {
    assert sources[..|sources|] == sources;
  }

  /** The resolution ends at the first content that does not resolve, with its error. */
  ghost predicate Halts(plane: Plane, sources: seq<ManifestLine>, error: PushError, events: seq<Progress>) {
    exists i: nat :: StopsAt(plane, sources, i)
      && error == Problem(plane, sources[i]) && events == Reported(plane, sources, i) + LastReport(plane, sources[i], i, BytesBefore(sources, i))
  }

  /** The error a push stops with and what it reported, by how far it got. */
  ghost predicate PushStops(plane: Plane, sources: seq<ManifestLine>, error: PushError, events: seq<Progress>) {
    var begun := [Progress(Scanned, None, 0, 0)];
    if plane.registered.None? || !plane.registered.value.manifestSame then
      error == RecordProblem(plane.registered) && events == begun
    else if forall i :: 0 <= i < |sources| ==> Resolves(plane, sources[i]) then
      error == RecordProblem(plane.finalize) && events == Announced(plane, sources)
    else exists rest :: Halts(plane, sources, error, rest) && events == begun + rest
  }

  /** Content `i` is the first that does not resolve. */
  predicate StopsAt(plane: Plane, sources: seq<ManifestLine>, i: nat) {
    && i < |sources| && !Resolves(plane, sources[i])
    && forall j :: 0 <= j < i ==> Resolves(plane, sources[j])
  }

  /** Where the loop stands after `n` contents. */
  ghost predicate Kept(plane: Plane, sources: seq<ManifestLine>, n: nat, accounts: PushResult, events: seq<Progress>) {
    && n <= |sources|
    && (forall j :: 0 <= j < n ==> Resolves(plane, sources[j]))
    && Accounted(plane, sources, n, accounts)
    && accounts.createdCount + accounts.reusedCount == n
    && accounts.createdBytes + accounts.reusedBytes == BytesBefore(sources, n)
    && events == Reported(plane, sources, n)
  }

  /** One content further, on its side of the accounts. */
  lemma KeptStep(plane: Plane, sources: seq<ManifestLine>, n: nat, accounts: PushResult, events: seq<Progress>)
    requires Kept(plane, sources, n, accounts, events) && n < |sources|
    ensures BytesBefore(sources, n + 1) == BytesBefore(sources, n) + sources[n].size
    ensures Resolves(plane, sources[n]) ==>
      Kept(plane, sources, n + 1, Entered(plane, sources[n], accounts), events + Handled(plane, sources[n], n, BytesBefore(sources, n)))
  {
    hide Resolves, Accounted, Brought;
    AccountedStep(plane, sources, n, accounts);
    ReportedStep(plane, sources, n);
  }

  lemma KeptAll(plane: Plane, sources: seq<ManifestLine>, accounts: PushResult, events: seq<Progress>)
    requires Kept(plane, sources, |sources|, accounts, events)
    ensures forall j :: 0 <= j < |sources| ==> Resolves(plane, sources[j])
    ensures Accounted(plane, sources, |sources|, accounts) && events == Reported(plane, sources, |sources|)
    ensures accounts.createdCount + accounts.reusedCount == |sources|
    ensures accounts.createdBytes + accounts.reusedBytes == SumLines(sources) == BytesBefore(sources, |sources|)
  {
    hide Resolves, Accounted, Reported;
    BytesOfAll(sources);
  }

  lemma KeptHalts(plane: Plane, sources: seq<ManifestLine>, n: nat, accounts: PushResult, events: seq<Progress>)
    requires Kept(plane, sources, n, accounts, events) && n < |sources|
    ensures !Resolves(plane, sources[n]) ==>
      Halts(plane, sources, Problem(plane, sources[n]), events + LastReport(plane, sources[n], n, BytesBefore(sources, n)))
  {
    hide Resolves, Problem, Reported, LastReport, Accounted;
    assert !Resolves(plane, sources[n]) ==> StopsAt(plane, sources, n);
  }

  /** The first file of every distinct content, in manifest order. */
  method Sources(files: seq<ManifestLine>) returns (sources: seq<ManifestLine>)
    ensures sources == FirstUses(files)
  {
    sources := [];
    for i := 0 to |files|
      invariant sources == FirstUses(files[..i])
    {
      assert files[..i + 1][..i] == files[..i];
      if !Uses(sources, files[i].sha256) {
        sources := sources + [files[i]];
      }
    }
    assert files[..|files|] == files;
  }

  /** Resolve one content. `resolved` and `resolvedBytes` count the contents before it. */
  method ResolveOne(plane: Plane, line: ManifestLine, resolved: int, resolvedBytes: int)
    returns (result: Result<Resolution, PushError>, events: seq<Progress>)
    requires TrueSize(plane, line)
    ensures result.Ok? <==> Resolves(plane, line)
    ensures result.Ok? ==> events == Handled(plane, line, resolved, resolvedBytes)
    ensures result.Ok? ==> (result.value.outcome == Some(PutCreated) <==> Brought(plane, line)) && result.value.size == line.size
    ensures result.Err? ==> result.error == Problem(plane, line) && events == LastReport(plane, line, resolved, resolvedBytes)
  {
    events := [];
    var preparation := plane.prepare(line.sha256);
    if preparation.None? {
      return Err(PushError.Failed), events;
    }
    if !preparation.value.manifestSame {
      return Err(Mismatch), events;
    }
    if preparation.value.size != line.size {
      return Err(Conflict), events;
    }
    if preparation.value.available {
      return Ok(Resolution(None, preparation.value.size)), [Progress(Skipped, Some(line.path), resolved + 1, resolvedBytes + preparation.value.size)];
    }
    if !preparation.value.session {
      return Err(Conflict), events;
    }
    events := [Progress(Kind.Uploading, Some(line.path), resolved, resolvedBytes)];
    var outcome := plane.put(line.sha256);
    if outcome.None? {
      return Err(PushError.Failed), events;
    }
    var completed := plane.complete(line.sha256);
    if completed.None? {
      return Err(PushError.Failed), events;
    }
    if !completed.value.manifestSame {
      return Err(Mismatch), events;
    }
    if !completed.value.available {
      return Err(UploadConflict), events;
    }
    events := events + [Progress(Verified, Some(line.path), resolved + 1, resolvedBytes + completed.value.size)];
    result := Ok(Resolution(outcome, completed.value.size));
  }

  /** Resolve every distinct content once, keeping accounts. `events` lists
      the progress reported, in order. */
  method ResolveAll(plane: Plane, sources: seq<ManifestLine>)
    returns (result: Result<PushResult, PushError>, events: seq<Progress>)
    requires TrueSizes(plane, sources)
    ensures result.Ok? <==> forall i :: 0 <= i < |sources| ==> Resolves(plane, sources[i])
    ensures result.Ok? ==> Accounted(plane, sources, |sources|, result.value)
    ensures result.Ok? ==>
      && result.value.createdCount + result.value.reusedCount == |sources|
      && result.value.createdBytes + result.value.reusedBytes == SumLines(sources)
    ensures result.Ok? ==>
      events == Reported(plane, sources, |sources|) + [Progress(Finalizing, None, |sources|, SumLines(sources))]
    ensures result.Err? ==> Halts(plane, sources, result.error, events)
  {
    var created, createdBytes, reused, reusedBytes, resolved, resolvedBytes := 0, 0, 0, 0, 0, 0;
    events := [];
    NothingAccounted(plane, sources);
    assert Kept(plane, sources, 0, PushResult(0, 0, 0, 0), []);
    hide Kept, Halts, BytesBefore, Accounted, Reported, SumLines, Resolves, Brought, Handled, LastReport, Problem;
    for i := 0 to |sources|
      invariant resolved == i && resolvedBytes == BytesBefore(sources, i)
      invariant Kept(plane, sources, i, PushResult(created, createdBytes, reused, reusedBytes), events)
    {
      var line := sources[i];
      ghost var accounts := PushResult(created, createdBytes, reused, reusedBytes);
      KeptStep(plane, sources, i, accounts, events);
      assert TrueSize(plane, line);
      var one, reported := ResolveOne(plane, line, resolved, resolvedBytes);
      if one.Err? {
        KeptHalts(plane, sources, i, accounts, events);
        return Err(one.error), events + reported;
      }
      if one.value.outcome == Some(PutCreated) {
        created, createdBytes := created + 1, createdBytes + one.value.size;
      } else {
        reused, reusedBytes := reused + 1, reusedBytes + one.value.size;
      }
      resolved, resolvedBytes := resolved + 1, resolvedBytes + one.value.size;
      events := events + reported;
    }
    KeptAll(plane, sources, PushResult(created, createdBytes, reused, reusedBytes), events);
    events := events + [Progress(Finalizing, None, resolved, resolvedBytes)];
    result := Ok(PushResult(created, createdBytes, reused, reusedBytes));
  }

  /** Progress never exceeds the unique totals. */
  predicate Within(event: Progress, sources: seq<ManifestLine>) {
    0 <= event.resolvedCount <= |sources| && 0 <= event.resolvedBytes <= SumLines(sources)
  }

  lemma {:induction false} PrefixWithin(sources: seq<ManifestLine>, n: nat)
    requires n <= |sources| && forall i :: 0 <= i < |sources| ==> sources[i].size >= 0
    ensures 0 <= SumLines(sources[..n]) <= SumLines(sources)
    decreases |sources|
  {
    if n == |sources| {
      assert sources[..n] == sources;
      if n > 0 {
        PrefixWithin(sources[..n - 1], n - 1);
        assert sources[..n - 1][..n - 1] == sources[..n - 1];
      }
    } else {
      var rest := sources[..|sources| - 1];
      assert rest[..n] == sources[..n];
      PrefixWithin(rest, n);
    }
  }

  predicate AllWithin(events: seq<Progress>, sources: seq<ManifestLine>) {
    forall e :: 0 <= e < |events| ==> Within(events[e], sources)
  }

  /** What is reported around one content stays within the totals. */
  lemma HandledWithin(plane: Plane, sources: seq<ManifestLine>, n: nat)
    requires n < |sources| && forall i :: 0 <= i < |sources| ==> sources[i].size >= 0
    ensures AllWithin(Handled(plane, sources[n], n, BytesBefore(sources, n)), sources)
    ensures AllWithin(LastReport(plane, sources[n], n, BytesBefore(sources, n)), sources)
  {
    PrefixWithin(sources, n);
    PrefixWithin(sources, n + 1);
    ReportedStep(plane, sources, n);
  }

  lemma {:induction false} ReportedWithin(plane: Plane, sources: seq<ManifestLine>, n: nat)
    requires n <= |sources| && forall i :: 0 <= i < |sources| ==> sources[i].size >= 0
    ensures AllWithin(Reported(plane, sources, n), sources)
    ensures n < |sources| ==> AllWithin(LastReport(plane, sources[n], n, BytesBefore(sources, n)), sources)
  {
    hide Handled, LastReport, BytesBefore, Within;
    if n < |sources| {
      HandledWithin(plane, sources, n);
    }
    if n > 0 {
      ReportedWithin(plane, sources, n - 1);
      HandledWithin(plane, sources, n - 1);
    }
  }

  lemma HaltsWithin(plane: Plane, sources: seq<ManifestLine>, error: PushError, events: seq<Progress>)
    requires Halts(plane, sources, error, events) && forall i :: 0 <= i < |sources| ==> sources[i].size >= 0
    ensures AllWithin(events, sources)
    ensures exists i :: 0 <= i < |sources| && !Resolves(plane, sources[i])
  {
    hide Within, Resolves, Problem;
    var i: nat :| StopsAt(plane, sources, i) && error == Problem(plane, sources[i])
      && events == Reported(plane, sources, i) + LastReport(plane, sources[i], i, BytesBefore(sources, i));
    ReportedWithin(plane, sources, i);
  }

  lemma {:induction false} FirstUsesAreLines(lines: seq<ManifestLine>)
    requires forall i :: 0 <= i < |lines| ==> lines[i].size >= 0
    ensures forall i :: 0 <= i < |FirstUses(lines)| ==> FirstUses(lines)[i].size >= 0
    ensures forall i, j :: 0 <= i < j < |FirstUses(lines)| ==> FirstUses(lines)[i].sha256 != FirstUses(lines)[j].sha256
  {
    if |lines| > 0 {
      FirstUsesAreLines(lines[..|lines| - 1]);
    }
  }

  lemma {:induction false} SourcesUse(lines: seq<ManifestLine>, sha256: string)
    ensures Uses(FirstUses(lines), sha256) <==> Uses(lines, sha256)
  {
    if |lines| > 0 {
      var before, line := lines[..|lines| - 1], lines[|lines| - 1];
      SourcesUse(before, sha256);
      SourcesUse(before, line.sha256);
      UsesOneMore(before, line, sha256);
      UsesOneMore(FirstUses(before), line, sha256);
      assert before + [line] == lines;
    }
  }

  lemma UsesOneMore(before: seq<ManifestLine>, line: ManifestLine, sha256: string)
    ensures Uses(before + [line], sha256) <==> Uses(before, sha256) || line.sha256 == sha256
  {
    var all := before + [line];
    if Uses(before, sha256) {
      var i :| 0 <= i < |before| && before[i].sha256 == sha256;
      assert all[i].sha256 == sha256;
    }
    assert all[|before|] == line;
  }

  lemma {:induction false} SourcesAreLines(lines: seq<ManifestLine>, line: ManifestLine)
    requires line in FirstUses(lines)
    ensures line in lines
  {
    if |lines| > 0 && line != lines[|lines| - 1] {
      SourcesAreLines(lines[..|lines| - 1], line);
    }
  }

  /** A line is a source exactly when no line before it has its content. */
  lemma {:induction false} SourcesAreFirst(lines: seq<ManifestLine>, i: nat)
    requires i < |lines| && forall j, k :: 0 <= j < k < |lines| ==> lines[j].path != lines[k].path
    ensures lines[i] in FirstUses(lines) <==> !Uses(lines[..i], lines[i].sha256)
  {
    hide Uses;
    var before, last := lines[..|lines| - 1], lines[|lines| - 1];
    if i < |before| {
      SourcesAreFirst(before, i);
      assert before[..i] == lines[..i] && lines[i] != last;
    } else {
      SourcesUse(before, last.sha256);
      if last in FirstUses(before) {
        SourcesAreLines(before, last);
        assert false;
      }
    }
  }

  /** Push accounting: against a control plane that reports true sizes and
      totals, each distinct content is handled once, progress stays within the
      unique totals, and a push that resolves and publishes never fails the
      final check of its totals. */
  method Run(plane: Plane, files: seq<ManifestLine>)
    returns (result: Result<PushResult, PushError>, events: seq<Progress>)
    requires SoundLines(files)
    requires TrueSizes(plane, FirstUses(files)) && TrueTotals(plane, files)
    ensures result.Ok? <==>
      && plane.registered.Some? && plane.registered.value.manifestSame
      && (plane.registered.value.ready || Publishes(plane, FirstUses(files)))
    ensures result.Ok? ==>
      && result.value.createdCount + result.value.reusedCount == |FirstUses(files)|
      && result.value.createdBytes + result.value.reusedBytes == SumLines(FirstUses(files))
    ensures result.Ok? && plane.registered.value.ready ==>
      result.value == PushResult(0, 0, |FirstUses(files)|, SumLines(FirstUses(files)))
    ensures result.Ok? && !plane.registered.value.ready ==> Accounted(plane, FirstUses(files), |FirstUses(files)|, result.value)
    ensures AllWithin(events, FirstUses(files))
    ensures result.Ok? ==> events == Announced(plane, FirstUses(files))
    ensures result.Err? ==> PushStops(plane, FirstUses(files), result.error, events)
  {
    hide Accounted, Halts, Resolves, Reported, TrueSizes, FirstUses, SumLines;
    FirstUsesAreLines(files);
    PrefixWithin(FirstUses(files), 0);
    events := [Progress(Scanned, None, 0, 0)];
    if plane.registered.None? {
      return Err(PushError.Failed), events;
    }
    var version := plane.registered.value;
    if !version.manifestSame {
      return Err(Mismatch), events;
    }
    if version.ready {
      result := CheckTotals(version, PushResult(0, 0, |FirstUses(files)|, SumLines(FirstUses(files))));
      return;
    }
    var sources := Sources(files);
    var accounts, reported := ResolveAll(plane, sources);
    events := events + reported;
    ReportedWithin(plane, sources, |sources|);
    BytesOfAll(sources);
    PrefixWithin(sources, |sources|);
    if accounts.Err? {
      HaltsWithin(plane, sources, accounts.error, reported);
      return Err(accounts.error), events;
    }
    if plane.finalize.None? {
      return Err(PushError.Failed), events;
    }
    if !plane.finalize.value.manifestSame {
      return Err(Mismatch), events;
    }
    if !plane.finalize.value.ready {
      return Err(Conflict), events;
    }
    result := CheckTotals(plane.finalize.value, accounts.value);
  }
}
