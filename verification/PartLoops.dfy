/** The loops that walk a session's part rows, updating each in place. */
module PartLoops {
  import opened Base
  import opened Multipart
  import opened Rows

  /** The parts among the first `n` that newly resolve, in order. */
  function ResolvedIndexes(parts: seq<PartRow>, observations: seq<Observation>, n: nat): seq<int>
    requires n <= |parts|
  {
    if n == 0 then []
    else
      ResolvedIndexes(parts, observations, n - 1) +
      if NewlyResolved(parts[n - 1], ObservationFor(observations, parts[n - 1].number)) then [n - 1] else []
  }

  predicate IndexesOf(parts: seq<PartRow>, indexes: seq<int>) {
    forall k :: 0 <= k < |indexes| ==> 0 <= indexes[k] < |parts|
  }

  function SumOf(parts: seq<PartRow>, indexes: seq<int>): int
    requires IndexesOf(parts, indexes)
  {
    if |indexes| == 0 then 0 else SumOf(parts, indexes[..|indexes| - 1]) + parts[indexes[|indexes| - 1]].size
  }

  lemma {:induction false} ResolvedIndexesAre(parts: seq<PartRow>, observations: seq<Observation>, n: nat)
    requires n <= |parts|
    ensures var indexes := ResolvedIndexes(parts, observations, n);
      && (forall k :: 0 <= k < |indexes| ==> 0 <= indexes[k] < n)
      && (forall k, l :: 0 <= k < l < |indexes| ==> indexes[k] < indexes[l])
      && (forall i :: 0 <= i < n ==>
            (i in indexes <==> NewlyResolved(parts[i], ObservationFor(observations, parts[i].number))))
  {
    hide NewlyResolved, ObservationFor;
    if n > 0 {
      ResolvedIndexesAre(parts, observations, n - 1);
    }
  }

  lemma SumOfAppend(parts: seq<PartRow>, indexes: seq<int>, i: int)
    requires IndexesOf(parts, indexes) && 0 <= i < |parts|
    ensures SumOf(parts, indexes + [i]) == SumOf(parts, indexes) + parts[i].size
  {
    assert (indexes + [i])[..|indexes|] == indexes;
  }

  lemma InRange(parts: seq<PartRow>, observations: seq<Observation>, n: nat)
    requires n <= |parts|
    ensures IndexesOf(parts, ResolvedIndexes(parts, observations, n))
  {
    hide ResolvedIndexes;
    ResolvedIndexesAre(parts, observations, n);
  }

  lemma {:induction false} ResolvedIndexesCount(parts: seq<PartRow>, observations: seq<Observation>, n: nat)
    requires n <= |parts|
    ensures IndexesOf(parts, ResolvedIndexes(parts, observations, n))
    ensures Resolved(parts[..n], observations)
      == Reconciliation(|ResolvedIndexes(parts, observations, n)|, SumOf(parts, ResolvedIndexes(parts, observations, n)))
  {
    hide NewlyResolved, ObservationFor, IndexesOf;
    InRange(parts, observations, n);
    if n == 0 {
      assert parts[..0] == [];
    } else {
      hide SumOf;
      InRange(parts, observations, n - 1);
      ResolvedIndexesCount(parts, observations, n - 1);
      assert parts[..n][..n - 1] == parts[..n - 1] && parts[..n][n - 1] == parts[n - 1];
      var before := ResolvedIndexes(parts, observations, n - 1);
      SumOfAppend(parts, before, n - 1);
      assert before + [] == before;
    }
  }

  /** Apply the observations to every part, and collect the newly resolved ones. */
  method ApplyObservations(stored: seq<PartRow>, observations: seq<Observation>, clock: int)
    returns (rows: seq<PartRow>, resolved: seq<int>)
    ensures rows == ObserveAll(stored, observations, clock)
    ensures resolved == ResolvedIndexes(stored, observations, |stored|)
  {
    hide Observed, MismatchCode, ObservationFor;
    rows, resolved := stored, [];
    for i := 0 to |rows|
      invariant |rows| == |stored|
      invariant forall j :: i <= j < |rows| ==> rows[j] == stored[j]
      invariant forall j :: 0 <= j < i ==> rows[j] == ObserveAll(stored, observations, clock)[j]
      invariant resolved == ResolvedIndexes(stored, observations, i)
    {
      var part := rows[i];
      var observation := ObservationFor(observations, part.number);
      var listed := Observed(part, observation, clock);
      if !Agrees(part, observation) {
        listed := listed.(state := PartPending);
      } else {
        if listed.state == PartPending {
          listed := listed.(state := PartUploaded);
        }
        if part.state != PartVerified {
          resolved := resolved + [i];
        }
      }
      rows := rows[i := listed];
    }
  }

  function Verified(part: PartRow, at: Option<int>): PartRow {
    part.(state := PartVerified, verifiedAt := at)
  }

  /** Where the second flush differs from the first. */
  lemma VerifyStep(part: PartRow, observation: Option<Observation>, clock: int)
    ensures var observed := Observing(part, observation, clock);
      && observed.size == part.size
      && Reconciled(part, observation, clock) == (if NewlyResolved(part, observation) then Verified(observed, observed.listedAt) else observed)
      && Recheck(part, observation, clock) == (if Agrees(part, observation) then Verified(observed, Some(clock)) else observed)
  {
  }

  /** The rows with the indexed ones verified at the time they were listed. */
  function Stamped(rows: seq<PartRow>, indexes: seq<int>): (stamped: seq<PartRow>)
    requires IndexesOf(rows, indexes)
    ensures |stamped| == |rows|
  {
    if |indexes| == 0 then rows
    else
      var before, i := Stamped(rows, indexes[..|indexes| - 1]), indexes[|indexes| - 1];
      before[i := Verified(before[i], before[i].listedAt)]
  }

  lemma {:induction false} StampedAt(rows: seq<PartRow>, indexes: seq<int>, j: int)
    requires IndexesOf(rows, indexes) && 0 <= j < |rows|
    requires forall k, l :: 0 <= k < l < |indexes| ==> indexes[k] < indexes[l]
    ensures Stamped(rows, indexes)[j] == if j in indexes then Verified(rows[j], rows[j].listedAt) else rows[j]
  {
    if |indexes| > 0 {
      var before, i := indexes[..|indexes| - 1], indexes[|indexes| - 1];
      StampedAt(rows, before, j);
      assert indexes == before + [i];
    }
  }

  lemma StampedIsReconciled(stored: seq<PartRow>, observations: seq<Observation>, clock: int)
    ensures var resolved := ResolvedIndexes(stored, observations, |stored|);
      && IndexesOf(stored, resolved)
      && Stamped(ObserveAll(stored, observations, clock), resolved) == ReconcileAll(stored, observations, clock)
  {
    hide Observing, Reconciled, NewlyResolved, ObservationFor, Stamped, ResolvedIndexes, Verified;
    var resolved := ResolvedIndexes(stored, observations, |stored|);
    var observed := ObserveAll(stored, observations, clock);
    ResolvedIndexesAre(stored, observations, |stored|);
    assert IndexesOf(stored, resolved) && IndexesOf(observed, resolved);
    forall j | 0 <= j < |stored|
      ensures Stamped(observed, resolved)[j] == ReconcileAll(stored, observations, clock)[j]
    {
      StampedAt(observed, resolved, j);
      VerifyStep(stored[j], ObservationFor(observations, stored[j].number), clock);
    }
  }

  lemma {:induction false} StampedSizes(stored: seq<PartRow>, observations: seq<Observation>, clock: int,
                                        indexes: seq<int>, j: int)
    requires IndexesOf(stored, indexes) && 0 <= j < |stored|
    ensures Stamped(ObserveAll(stored, observations, clock), indexes)[j].size == stored[j].size
  {
    hide Observing, ObservationFor;
    if |indexes| > 0 {
      StampedSizes(stored, observations, clock, indexes[..|indexes| - 1], j);
      StampedSizes(stored, observations, clock, indexes[..|indexes| - 1], indexes[|indexes| - 1]);
    } else {
      VerifyStep(stored[j], ObservationFor(observations, stored[j].number), clock);
    }
  }

  /** Mark the newly resolved parts verified at the time they were listed. */
  method VerifyResolved(stored: seq<PartRow>, observations: seq<Observation>, clock: int, observed: seq<PartRow>,
                        resolved: seq<int>)
    returns (rows: seq<PartRow>, summary: Reconciliation)
    requires observed == ObserveAll(stored, observations, clock)
    requires resolved == ResolvedIndexes(stored, observations, |stored|)
    ensures rows == ReconcileAll(stored, observations, clock)
    ensures summary == Resolved(stored, observations)
  {
    hide ObserveAll, ReconcileAll, ObservationFor, NewlyResolved, Resolved, ResolvedIndexes;
    StampedIsReconciled(stored, observations, clock);
    ResolvedIndexesCount(stored, observations, |stored|);
    assert stored[..|stored|] == stored;
    rows := observed;
    var bytes := 0;
    for k := 0 to |resolved|
      invariant rows == Stamped(observed, resolved[..k])
      invariant bytes == SumOf(stored, resolved[..k])
    {
      var i := resolved[k];
      StampedSizes(stored, observations, clock, resolved[..k], i);
      assert resolved[..k + 1][..k] == resolved[..k];
      rows := rows[i := rows[i].(state := PartVerified, verifiedAt := rows[i].listedAt)];
      bytes := bytes + rows[i].size;
    }
    assert resolved[..|resolved|] == resolved;
    summary := Reconciliation(|resolved|, bytes);
  }

  /** Mark every agreeing part verified at the recheck's time. */
  method VerifyAgreeing(stored: seq<PartRow>, observations: seq<Observation>, clock: int, observed: seq<PartRow>)
    returns (rows: seq<PartRow>)
    requires observed == ObserveAll(stored, observations, clock)
    ensures rows == RecheckAll(stored, observations, clock)
  {
    hide Observing, ObservationFor, Agrees;
    rows := observed;
    for i := 0 to |rows|
      invariant |rows| == |stored|
      invariant forall j :: i <= j < |rows| ==> rows[j] == observed[j]
      invariant forall j :: 0 <= j < i ==> rows[j] == RecheckAll(stored, observations, clock)[j]
    {
      if Agrees(stored[i], ObservationFor(observations, stored[i].number)) {
        rows := rows[i := rows[i].(state := PartVerified, verifiedAt := Some(clock))];
      }
    }
  }
}
