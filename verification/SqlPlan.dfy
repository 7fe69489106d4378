/** The aggregate test the database runs over unordered part rows. */
module SqlPlan {
  import opened PartRanges
  import opened Sorting

  predicate ByNumber(left: Range, right: Range) {
    left.number <= right.number
  }

  ghost predicate DistinctNumbers(rows: seq<Range>) {
    forall i, j :: 0 <= i < j < |rows| ==> rows[i].number != rows[j].number
  }

  ghost predicate StrictlyNumbered(rows: seq<Range>) {
    forall i, j :: 0 <= i < j < |rows| ==> rows[i].number < rows[j].number
  }

  function MinNumber(rows: seq<Range>): int
    requires |rows| > 0
  {
    if |rows| == 1 then rows[0].number
    else
      var rest := MinNumber(rows[1..]);
      if rows[0].number < rest then rows[0].number else rest
  }

  function MaxNumber(rows: seq<Range>): int
    requires |rows| > 0
  {
    if |rows| == 1 then rows[0].number
    else
      var rest := MaxNumber(rows[1..]);
      if rows[0].number > rest then rows[0].number else rest
  }

  /** The row filter that counts invalid ranges. */
  predicate InvalidRow(blobSize: int, partSize: int, planned: int, row: Range) {
    || row.number < 1
    || row.number > planned
    || row.offset != (row.number - 1) * partSize
    || (row.number < planned && row.size != partSize)
    || (row.number == planned && row.size != blobSize - row.offset)
  }

  function CountInvalid(blobSize: int, partSize: int, planned: int, rows: seq<Range>): nat {
    if |rows| == 0 then 0
    else
      CountInvalid(blobSize, partSize, planned, rows[1..]) +
      if InvalidRow(blobSize, partSize, planned, rows[0]) then 1 else 0
  }

  predicate SummaryAccepted(blobSize: int, partSize: int, planned: int) {
    && MAX_SINGLE_PUT_BYTES < blobSize <= MAX_MULTIPART_BLOB_BYTES
    && partSize == PartSizeFor(blobSize)
    && planned == PartCount(blobSize)
  }

  /** The whole range part of the trigger: summary columns, then count, byte
      total, extreme numbers and the per-row formula over the stored rows. */
  predicate SqlAccepts(blobSize: int, partSize: int, planned: int, rows: seq<Range>) {
    && SummaryAccepted(blobSize, partSize, planned)
    && |rows| == planned
    && SumSizes(rows) == blobSize
    && (|rows| > 0 ==> MinNumber(rows) == 1 && MaxNumber(rows) == planned)
    && CountInvalid(blobSize, partSize, planned, rows) == 0
  }

  lemma ByNumberTotal()
    ensures TotalPreorder(ByNumber)
  {
  }

  lemma {:induction false} NoInvalidRows(blobSize: int, partSize: int, planned: int, rows: seq<Range>)
    ensures CountInvalid(blobSize, partSize, planned, rows) == 0
      <==> forall i :: 0 <= i < |rows| ==> !InvalidRow(blobSize, partSize, planned, rows[i])
  {
    if |rows| > 0 {
      NoInvalidRows(blobSize, partSize, planned, rows[1..]);
      assert forall i :: 1 <= i < |rows| ==> rows[i] == rows[1..][i - 1];
    }
  }

  lemma {:induction false} ExtremeNumbers(rows: seq<Range>)
    requires |rows| > 0
    ensures forall i :: 0 <= i < |rows| ==> MinNumber(rows) <= rows[i].number <= MaxNumber(rows)
    ensures exists i :: 0 <= i < |rows| && rows[i].number == MinNumber(rows)
    ensures exists i :: 0 <= i < |rows| && rows[i].number == MaxNumber(rows)
  {
    if |rows| == 1 {
      assert rows[0].number == MinNumber(rows) == MaxNumber(rows);
    } else {
      var tail := rows[1..];
      ExtremeNumbers(tail);
      var lo :| 0 <= lo < |tail| && tail[lo].number == MinNumber(tail);
      var hi :| 0 <= hi < |tail| && tail[hi].number == MaxNumber(tail);
      assert rows[lo + 1] == tail[lo] && rows[hi + 1] == tail[hi];
      assert rows[0].number == MinNumber(rows) || rows[lo + 1].number == MinNumber(rows);
      assert rows[0].number == MaxNumber(rows) || rows[hi + 1].number == MaxNumber(rows);
      assert forall i :: 1 <= i < |rows| ==> rows[i] == tail[i - 1];
    }
  }

  /** Increasing distinct numbers drawn from 1..n, n of them, are 1..n in order. */
  lemma {:induction false} CountingUp(rows: seq<Range>, n: int, i: int)
    requires |rows| == n && 0 <= i < n
    requires StrictlyNumbered(rows)
    requires forall j :: 0 <= j < n ==> 1 <= rows[j].number <= n
    ensures rows[i].number == i + 1
  {
    AtLeastIndex(rows, n, i);
    AtMostIndex(rows, n, i);
  }

  lemma {:induction false} AtLeastIndex(rows: seq<Range>, n: int, i: int)
    requires |rows| == n && 0 <= i < n
    requires StrictlyNumbered(rows)
    requires forall j :: 0 <= j < n ==> 1 <= rows[j].number <= n
    ensures rows[i].number >= i + 1
  {
    if i > 0 {
      AtLeastIndex(rows, n, i - 1);
    }
  }

  lemma {:induction false} AtMostIndex(rows: seq<Range>, n: int, i: int)
    requires |rows| == n && 0 <= i < n
    requires StrictlyNumbered(rows)
    requires forall j :: 0 <= j < n ==> 1 <= rows[j].number <= n
    ensures rows[i].number <= i + 1
    decreases n - i
  {
    if i + 1 < n {
      AtMostIndex(rows, n, i + 1);
    }
  }

  lemma DistinctDiscriminates(rows: seq<Range>)
    requires DistinctNumbers(rows)
    ensures Discriminates(ByNumber, multiset(rows))
  {
    forall x, y | x in multiset(rows) && y in multiset(rows) && x.number == y.number
      ensures x == y
    {
      var i :| 0 <= i < |rows| && rows[i] == x;
      var j :| 0 <= j < |rows| && rows[j] == y;
    }
  }

  /** Distinctness survives sorting and turns into strict growth. */
  lemma SortedDistinct(rows: seq<Range>)
    requires DistinctNumbers(rows)
    ensures StrictlyNumbered(Sort(ByNumber, rows))
  {
    var s := Sort(ByNumber, rows);
    ByNumberTotal();
    SortSorts(ByNumber, rows);
    DistinctDiscriminates(rows);
    OncePerRow(rows);
    forall i, j | 0 <= i < j < |s|
      ensures s[i].number < s[j].number
    {
      assert s[i] in multiset(s) && s[j] in multiset(s);
      if s[i].number == s[j].number {
        TwiceCounts(s, i, j);
        assert false;
      }
    }
  }

  lemma {:induction false} OncePerRow(rows: seq<Range>)
    requires DistinctNumbers(rows)
    ensures forall x :: x in multiset(rows) ==> multiset(rows)[x] == 1
  {
    if |rows| > 0 {
      assert rows == [rows[0]] + rows[1..];
      OncePerRow(rows[1..]);
      assert rows[0] !in rows[1..];
    }
  }

  lemma TwiceCounts(s: seq<Range>, i: int, j: int)
    requires 0 <= i < j < |s| && s[i] == s[j]
    ensures multiset(s)[s[i]] >= 2
  {
    assert s == s[..i] + [s[i]] + s[i + 1..j] + [s[j]] + s[j + 1..];
  }

  lemma {:induction false} SumSizesMultiset(left: seq<Range>, right: seq<Range>)
    requires multiset(left) == multiset(right)
    ensures SumSizes(left) == SumSizes(right)
    decreases |left|
  {
    assert |left| == |multiset(left)| == |multiset(right)| == |right|;
    if |left| > 0 {
      var n := |left| - 1;
      var last := left[n];
      assert left == left[..n] + [last];
      assert last in multiset(right);
      var k :| 0 <= k < |right| && right[k] == last;
      assert right == right[..k] + [last] + right[k + 1..];
      var rest := right[..k] + right[k + 1..];
      assert multiset(rest) == multiset(right) - multiset{last};
      SumSizesMultiset(left[..n], rest);
      SumSizesSplit(right, k);
    }
  }

  lemma {:induction false} SumSizesSplit(s: seq<Range>, k: int)
    requires 0 <= k < |s|
    ensures SumSizes(s) == SumSizes(s[..k] + s[k + 1..]) + s[k].size
    decreases |s|
  {
    var n := |s| - 1;
    if k < n {
      SumSizesSplit(s[..n], k);
      assert s[..n][..k] + s[..n][k + 1..] == (s[..k] + s[k + 1..])[..n - 1];
      assert (s[..k] + s[k + 1..])[n - 1] == s[n];
    } else {
      assert s[..k] + s[k + 1..] == s[..n];
    }
  }

  /** Aggregates do not depend on the order in which rows are stored. */
  lemma AggregateOrderFree(blobSize: int, partSize: int, planned: int, left: seq<Range>, right: seq<Range>)
    requires multiset(left) == multiset(right)
    ensures SqlAccepts(blobSize, partSize, planned, left) ==> SqlAccepts(blobSize, partSize, planned, right)
  {
    if SqlAccepts(blobSize, partSize, planned, left) {
      assert |left| == |multiset(left)| == |multiset(right)| == |right|;
      SumSizesMultiset(left, right);
      NoInvalidRows(blobSize, partSize, planned, left);
      NoInvalidRows(blobSize, partSize, planned, right);
      forall i | 0 <= i < |right|
        ensures !InvalidRow(blobSize, partSize, planned, right[i])
      {
        assert right[i] in multiset(left);
      }
      if |left| > 0 {
        SameExtremes(left, right);
      }
    }
  }

  lemma SameExtremes(left: seq<Range>, right: seq<Range>)
    requires multiset(left) == multiset(right) && |left| > 0 && |right| > 0
    ensures MinNumber(left) == MinNumber(right) && MaxNumber(left) == MaxNumber(right)
  {
    ExtremeNumbers(left);
    ExtremeNumbers(right);
    var a :| 0 <= a < |left| && left[a].number == MinNumber(left);
    var b :| 0 <= b < |right| && right[b].number == MinNumber(right);
    var c :| 0 <= c < |left| && left[c].number == MaxNumber(left);
    var d :| 0 <= d < |right| && right[d].number == MaxNumber(right);
    assert left[a] in multiset(right) && left[c] in multiset(right);
    assert right[b] in multiset(left) && right[d] in multiset(left);
  }

  /** The aggregate test accepts a set of uniquely numbered rows exactly when
      the rows, put in number order, are the generated boundaries. */
  lemma AggregateIsGenerator(blobSize: int, rows: seq<Range>)
    requires MAX_SINGLE_PUT_BYTES < blobSize <= MAX_MULTIPART_BLOB_BYTES && DistinctNumbers(rows)
    ensures SqlAccepts(blobSize, PartSizeFor(blobSize), PartCount(blobSize), rows)
      <==> Sort(ByNumber, rows) == Boundaries(blobSize)
  {
    var partSize, n, s := PartSizeFor(blobSize), PartCount(blobSize), Sort(ByNumber, rows);
    assert multiset(s) == multiset(rows);
    BoundariesSatisfyAggregate(blobSize);
    AggregateOrderFree(blobSize, partSize, n, s, rows);
    AggregateOrderFree(blobSize, partSize, n, rows, s);
    SortedDistinct(rows);
    if s != Boundaries(blobSize) {
      AggregateForcesBoundaries(blobSize, s);
    }
  }

  lemma AggregateForcesBoundaries(blobSize: int, s: seq<Range>)
    requires MAX_SINGLE_PUT_BYTES < blobSize <= MAX_MULTIPART_BLOB_BYTES
    requires StrictlyNumbered(s)
    requires s != Boundaries(blobSize)
    ensures !SqlAccepts(blobSize, PartSizeFor(blobSize), PartCount(blobSize), s)
  {
    if SqlAccepts(blobSize, PartSizeFor(blobSize), PartCount(blobSize), s) {
      AcceptedRowsAreBoundaries(blobSize, s);
      assert false;
    }
  }

  lemma AcceptedRowsAreBoundaries(blobSize: int, s: seq<Range>)
    requires SqlAccepts(blobSize, PartSizeFor(blobSize), PartCount(blobSize), s)
    requires StrictlyNumbered(s)
    ensures s == Boundaries(blobSize)
  {
    var partSize, n := PartSizeFor(blobSize), PartCount(blobSize);
    NoInvalidRows(blobSize, partSize, n, s);
    PartSizeIsLeast(blobSize);
    CeilDivBounds(blobSize, partSize);
    forall i | 0 <= i < n
      ensures s[i] == Boundary(blobSize, i)
    {
      assert forall j :: 0 <= j < n ==> !InvalidRow(blobSize, partSize, n, s[j]);
      CountingUp(s, n, i);
      CellArithmetic(partSize, n, i, blobSize, blobSize - (n - 1) * partSize);
    }
  }

  lemma BoundariesSatisfyAggregate(blobSize: int)
    requires MAX_SINGLE_PUT_BYTES < blobSize <= MAX_MULTIPART_BLOB_BYTES
    ensures SqlAccepts(blobSize, PartSizeFor(blobSize), PartCount(blobSize), Boundaries(blobSize))
  {
    var partSize, n, s := PartSizeFor(blobSize), PartCount(blobSize), Boundaries(blobSize);
    PartSizeIsLeast(blobSize);
    CeilDivBounds(blobSize, partSize);
    BoundariesAccepted(blobSize);
    NoInvalidRows(blobSize, partSize, n, s);
    forall i | 0 <= i < n
      ensures !InvalidRow(blobSize, partSize, n, s[i])
    {
      CellArithmetic(partSize, n, i, blobSize, blobSize - (n - 1) * partSize);
    }
    ExtremeNumbers(s);
    assert s[0].number == 1 && s[n - 1].number == n;
  }

  /** Hence the trigger and the sequential validator accept the same rows. */
  lemma AggregateIsSequential(blobSize: int, rows: seq<Range>)
    requires MAX_SINGLE_PUT_BYTES < blobSize <= MAX_MULTIPART_BLOB_BYTES && DistinctNumbers(rows)
    requires forall i :: 0 <= i < |rows| ==> ValidRange(rows[i])
    ensures SqlAccepts(blobSize, PartSizeFor(blobSize), PartCount(blobSize), rows)
      <==> RangesAccepted(blobSize, PartSizeFor(blobSize), Sort(ByNumber, rows))
  {
    var s := Sort(ByNumber, rows);
    forall i | 0 <= i < |s|
      ensures ValidRange(s[i])
    {
      assert s[i] in multiset(rows);
    }
    AggregateIsGenerator(blobSize, rows);
    ValidatorIsGenerator(blobSize, s);
  }
}
