/** Deterministic part boundaries: the size selection, the generator, the
    sequential validator and the database's aggregate test. */
module PartRanges {
  import opened Base

  const BASE_PART_BYTES := 64 * 1024 * 1024
  const MAX_PART_BYTES := 5 * 1024 * 1024 * 1024
  const MAX_PARTS := 10_000
  const MAX_SINGLE_PUT_BYTES := 5_000_000_000
  const MAX_MULTIPART_BLOB_BYTES := 5_000_000_000_000
  const PART_PLAN_SCHEMA_VERSION := 1

  datatype PlanError = UnsupportedFileSize | ManifestMismatch

  datatype Range = Range(number: int, offset: int, size: int)

  datatype PartDefinition = PartDefinition(range: Range, sha256: string)

  datatype PartPlan = PartPlan(schema: int, blobSize: int, partSize: int, parts: seq<PartDefinition>)

  function CeilDiv(dividend: int, divisor: int): int
    requires divisor > 0
  {
    (dividend + divisor - 1) / divisor
  }

  function Pow2(k: nat): (p: int)
    ensures p >= 1
  {
    if k == 0 then 1 else 2 * Pow2(k - 1)
  }

  // ---------------------------------------------------------------- part size

  /** `size` fits in the permitted number of parts of `partSize` bytes. */
  predicate Fits(size: int, partSize: int) {
    partSize > 0 && CeilDiv(size, partSize) <= MAX_PARTS
  }

  /** `partSize` is the least power-of-two multiple of 64 MiB in which `size` fits. */
  ghost predicate LeastFittingPartSize(size: int, partSize: int) {
    exists k: nat ::
      partSize == BASE_PART_BYTES * Pow2(k) && LeastFittingExponent(size, k)
  }

  ghost predicate LeastFittingExponent(size: int, k: nat) {
    && Fits(size, BASE_PART_BYTES * Pow2(k))
    && forall j: nat :: j < k ==> !Fits(size, BASE_PART_BYTES * Pow2(j))
  }

  lemma {:induction false} Pow2Monotone(j: nat, k: nat)
    requires j <= k
    ensures Pow2(j) <= Pow2(k)
  {
    if j < k {
      Pow2Monotone(j, k - 1);
    }
  }

  lemma LeastFittingPartSizeUnique(size: int, left: int, right: int)
    requires LeastFittingPartSize(size, left) && LeastFittingPartSize(size, right)
    ensures left == right
  {
    var j: nat :| left == BASE_PART_BYTES * Pow2(j) && LeastFittingExponent(size, j);
    var k: nat :| right == BASE_PART_BYTES * Pow2(k) && LeastFittingExponent(size, k);
    assert Fits(size, left) && Fits(size, right);
    assert j < k ==> !Fits(size, left);
    assert k < j ==> !Fits(size, right);
  }

  /** The part size a Blob of `size` bytes gets: doubling from 64 MiB. */
  function PartSizeFor(size: int): int {
    if Fits(size, BASE_PART_BYTES) then BASE_PART_BYTES
    else if Fits(size, BASE_PART_BYTES * 2) then BASE_PART_BYTES * 2
    else if Fits(size, BASE_PART_BYTES * 4) then BASE_PART_BYTES * 4
    else BASE_PART_BYTES * 8
  }

  /** Within the protocol limit three doublings always suffice, and the result
      is the least fitting size, well below the part-size cap. */
  lemma PartSizeIsLeast(size: int)
    requires size <= MAX_MULTIPART_BLOB_BYTES
    ensures LeastFittingPartSize(size, PartSizeFor(size))
    ensures BASE_PART_BYTES <= PartSizeFor(size) <= MAX_PART_BYTES
    ensures Fits(size, PartSizeFor(size))
  {
    assert Pow2(0) == 1;
    assert Pow2(1) == 2;
    assert Pow2(2) == 4;
    assert Pow2(3) == 8;
    var k: nat :=
      if Fits(size, BASE_PART_BYTES) then 0
      else if Fits(size, BASE_PART_BYTES * 2) then 1
      else if Fits(size, BASE_PART_BYTES * 4) then 2
      else 3;
    forall j: nat | j < k
      ensures !Fits(size, BASE_PART_BYTES * Pow2(j))
    {
      assert j == 0 || j == 1 || j == 2;
    }
    assert LeastFittingExponent(size, k);
  }

  lemma EightfoldSuffices(size: int)
    ensures Pow2(3) == 8
    ensures size <= MAX_MULTIPART_BLOB_BYTES ==> Fits(size, BASE_PART_BYTES * 8)
  {
    assert Pow2(0) == 1;
    assert Pow2(1) == 2;
    assert Pow2(2) == 4;
  }

  /** The application's doubling loop. The error branch is reached exactly when
      no permitted part size fits. */
  method SelectPartSize(size: int) returns (result: Result<int, PlanError>)
    ensures result.Ok? ==> LeastFittingPartSize(size, result.value) && BASE_PART_BYTES <= result.value <= MAX_PART_BYTES
    ensures result.Err? ==>
      result.error == UnsupportedFileSize &&
      forall k: nat :: BASE_PART_BYTES * Pow2(k) <= MAX_PART_BYTES ==> !Fits(size, BASE_PART_BYTES * Pow2(k))
    ensures size <= MAX_MULTIPART_BLOB_BYTES ==> result == Ok(PartSizeFor(size))
  {
    var partSize := BASE_PART_BYTES;
    ghost var k: nat := 0;
    while CeilDiv(size, partSize) > MAX_PARTS
      invariant partSize == BASE_PART_BYTES * Pow2(k) && BASE_PART_BYTES <= partSize <= MAX_PART_BYTES
      invariant forall j: nat :: j < k ==> !Fits(size, BASE_PART_BYTES * Pow2(j))
      decreases MAX_PART_BYTES - partSize
    {
      partSize := partSize * 2;
      k := k + 1;
      if partSize > MAX_PART_BYTES {
        forall i: nat | BASE_PART_BYTES * Pow2(i) <= MAX_PART_BYTES
          ensures !Fits(size, BASE_PART_BYTES * Pow2(i))
        {
          if i >= k {
            Pow2Monotone(k, i);
          }
        }
        EightfoldSuffices(size);
        return Err(UnsupportedFileSize);
      }
    }
    assert LeastFittingExponent(size, k);
    if size <= MAX_MULTIPART_BLOB_BYTES {
      PartSizeIsLeast(size);
      LeastFittingPartSizeUnique(size, partSize, PartSizeFor(size));
    }
    result := Ok(partSize);
  }

  /** The database's loop, which checks the Blob limits before it doubles. On
      every size it accepts it returns what the application returns. */
  method SqlExpectedPartSize(size: int) returns (result: Result<int, PlanError>)
    ensures result == if MAX_SINGLE_PUT_BYTES < size <= MAX_MULTIPART_BLOB_BYTES then Ok(PartSizeFor(size)) else Err(UnsupportedFileSize)
  {
    if size <= MAX_SINGLE_PUT_BYTES || size > MAX_MULTIPART_BLOB_BYTES {
      return Err(UnsupportedFileSize);
    }
    var selected := BASE_PART_BYTES;
    ghost var k: nat := 0;
    while (size + selected - 1) / selected > MAX_PARTS
      invariant selected == BASE_PART_BYTES * Pow2(k) && BASE_PART_BYTES <= selected <= MAX_PART_BYTES
      invariant forall j: nat :: j < k ==> !Fits(size, BASE_PART_BYTES * Pow2(j))
      decreases MAX_PART_BYTES - selected
    {
      EightfoldSuffices(size);
      assert k < 3;
      selected := selected * 2;
      k := k + 1;
      Pow2Monotone(k, 3);
      if selected > MAX_PART_BYTES {
        return Err(UnsupportedFileSize);
      }
    }
    assert LeastFittingExponent(size, k);
    PartSizeIsLeast(size);
    LeastFittingPartSizeUnique(size, selected, PartSizeFor(size));
    result := Ok(selected);
  }

  // --------------------------------------------------------------- boundaries

  function PartCount(size: int): int {
    CeilDiv(size, PartSizeFor(size))
  }

  /** The range with number `i + 1` of a Blob of `size` bytes. */
  function Boundary(size: int, i: int): Range {
    var partSize := PartSizeFor(size);
    Range(i + 1, i * partSize, if partSize <= size - i * partSize then partSize else size - i * partSize)
  }

  function Boundaries(size: int): (ranges: seq<Range>)
    requires size > 0
    ensures |ranges| == PartCount(size)
  {
    seq(PartCount(size), i requires 0 <= i => Boundary(size, i))
  }

  /** The value check of one range. */
  predicate ValidRange(range: Range) {
    1 <= range.number <= MAX_PARTS && range.offset >= 0 && range.size > 0
  }

  function SumSizes(ranges: seq<Range>): int {
    if |ranges| == 0 then 0 else SumSizes(ranges[..|ranges| - 1]) + ranges[|ranges| - 1].size
  }

  /** What one step of the sequential cursor check accepts at position `i`. */
  predicate StepAccepted(partSize: int, ranges: seq<Range>, i: int)
    requires 0 <= i < |ranges|
  {
    && ranges[i].number == i + 1
    && ranges[i].offset == SumSizes(ranges[..i])
    && ranges[i].size <= partSize
    && (i + 1 < |ranges| ==> ranges[i].size == partSize)
  }

  predicate RangesAccepted(blobSize: int, partSize: int, ranges: seq<Range>) {
    && 1 <= |ranges| <= MAX_PARTS
    && (forall i :: 0 <= i < |ranges| ==> StepAccepted(partSize, ranges, i))
    && SumSizes(ranges) == blobSize
  }

  /** The sequential validator, with its running byte cursor. */
  method ValidateRanges(blobSize: int, partSize: int, ranges: seq<Range>) returns (result: Result<(), PlanError>)
    ensures result == if RangesAccepted(blobSize, partSize, ranges) then Ok(()) else Err(ManifestMismatch)
  {
    if |ranges| == 0 || |ranges| > MAX_PARTS {
      return Err(ManifestMismatch);
    }
    var cursor := 0;
    for i := 0 to |ranges|
      invariant cursor == SumSizes(ranges[..i])
      invariant forall j :: 0 <= j < i ==> StepAccepted(partSize, ranges, j)
    {
      var range := ranges[i];
      if range.number != i + 1 || range.offset != cursor {
        assert !StepAccepted(partSize, ranges, i);
        return Err(ManifestMismatch);
      }
      if range.size > partSize {
        assert !StepAccepted(partSize, ranges, i);
        return Err(ManifestMismatch);
      }
      if i + 1 < |ranges| && range.size != partSize {
        assert !StepAccepted(partSize, ranges, i);
        return Err(ManifestMismatch);
      }
      cursor := cursor + range.size;
      assert ranges[..i + 1][..i] == ranges[..i];
    }
    assert ranges[..|ranges|] == ranges;
    if cursor != blobSize {
      return Err(ManifestMismatch);
    }
    result := Ok(());
  }

  lemma CeilDivBounds(size: int, partSize: int)
    requires size > 0 && partSize > 0
    ensures var n := CeilDiv(size, partSize); n >= 1 && (n - 1) * partSize < size <= n * partSize
  {
    var n := CeilDiv(size, partSize);
    assert (size + partSize - 1) == n * partSize + (size + partSize - 1) % partSize;
    assert (n - 1) * partSize == n * partSize - partSize;
  }

  lemma {:induction false} MultipleBelow(partSize: int, j: int, i: int)
    requires partSize > 0 && j < i
    ensures j * partSize + partSize <= i * partSize
    decreases i - j
  {
    assert i * partSize == (i - 1) * partSize + partSize;
    if j + 1 < i {
      MultipleBelow(partSize, j, i - 1);
    }
  }

  lemma CeilDivUnique(size: int, partSize: int, n: int)
    requires size > 0 && partSize > 0
    requires n * partSize - partSize < size <= n * partSize
    ensures CeilDiv(size, partSize) == n
  {
    CeilDivBounds(size, partSize);
    var m := CeilDiv(size, partSize);
    assert (m - 1) * partSize == m * partSize - partSize;
    if m < n {
      MultipleBelow(partSize, m, n);
    } else if n < m {
      MultipleBelow(partSize, n, m);
    }
  }

  /** Uniform leading ranges put the cursor at a multiple of the part size. */
  lemma {:induction false} UniformPrefixSum(partSize: int, ranges: seq<Range>, i: nat)
    requires i <= |ranges| && forall j :: 0 <= j < i ==> ranges[j].size == partSize
    ensures SumSizes(ranges[..i]) == i * partSize
  {
    if i > 0 {
      UniformPrefixSum(partSize, ranges, i - 1);
      assert ranges[..i][..i - 1] == ranges[..i - 1];
    }
  }

  lemma BoundaryShape(size: int, i: int)
    requires 0 < size <= MAX_MULTIPART_BLOB_BYTES && 0 <= i < PartCount(size)
    ensures i + 1 < PartCount(size) ==> Boundary(size, i).size == PartSizeFor(size)
    ensures i + 1 == PartCount(size) ==> 0 < Boundary(size, i).size <= PartSizeFor(size) && i * PartSizeFor(size) + Boundary(size, i).size == size
    ensures ValidRange(Boundary(size, i))
  {
    PartSizeIsLeast(size);
    CeilDivBounds(size, PartSizeFor(size));
    CellArithmetic(PartSizeFor(size), PartCount(size), i, size, size - (PartCount(size) - 1) * PartSizeFor(size));
    assert i * PartSizeFor(size) >= 0;
    assert PartCount(size) * PartSizeFor(size) == (PartCount(size) - 1) * PartSizeFor(size) + PartSizeFor(size);
  }

  lemma BoundariesAccepted(size: int)
    requires 0 < size <= MAX_MULTIPART_BLOB_BYTES
    ensures RangesAccepted(size, PartSizeFor(size), Boundaries(size))
    ensures forall i :: 0 <= i < PartCount(size) ==> ValidRange(Boundaries(size)[i])
  {
    PartSizeIsLeast(size);
    var partSize, n, ranges := PartSizeFor(size), PartCount(size), Boundaries(size);
    CeilDivBounds(size, partSize);
    hide PartSizeFor, PartCount;
    forall i | 0 <= i < n
      ensures ranges[i].size <= partSize && ValidRange(ranges[i]) && (i + 1 < n ==> ranges[i].size == partSize)
    {
      BoundaryShape(size, i);
    }
    forall i | 0 <= i < n
      ensures StepAccepted(partSize, ranges, i)
    {
      UniformPrefixSum(partSize, ranges, i);
    }
    UniformPrefixSum(partSize, ranges, n - 1);
    BoundaryShape(size, n - 1);
    assert ranges[..n - 1] + [ranges[n - 1]] == ranges;
  }

  lemma {:induction false} AcceptedIsUniform(size: int, partSize: int, ranges: seq<Range>)
    requires RangesAccepted(size, partSize, ranges)
    ensures forall i :: 0 <= i < |ranges| - 1 ==> ranges[i].size == partSize
    ensures forall i :: 0 <= i < |ranges| ==> ranges[i].number == i + 1 && ranges[i].offset == i * partSize
    ensures size == (|ranges| - 1) * partSize + ranges[|ranges| - 1].size
    ensures ranges[|ranges| - 1].size <= partSize
  {
    var n := |ranges|;
    forall i | 0 <= i < n - 1
      ensures ranges[i].size == partSize
    {
      assert StepAccepted(partSize, ranges, i);
    }
    forall i | 0 <= i < n
      ensures ranges[i].number == i + 1 && ranges[i].offset == i * partSize
    {
      UniformPrefixSum(partSize, ranges, i);
      assert StepAccepted(partSize, ranges, i);
    }
    UniformPrefixSum(partSize, ranges, n - 1);
    assert StepAccepted(partSize, ranges, n - 1);
  }

  lemma CellArithmetic(partSize: int, n: int, i: int, size: int, last: int)
    requires partSize > 0 && 0 <= i < n && size == (n - 1) * partSize + last && 0 < last <= partSize
    ensures i + 1 < n ==> partSize <= size - i * partSize
    ensures i + 1 == n ==> size - i * partSize == last
  {
    if i + 1 < n {
      assert (i + 1) * partSize <= (n - 1) * partSize;
      assert (i + 1) * partSize == i * partSize + partSize;
    }
  }

  /** The validator accepts exactly what the generator produces. */
  lemma ValidatorIsGenerator(size: int, ranges: seq<Range>)
    requires 0 < size <= MAX_MULTIPART_BLOB_BYTES
    requires forall i :: 0 <= i < |ranges| ==> ValidRange(ranges[i])
    ensures RangesAccepted(size, PartSizeFor(size), ranges) <==> ranges == Boundaries(size)
  {
    BoundariesAccepted(size);
    PartSizeIsLeast(size);
    var partSize, n := PartSizeFor(size), |ranges|;
    if RangesAccepted(size, partSize, ranges) {
      AcceptedIsUniform(size, partSize, ranges);
      assert ValidRange(ranges[n - 1]);
      assert n * partSize == (n - 1) * partSize + partSize;
      CeilDivUnique(size, partSize, n);
      forall i | 0 <= i < n
        ensures ranges[i] == Boundary(size, i)
      {
        CellArithmetic(partSize, n, i, size, ranges[n - 1].size);
      }
    }
  }

  lemma InCell(partSize: int, offset: int, i: int, j: int)
    requires partSize > 0 && i * partSize <= offset < i * partSize + partSize
    ensures j * partSize <= offset < j * partSize + partSize <==> j == i
  {
    if j < i {
      MultipleBelow(partSize, j, i);
    } else if i < j {
      MultipleBelow(partSize, i, j);
    }
  }

  /** Every byte of the Blob lies in exactly one range. */
  lemma ByteInExactlyOneRange(size: int, offset: int) returns (i: int)
    requires 0 < size <= MAX_MULTIPART_BLOB_BYTES && 0 <= offset < size
    ensures 0 <= i < PartCount(size)
    ensures forall j :: 0 <= j < PartCount(size) ==>
      (Boundary(size, j).offset <= offset < Boundary(size, j).offset + Boundary(size, j).size <==> j == i)
  {
    PartSizeIsLeast(size);
    var partSize, n := PartSizeFor(size), PartCount(size);
    CeilDivBounds(size, partSize);
    i := offset / partSize;
    assert offset == i * partSize + offset % partSize;
    QuotientBelow(partSize, n, i, offset, size);
    forall j | 0 <= j < n
      ensures Boundary(size, j).offset <= offset < Boundary(size, j).offset + Boundary(size, j).size <==> j == i
    {
      InCell(partSize, offset, i, j);
    }
  }

  lemma QuotientBelow(partSize: int, n: int, i: int, offset: int, size: int)
    requires partSize > 0 && 0 <= offset < size <= n * partSize && i * partSize <= offset < i * partSize + partSize
    ensures 0 <= i < n
  {
    assert i >= n ==> i * partSize >= n * partSize;
    assert i < 0 ==> (i + 1) * partSize <= 0;
    assert (i + 1) * partSize == i * partSize + partSize;
  }
}
