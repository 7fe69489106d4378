/** Reading a provider's paged part list, and ordering receipts for assembly. */
module Listing {
  import opened Base
  import opened Multipart
  import opened Sorting

  datatype ListingError = ContractBroken

  /** One page of a ListParts answer: its parts in provider order, whether more
      follow, and the marker to continue from (absent or unusable as `None`). */
  datatype Page = Page(parts: seq<Observation>, truncated: bool, nextMarker: Option<int>)

  // ------------------------------------------------------------------ page merge

  predicate DistinctNumbers(parts: seq<Observation>) {
    forall i, j :: 0 <= i < j < |parts| ==> parts[i].number != parts[j].number
  }

  /** The parts of the first `n` pages, in the order received. */
  function Received(pages: seq<Page>, n: nat): seq<Observation>
    requires n <= |pages|
  {
    if n == 0 then [] else Received(pages, n - 1) + pages[n - 1].parts
  }

  /** Page `i` continues properly: a positive marker above the one before it. */
  predicate Continues(pages: seq<Page>, i: int)
    requires 0 <= i < |pages|
  {
    && pages[i].truncated && pages[i].nextMarker.Some? && pages[i].nextMarker.value > 0
    && (i > 0 && pages[i - 1].nextMarker.Some? ==> pages[i - 1].nextMarker.value < pages[i].nextMarker.value)
  }

  /** The provider keeps the listing contract: pages chain by rising markers, the
      last one ends the list, and no part number is listed twice. */
  predicate KeepsContract(pages: seq<Page>) {
    && |pages| > 0
    && (forall i :: 0 <= i < |pages| - 1 ==> Continues(pages, i))
    && !pages[|pages| - 1].truncated
    && DistinctNumbers(Received(pages, |pages|))
  }

  predicate ByNumber(left: Observation, right: Observation) {
    left.number <= right.number
  }

  ghost predicate Ascending(parts: seq<Observation>) {
    forall i, j :: 0 <= i < j < |parts| ==> parts[i].number < parts[j].number
  }

  lemma SortedListing(received: seq<Observation>)
    requires DistinctNumbers(received)
    ensures Ascending(Sort(ByNumber, received)) && multiset(Sort(ByNumber, received)) == multiset(received)
  {
    var s := Sort(ByNumber, received);
    SortSorts(ByNumber, received);
    forall i, j | 0 <= i < j < |s|
      ensures s[i].number < s[j].number
    {
      if s[i].number == s[j].number {
        TwiceListed(received, s, i, j);
      }
    }
  }

  lemma TwiceListed(received: seq<Observation>, s: seq<Observation>, i: int, j: int)
    requires multiset(received) == multiset(s) && 0 <= i < j < |s| && s[i].number == s[j].number
    ensures !DistinctNumbers(received)
  {
    if s[i] == s[j] {
      var x := s[i];
      assert s == s[..i] + [x] + s[i + 1..j] + [x] + s[j + 1..];
      assert multiset(received)[x] >= 2;
      if DistinctNumbers(received) {
        OnceReceived(received, x);
      }
    } else {
      assert s[i] in multiset(received) && s[j] in multiset(received);
      var k :| 0 <= k < |received| && received[k] == s[i];
      var l :| 0 <= l < |received| && received[l] == s[j];
      assert k != l && received[k].number == received[l].number;
    }
  }

  lemma {:induction false} OnceReceived(received: seq<Observation>, x: Observation)
    requires DistinctNumbers(received)
    ensures multiset(received)[x] <= 1
  {
    if |received| > 0 {
      OnceReceived(received[1..], x);
      assert received == [received[0]] + received[1..];
      if received[0] == x {
        assert forall i :: 0 <= i < |received[1..]| ==> received[1..][i].number != x.number;
      }
    }
  }

  /** Two parts with one number spoil every longer listing. */
  lemma RepeatStays(early: seq<Observation>, late: seq<Observation>)
    requires !DistinctNumbers(early)
    ensures !DistinctNumbers(early + late)
  {
    var i, j :| 0 <= i < j < |early| && early[i].number == early[j].number;
    assert (early + late)[i].number == (early + late)[j].number;
  }

  lemma {:induction false} RepeatSpoils(pages: seq<Page>, n: nat, m: nat)
    requires n <= m <= |pages| && !DistinctNumbers(Received(pages, n))
    ensures !DistinctNumbers(Received(pages, m))
    decreases m - n
  {
    if n < m {
      RepeatStays(Received(pages, n), pages[n].parts);
      RepeatSpoils(pages, n + 1, m);
    }
  }

  /** Add one page, part by part, unless a number repeats. */
  method AddPage(observed: map<int, Observation>, ghost received: seq<Observation>, parts: seq<Observation>)
    returns (result: Result<map<int, Observation>, ListingError>)
    requires Holds(observed, received)
    ensures result.Ok? <==> DistinctNumbers(received + parts)
    ensures result.Ok? ==> Holds(result.value, received + parts)
  {
    hide Holds, DistinctNumbers;
    var all := observed;
    assert received + parts[..0] == received;
    for i := 0 to |parts|
      invariant Holds(all, received + parts[..i])
    {
      ghost var before := received + parts[..i];
      assert received + parts[..i + 1] == before + [parts[i]];
      if parts[i].number in all {
        assert received + parts == before + [parts[i]] + parts[i + 1..];
        RepeatFound(all, before, parts[i], parts[i + 1..]);
        return Err(ContractBroken);
      }
      HoldsOneMore(all, before, parts[i]);
      all := all[parts[i].number := parts[i]];
    }
    assert parts[..|parts|] == parts;
    HeldAreDistinct(all, received + parts);
    result := Ok(all);
  }

  /** The dictionary is the received parts by number, none of them repeated. */
  ghost predicate Holds(observed: map<int, Observation>, received: seq<Observation>) {
    && DistinctNumbers(received)
    && (forall i :: 0 <= i < |received| ==> received[i].number in observed && observed[received[i].number] == received[i])
    && (forall n :: n in observed ==> exists i :: 0 <= i < |received| && received[i].number == n)
  }

  lemma RepeatFound(observed: map<int, Observation>, before: seq<Observation>, part: Observation, rest: seq<Observation>)
    requires Holds(observed, before) && part.number in observed
    ensures !DistinctNumbers(before + [part] + rest)
  {
    var k :| 0 <= k < |before| && before[k].number == part.number;
    var all := before + [part];
    assert all[k].number == all[|before|].number;
    RepeatStays(all, rest);
  }

  lemma HoldsOneMore(observed: map<int, Observation>, before: seq<Observation>, part: Observation)
    requires Holds(observed, before) && part.number !in observed
    ensures Holds(observed[part.number := part], before + [part])
  {
    var all, more := observed[part.number := part], before + [part];
    forall i | 0 <= i < |more|
      ensures more[i].number in all && all[more[i].number] == more[i]
    {
      assert i < |before| ==> more[i] == before[i] && before[i].number in observed;
    }
    forall n | n in all
      ensures exists i :: 0 <= i < |more| && more[i].number == n
    {
      if n == part.number {
        assert more[|before|].number == n;
      } else {
        var i :| 0 <= i < |before| && before[i].number == n;
        assert more[i].number == n;
      }
    }
  }

  /** The first `n` pages are a listing that keeps the contract. */
  ghost predicate Ends(pages: seq<Page>, n: nat) {
    0 < n <= |pages| && KeepsContract(pages[..n])
  }

  /** The listed parts are those of the pages that end the list, each once, by
      number. */
  ghost predicate Lists(pages: seq<Page>, n: nat, listed: seq<Observation>)
    requires n <= |pages|
  {
    Ascending(listed) && multiset(listed) == multiset(Received(pages, n))
  }

  lemma {:induction false} ReceivedPrefix(pages: seq<Page>, n: nat, m: nat)
    requires m <= n <= |pages|
    ensures Received(pages[..n], m) == Received(pages, m)
  {
    if m > 0 {
      ReceivedPrefix(pages, n, m - 1);
    }
  }

  /** The first page that is not truncated ends the list. */
  lemma ListingEnds(pages: seq<Page>, n: nat)
    requires 0 < n <= |pages| && !pages[n - 1].truncated && DistinctNumbers(Received(pages, n))
    requires forall j :: 0 <= j < n - 1 ==> Continues(pages, j)
    ensures Ends(pages, n)
  {
    ReceivedPrefix(pages, n, n);
    forall j | 0 <= j < n - 1
      ensures Continues(pages[..n], j)
    {
      assert Continues(pages, j);
    }
  }

  /** What a listing says of a page that all earlier ones lead to. */
  lemma EndsLater(pages: seq<Page>, i: nat, n: nat)
    requires i <= |pages| && Ends(pages, n) && forall j :: 0 <= j < i ==> Continues(pages, j)
    ensures i < n && DistinctNumbers(Received(pages, n))
    ensures if n == i + 1 then !pages[i].truncated else Continues(pages, i)
  {
    ReceivedPrefix(pages, n, n);
    assert n <= i ==> Continues(pages, n - 1);
    assert i < n - 1 ==> Continues(pages[..n], i);
  }

  predicate MarkerAccepted(next: Option<int>, seen: set<int>, marker: Option<int>) {
    next.Some? && next.value > 0 && next.value !in seen && (marker.Some? ==> marker.value < next.value)
  }

  /** The reading loop over the pages a provider returns, in order; `None` when
      it would ask for more pages. It answers exactly when the provider keeps the
      listing contract up to a page that ends the list, and then with every part
      listed so far, in ascending number. */
  method ListParts(pages: seq<Page>) returns (result: Option<Result<seq<Observation>, ListingError>>)
    ensures result.Some? && result.value.Ok? <==> exists n: nat :: Ends(pages, n)
    ensures forall n: nat :: Ends(pages, n) ==> result.Some? && result.value.Ok? && Lists(pages, n, result.value.value)
  {
    hide Sort, ByNumber, Ends, Lists, Continues;
    var marker: Option<int> := None;
    var seen: set<int> := {};
    var observed: map<int, Observation> := map[];
    var arrived: seq<Observation> := [];
    for i := 0 to |pages|
      invariant arrived == Received(pages, i) && Holds(observed, arrived)
      invariant marker == if i == 0 then None else pages[i - 1].nextMarker
      invariant i > 0 ==> marker.Some?
      invariant forall m :: m in seen ==> marker.Some? && m <= marker.value
      invariant forall j :: 0 <= j < i ==> Continues(pages, j)
    {
      hide Holds;
      var added := AddPage(observed, arrived, pages[i].parts);
      forall n: nat | Ends(pages, n)
        ensures i < n <= |pages| && DistinctNumbers(Received(pages, n))
        ensures if n == i + 1 then !pages[i].truncated else Continues(pages, i)
      {
        EndsLater(pages, i, n);
        EndsWithin(pages, n);
      }
      if added.Err? {
        forall n: nat | i < n <= |pages|
          ensures !DistinctNumbers(Received(pages, n))
        {
          RepeatSpoils(pages, i + 1, n);
        }
        return Some(Err(added.error));
      }
      observed, arrived := added.value, arrived + pages[i].parts;
      if !pages[i].truncated {
        HeldAreDistinct(observed, arrived);
        ListingEnds(pages, i + 1);
        ContinuesIs(pages, i);
        ListsAll(pages, i + 1);
        return Some(Ok(Sort(ByNumber, arrived)));
      }
      if !MarkerAccepted(pages[i].nextMarker, seen, marker) {
        ContinuesIs(pages, i);
        return Some(Err(ContractBroken));
      }
      ContinuesIs(pages, i);
      marker := pages[i].nextMarker;
      seen := seen + {marker.value};
    }
    forall n: nat
      ensures !Ends(pages, n)
    {
      if Ends(pages, n) {
        EndsLater(pages, |pages|, n);
        EndsWithin(pages, n);
      }
    }
    result := None;
  }

  lemma EndsWithin(pages: seq<Page>, n: nat)
    requires Ends(pages, n)
    ensures n <= |pages|
  {
  }

  lemma ContinuesIs(pages: seq<Page>, i: nat)
    requires i < |pages|
    ensures Continues(pages, i) <==>
      && pages[i].truncated && pages[i].nextMarker.Some? && pages[i].nextMarker.value > 0
      && (i > 0 && pages[i - 1].nextMarker.Some? ==> pages[i - 1].nextMarker.value < pages[i].nextMarker.value)
  {
  }

  lemma ListsAll(pages: seq<Page>, n: nat)
    requires n <= |pages| && DistinctNumbers(Received(pages, n))
    ensures Lists(pages, n, Sort(ByNumber, Received(pages, n)))
  {
    SortedListing(Received(pages, n));
  }

  lemma HeldAreDistinct(observed: map<int, Observation>, received: seq<Observation>)
    requires Holds(observed, received)
    ensures DistinctNumbers(received)
  {
  }

  // --------------------------------------------------------------- assembly order

  predicate ByReceipt(left: Receipt, right: Receipt) {
    left.number <= right.number
  }

  /** An entity tag that may be sent back: not empty, no control character. */
  predicate UsableTag(etag: string) {
    etag != "" && forall i :: 0 <= i < |etag| ==> etag[i] as int >= 0x20 && !(0x7F <= etag[i] as int <= 0x9F)
  }

  /** Receipts in the order a provider assembles them, or a refusal. */
  function AssemblyOrder(receipts: seq<Receipt>): Result<seq<Receipt>, ListingError> {
    var ordered := Sort(ByReceipt, receipts);
    if exists i :: 0 <= i < |ordered| && !UsableTag(ordered[i].etag) then Err(ContractBroken)
    else if |ordered| == 0 || exists i :: 0 <= i < |ordered| && ordered[i].number != i + 1 then Err(ContractBroken)
    else Ok(ordered)
  }

  /** Receipts of parts 1 to n, one each, with usable tags. */
  ghost predicate Consecutive(receipts: seq<Receipt>) {
    |receipts| > 0 && forall i :: 0 <= i < |receipts| ==> UsableTag(receipts[i].etag) && receipts[i].number == i + 1
  }

  /** Receipts are sent exactly when some arrangement of them is consecutive, and
      that arrangement is the one sent, in whatever order they were supplied. */
  lemma AssemblyIsArrangement(receipts: seq<Receipt>, ordered: seq<Receipt>)
    ensures AssemblyOrder(receipts) == Ok(ordered) <==> multiset(ordered) == multiset(receipts) && Consecutive(ordered)
  {
    if multiset(ordered) == multiset(receipts) && Consecutive(ordered) {
      assert TotalPreorder(ByReceipt);
      forall x, y | x in multiset(ordered) && y in multiset(ordered) && ByReceipt(x, y) && ByReceipt(y, x)
        ensures x == y
      {
        var i :| 0 <= i < |ordered| && ordered[i] == x;
        var j :| 0 <= j < |ordered| && ordered[j] == y;
      }
      SortSorts(ByReceipt, receipts);
      assert Sorted(ByReceipt, ordered);
      SortedUnique(ByReceipt, ordered, Sort(ByReceipt, receipts));
    }
  }
}
