/** The manifest builder does not depend on traversal order, its collision scan
    is characterized exactly, and its text has one reader. */
module ManifestProofs {
  import opened Base
  import opened Json
  import opened Manifest
  import opened Rows
  import opened Sorting
  import opened TextOrder
  import P = PlanCodec
  import R = Registry

  // ------------------------------------------------------------ the scan, exactly

  ghost predicate DistinctTexts(keys: seq<string>) {
    forall i, j :: 0 <= i < j < |keys| ==> keys[i] != keys[j]
  }

  /** Every key with something below it has a shield among the keys. */
  ghost predicate AncestorsShielded(keys: seq<string>) {
    forall i, j :: 0 <= i < |keys| && 0 <= j < |keys| && Below(keys[j], keys[i]) ==> Shielded(keys, keys[i])
  }

  ghost predicate Shielded(keys: seq<string>, p: string) {
    exists k :: 0 <= k < |keys| && Shields(keys[k], p)
  }

  /** The scan of sorted keys rejects exactly repeated keys and unshielded
      ancestors: a shielded ancestor is overlooked. */
  lemma ScanExactly(keys: seq<string>)
    requires Sorted(Le, keys)
    ensures !Collides(keys) <==> DistinctTexts(keys) && AncestorsShielded(keys)
  {
    if !Collides(keys) {
      NoNeighbourRepeats(keys);
      forall i, j | 0 <= i < |keys| && 0 <= j < |keys| && Below(keys[j], keys[i])
        ensures Shielded(keys, keys[i])
      {
        AncestorHasShield(keys, i, j);
      }
    }
    if DistinctTexts(keys) && AncestorsShielded(keys) && Collides(keys) {
      var i :| 0 <= i < |keys| - 1 && CollidesAt(keys, i);
      assert Below(keys[i + 1], keys[i]);
      var k :| 0 <= k < |keys| && Shields(keys[k], keys[i]);
      ShieldBetween(keys[i], keys[k], keys[i + 1]);
      ShieldNotBelow(keys[i], keys[k]);
      NothingBetween(keys, i, k);
    }
  }

  lemma NoNeighbourRepeats(keys: seq<string>)
    requires Sorted(Le, keys) && !Collides(keys)
    ensures DistinctTexts(keys)
  {
    forall i, j | 0 <= i < j < |keys|
      ensures keys[i] != keys[j]
    {
      assert !CollidesAt(keys, i);
      if keys[i] == keys[j] && i + 1 < j {
        LeAntisymmetric(keys[i], keys[i + 1]);
      }
    }
  }

  /** A key between two neighbours is one of them. */
  lemma NothingBetween(keys: seq<string>, i: int, k: int)
    requires Sorted(Le, keys) && 0 <= i < |keys| - 1 && 0 <= k < |keys|
    requires Le(keys[i], keys[k]) && Le(keys[k], keys[i + 1])
    ensures keys[k] == keys[i] || keys[k] == keys[i + 1]
  {
    if k < i {
      LeAntisymmetric(keys[k], keys[i]);
    } else if k > i + 1 {
      LeAntisymmetric(keys[k], keys[i + 1]);
    }
  }

  lemma AncestorHasShield(keys: seq<string>, i: int, j: int)
    requires Sorted(Le, keys) && DistinctTexts(keys) && !Collides(keys)
    requires 0 <= i < |keys| && 0 <= j < |keys| && Below(keys[j], keys[i])
    ensures Shielded(keys, keys[i])
  {
    BelowIsLater(keys[i], keys[j]);
    if j < i {
      LeAntisymmetric(keys[i], keys[j]);
    }
    assert i < j && Le(keys[i], keys[i + 1]);
    if i + 1 < j {
      assert Le(keys[i + 1], keys[j]);
    } else {
      LeTotal(keys[j], keys[j]);
    }
    BetweenExtends(keys[i], keys[i + 1], keys[j]);
    assert !CollidesAt(keys, i);
  }

  lemma BelowIsLater(p: string, q: string)
    requires Below(q, p)
    ensures Le(p, q) && p != q
  {
    assert p <= p + "/";
    PrefixLe(p, q);
  }

  /** Without characters below the separator nothing can shield, so accepted keys
      are free of ancestors. */
  lemma AncestorFree(keys: seq<string>)
    requires Sorted(Le, keys) && forall i, k :: 0 <= i < |keys| && 0 <= k < |keys[i]| ==> keys[i][k] >= '/'
    ensures !Collides(keys) <==>
      DistinctTexts(keys) && forall i, j :: 0 <= i < |keys| && 0 <= j < |keys| ==> !Below(keys[j], keys[i])
  {
    ScanExactly(keys);
    forall p
      ensures !Shielded(keys, p)
    {
    }
  }

  // --------------------------------------------------------- order independence

  lemma ByPathOrder()
    ensures TotalPreorder(ByPath)
  {
    LeIsOrder();
  }

  lemma {:induction false} KeysConcat(env: Env, left: seq<ManifestLine>, right: seq<ManifestLine>)
    ensures Keys(env, left + right) == Keys(env, left) + Keys(env, right)
  {
    hide KeyOf;
    if |left| == 0 {
      assert left + right == right;
    } else {
      KeysConcat(env, left[1..], right);
      assert (left + right)[1..] == left[1..] + right && (left + right)[0] == left[0];
    }
  }

  lemma KeysSplit(env: Env, entries: seq<ManifestLine>, k: int)
    requires 0 <= k < |entries|
    ensures multiset(Keys(env, entries)) == multiset(Keys(env, entries[..k] + entries[k + 1..])) + multiset{KeyOf(env, entries[k])}
  {
    var before, after := entries[..k], entries[k + 1..];
    assert Keys(env, [entries[k]]) == [KeyOf(env, entries[k])];
    hide Keys, KeyOf;
    assert entries == before + ([entries[k]] + after);
    KeysConcat(env, [entries[k]], after);
    KeysConcat(env, before, [entries[k]] + after);
    KeysConcat(env, before, after);
  }

  lemma RemoveAt<T>(s: seq<T>, k: int)
    requires 0 <= k < |s|
    ensures multiset(s) == multiset(s[..k] + s[k + 1..]) + multiset{s[k]}
  {
    assert s == s[..k] + [s[k]] + s[k + 1..];
  }

  lemma SameTail<T>(left: seq<T>, right: seq<T>, k: int)
    requires multiset(left) == multiset(right) && |left| > 0 && 0 <= k < |right| && right[k] == left[0]
    ensures multiset(left[1..]) == multiset(right[..k] + right[k + 1..])
  {
    RemoveAt(right, k);
    RemoveAt(left, 0);
    assert left[..0] + left[1..] == left[1..];
    assert multiset(left[1..]) == multiset(left) - multiset{left[0]};
  }

  /** The collision keys depend on the entries as a multiset only. */
  lemma {:induction false} KeysMultiset(env: Env, left: seq<ManifestLine>, right: seq<ManifestLine>)
    requires multiset(left) == multiset(right)
    ensures multiset(Keys(env, left)) == multiset(Keys(env, right))
    decreases |left|
  {
    assert |multiset(left)| == |left| && |multiset(right)| == |right|;
    if |left| > 0 {
      hide KeyOf;
      assert left[0] in multiset(right);
      var k :| 0 <= k < |right| && right[k] == left[0];
      KeysSplit(env, right, k);
      var rest := right[..k] + right[k + 1..];
      SameTail(left, right, k);
      KeysMultiset(env, left[1..], rest);
    }
  }

  lemma {:induction false} KeysAt(env: Env, entries: seq<ManifestLine>, i: int)
    requires 0 <= i < |entries|
    ensures Keys(env, entries)[i] == KeyOf(env, entries[i])
  {
    if i > 0 {
      KeysAt(env, entries[1..], i - 1);
    }
  }

  /** Two occurrences of one key in a sequence stay two after sorting. */
  lemma TwiceStaysTwice(keys: seq<string>, sorted: seq<string>, i: int, j: int)
    requires multiset(keys) == multiset(sorted) && 0 <= i < j < |keys| && keys[i] == keys[j]
    ensures !DistinctTexts(sorted)
  {
    var x := keys[i];
    assert keys == keys[..i] + [x] + keys[i + 1..j] + [x] + keys[j + 1..];
    assert multiset(keys)[x] >= 2;
    if DistinctTexts(sorted) {
      OnceWhenDistinct(sorted, x);
    }
  }

  lemma {:induction false} OnceWhenDistinct(s: seq<string>, x: string)
    requires DistinctTexts(s)
    ensures multiset(s)[x] <= 1
  {
    if |s| > 0 {
      OnceWhenDistinct(s[1..], x);
      assert s == [s[0]] + s[1..];
      if s[0] == x {
        assert x !in s[1..];
      }
    }
  }

  /** A manifest without collisions has pairwise distinct paths. */
  lemma PathsDistinct(env: Env, entries: seq<ManifestLine>, i: int, j: int)
    requires !Collides(Sort(Le, Keys(env, entries))) && 0 <= i < j < |entries|
    ensures entries[i].path != entries[j].path
  {
    LeIsOrder();
    var keys := Keys(env, entries);
    SortSorts(Le, keys);
    ScanExactly(Sort(Le, keys));
    KeysAt(env, entries, i);
    KeysAt(env, entries, j);
    if entries[i].path == entries[j].path {
      TwiceStaysTwice(keys, Sort(Le, keys), i, j);
    }
  }

  lemma PathsDiscriminate(env: Env, entries: seq<ManifestLine>)
    requires !Collides(Sort(Le, Keys(env, entries)))
    ensures Discriminates(ByPath, multiset(entries))
  {
    forall x, y | x in multiset(entries) && y in multiset(entries) && ByPath(x, y) && ByPath(y, x)
      ensures x == y
    {
      LeAntisymmetric(x.path, y.path);
      var i :| 0 <= i < |entries| && entries[i] == x;
      var j :| 0 <= j < |entries| && entries[j] == y;
      if i < j {
        PathsDistinct(env, entries, i, j);
      } else if j < i {
        PathsDistinct(env, entries, j, i);
      }
    }
  }

  lemma SizesAgreeAlike(left: seq<ManifestLine>, right: seq<ManifestLine>)
    requires multiset(left) == multiset(right) && SizesAgree(left)
    ensures SizesAgree(right)
  {
    forall i, j | 0 <= i < |right| && 0 <= j < |right| && right[i].sha256 == right[j].sha256
      ensures right[i].size == right[j].size
    {
      assert right[i] in multiset(left) && right[j] in multiset(left);
      var k :| 0 <= k < |left| && left[k] == right[i];
      var l :| 0 <= l < |left| && left[l] == right[j];
    }
  }

  lemma SizesAgreeIff(left: seq<ManifestLine>, right: seq<ManifestLine>)
    requires multiset(left) == multiset(right)
    ensures SizesAgree(left) == SizesAgree(right)
  {
    if SizesAgree(left) {
      SizesAgreeAlike(left, right);
    }
    if SizesAgree(right) {
      SizesAgreeAlike(right, left);
    }
  }

  lemma SameSortedKeys(env: Env, left: seq<ManifestLine>, right: seq<ManifestLine>)
    requires multiset(left) == multiset(right)
    ensures Sort(Le, Keys(env, left)) == Sort(Le, Keys(env, right))
  {
    hide Le, Keys, Sort;
    KeysMultiset(env, left, right);
    LeIsOrder();
    assert Discriminates(Le, multiset(Keys(env, left)));
    SortCanonical(Le, Keys(env, left), Keys(env, right));
  }

  lemma SameOrder(env: Env, left: seq<ManifestLine>, right: seq<ManifestLine>)
    requires multiset(left) == multiset(right) && !Collides(Sort(Le, Keys(env, left)))
    ensures Sort(ByPath, left) == Sort(ByPath, right)
  {
    hide Le, Keys, Sort, Collides, ByPath;
    PathsDiscriminate(env, left);
    ByPathOrder();
    SortCanonical(ByPath, left, right);
  }

  /** The builder gives the same manifest, or the same kind of error, for every
      order in which a tree is traversed. */
  lemma BuildOrderFree(env: Env, left: seq<ManifestLine>, right: seq<ManifestLine>)
    requires multiset(left) == multiset(right)
    ensures Build(env, left) == Build(env, right)
  {
    hide SizesAgree, Collides, Keys, CanonicalText, Utf8Length, Le, ByPath, Sort;
    assert |left| == |multiset(left)| == |multiset(right)| == |right|;
    var l, r := Sort(ByPath, left), Sort(ByPath, right);
    SizesAgreeIff(l, r);
    SameSortedKeys(env, l, r);
    SameSortedKeys(env, l, left);
    if !Collides(Sort(Le, Keys(env, l))) {
      SameOrder(env, left, right);
    }
  }

  /** Building an accepted manifest again changes nothing. */
  lemma BuildIsStable(env: Env, supplied: seq<ManifestLine>, built: seq<ManifestLine>)
    requires Build(env, supplied) == Ok(built)
    ensures Build(env, built) == Ok(built) && multiset(built) == multiset(supplied)
  {
    BuildOrderFree(env, supplied, built);
  }

  // ------------------------------------------------------------------ canonicity

  lemma EntryKeysDistinct(members: seq<Member>)
    requires |members| == 3 && members[0].key == "relative_path" && members[1].key == "size_bytes"
    requires members[2].key == "sha256"
    ensures P.HasKey(members, "relative_path") && P.HasKey(members, "size_bytes") && P.HasKey(members, "sha256")
    ensures P.KeysAre(members, ENTRY_KEYS)
    ensures LastOf(members, "relative_path") == members[0].value
    ensures LastOf(members, "size_bytes") == members[1].value
    ensures LastOf(members, "sha256") == members[2].value
  {
    assert ENTRY_KEYS[0] == "relative_path" && ENTRY_KEYS[1] == "size_bytes" && ENTRY_KEYS[2] == "sha256";
    assert P.HasKey(members, ENTRY_KEYS[0]) && P.HasKey(members, ENTRY_KEYS[1]) && P.HasKey(members, ENTRY_KEYS[2]);
    assert members[0].key[0] != members[1].key[0] && members[1].key[1] != members[2].key[1];
    var two := members[..2];
    var one := two[..1];
    assert P.HasKey(one, "relative_path") && LastOf(one, "relative_path") == members[0].value;
    assert P.HasKey(two, "relative_path") && LastOf(two, "relative_path") == members[0].value;
    assert P.HasKey(two, "size_bytes") && LastOf(two, "size_bytes") == members[1].value;
  }

  lemma EntryRoundTrip(entry: ManifestLine)
    ensures EntryFields(EntryJson(entry)) == Some(RawEntry(entry.path, entry.size, entry.sha256))
  {
    EntryKeysDistinct(EntryJson(entry).members);
  }

  lemma {:induction false} EntriesRoundTrip(env: Env, entries: seq<ManifestLine>, n: nat)
    requires ValidEntries(env, entries) && n <= |entries| && AllShaped(EntryItems(entries)[..n])
    ensures ParseEntries(env, EntryItems(entries)[..n]) == Ok(entries[..n])
  {
    hide EntryFields, EntryJson;
    if n > 0 {
      var items := EntryItems(entries);
      assert items[..n][..n - 1] == items[..n - 1];
      EntriesRoundTrip(env, entries, n - 1);
      EntryRoundTrip(entries[n - 1]);
      assert ValidEntry(env, entries[n - 1]);
      assert entries[..n - 1] + [entries[n - 1]] == entries[..n];
    }
  }

  lemma ManifestPlain(entries: seq<ManifestLine>)
    ensures Plain(ManifestJson(entries))
  {
    var items := EntryItems(entries);
    forall i | 0 <= i < |items|
      ensures Plain(items[i])
    {
      assert Plain(EntryJson(entries[i]));
    }
    assert Plain(Arr(items));
  }

  lemma ManifestKeysFound(members: seq<Member>)
    requires |members| == 2 && members[0].key == "schema_version" && members[1].key == "entries"
    ensures P.KeysAre(members, MANIFEST_KEYS)
    ensures LastOf(members, "schema_version") == members[0].value && LastOf(members, "entries") == members[1].value
  {
    assert MANIFEST_KEYS[0] == "schema_version" && MANIFEST_KEYS[1] == "entries";
    assert P.HasKey(members, MANIFEST_KEYS[0]) && P.HasKey(members, MANIFEST_KEYS[1]);
    assert members[..1][0] == members[0];
  }

  lemma ItemsShaped(entries: seq<ManifestLine>)
    ensures AllShaped(EntryItems(entries))
  {
    hide EntryFields, EntryJson;
    var items := EntryItems(entries);
    forall i | 0 <= i < |items|
      ensures EntryFields(items[i]).Some?
    {
      EntryRoundTrip(entries[i]);
    }
  }

  lemma ItemsParse(env: Env, entries: seq<ManifestLine>)
    requires ValidEntries(env, entries)
    ensures AllShaped(EntryItems(entries)) && ParseEntries(env, EntryItems(entries)) == Ok(entries)
  {
    hide EntryFields, EntryItems, ParseEntries, ValidEntries, AllShaped;
    ItemsShaped(entries);
    assert EntryItems(entries)[..|entries|] == EntryItems(entries) && entries[..|entries|] == entries;
    EntriesRoundTrip(env, entries, |entries|);
  }

  /** A built manifest's text is within the limit the reader also checks. */
  lemma BuiltFits(env: Env, built: seq<ManifestLine>)
    requires Build(env, built) == Ok(built)
    ensures Utf8Length(CanonicalText(built)) <= MAX_MANIFEST_BYTES
  {
    hide CanonicalText, Utf8Length, Collides, SizesAgree;
  }

  /** The reader returns every built manifest unchanged. */
  lemma ManifestRoundTrip(env: Env, built: seq<ManifestLine>)
    requires ValidEntries(env, built) && Build(env, built) == Ok(built)
    ensures FromCanonical(env, CanonicalText(built)) == Ok(built)
  {
    hide Dumps, Loads, Build, Utf8Length, ParseEntries, AllShaped, ValidEntries, EntryItems, LastOf, P.KeysAre;
    ManifestPlain(built);
    LoadsDumps(ManifestJson(built));
    ManifestKeysFound(ManifestJson(built).members);
    ItemsParse(env, built);
    BuiltFits(env, built);
  }

  lemma {:induction false} ParsedValid(env: Env, items: seq<Json>)
    requires Normalizes(env) && AllShaped(items) && ParseEntries(env, items).Ok?
    ensures ValidEntries(env, ParseEntries(env, items).value)
  {
    if |items| > 0 {
      ParsedValid(env, items[..|items| - 1]);
    }
  }

  lemma ValidAlike(env: Env, left: seq<ManifestLine>, right: seq<ManifestLine>)
    requires multiset(left) == multiset(right) && ValidEntries(env, left)
    ensures ValidEntries(env, right)
  {
    forall i | 0 <= i < |right|
      ensures ValidEntry(env, right[i])
    {
      assert right[i] in multiset(left);
    }
  }

  /** The reader accepts a text exactly as the canonical text of what it returns. */
  lemma ManifestCanonicity(env: Env, data: string, built: seq<ManifestLine>)
    requires Normalizes(env)
    ensures FromCanonical(env, data) == Ok(built) <==>
      ValidEntries(env, built) && Build(env, built) == Ok(built) && data == CanonicalText(built)
  {
    hide Build, ValidEntries, FromCanonical, CanonicalText;
    if ValidEntries(env, built) && Build(env, built) == Ok(built) && data == CanonicalText(built) {
      ManifestRoundTrip(env, built);
    }
    if FromCanonical(env, data) == Ok(built) {
      var entries := AcceptedEntries(env, data, built);
      BuildIsStable(env, entries, built);
      ValidAlike(env, entries, built);
    }
  }

  /** An accepted text was rebuilt from valid entries. */
  lemma AcceptedEntries(env: Env, data: string, built: seq<ManifestLine>) returns (entries: seq<ManifestLine>)
    requires Normalizes(env) && FromCanonical(env, data) == Ok(built)
    ensures ValidEntries(env, entries) && Build(env, entries) == Ok(built) && data == CanonicalText(built)
  {
    hide Build, ValidEntries, Loads, CanonicalText, Utf8Length, ParseEntries, LastOf, AllShaped;
    var members := Loads(data).value.members;
    assert MANIFEST_KEYS[1] == "entries" && P.HasKey(members, MANIFEST_KEYS[1]);
    var items := LastOf(members, "entries").items;
    entries := ParseEntries(env, items).value;
    ParsedValid(env, items);
  }

  ghost predicate Producible(env: Env, data: string, supplied: seq<ManifestLine>) {
    ValidEntries(env, supplied) && Build(env, supplied).Ok? && data == CanonicalText(Build(env, supplied).value)
  }

  /** It accepts exactly the texts the builder can produce. */
  lemma AcceptsExactlyBuilt(env: Env, data: string)
    requires Normalizes(env)
    ensures FromCanonical(env, data).Ok? <==> exists supplied :: Producible(env, data, supplied)
  {
    if FromCanonical(env, data).Ok? {
      var built := FromCanonical(env, data).value;
      ManifestCanonicity(env, data, built);
      assert Producible(env, data, built);
    }
    if supplied: seq<ManifestLine> :| Producible(env, data, supplied) {
      var built := Build(env, supplied).value;
      BuildIsStable(env, supplied, built);
      ValidAlike(env, supplied, built);
      ManifestCanonicity(env, data, built);
    }
  }

  // ------------------------------------------------------------------ one escape

  function EscapeQuotes(s: string): string {
    if |s| == 0 then "" else (if s[0] == '"' then "\\\"" else [s[0]]) + EscapeQuotes(s[1..])
  }

  /** In a safe path the quote character is the only one printed escaped. */
  lemma {:induction false} OnlyQuotesEscape(s: string)
    requires forall i :: 0 <= i < |s| ==> s[i] != '\\' && !IsControl(s[i])
    ensures EscapeText(s) == EscapeQuotes(s)
  {
    if |s| > 0 {
      OnlyQuotesEscape(s[1..]);
    }
  }

  // -------------------------------------------------------------------- registry

  /** A built manifest is what registration demands of one. */
  lemma BuiltIsSound(env: Env, supplied: seq<ManifestLine>)
    requires ValidEntries(env, supplied) && Build(env, supplied).Ok?
    ensures R.SoundLines(Build(env, supplied).value)
  {
    var built := Build(env, supplied).value;
    ValidAlike(env, supplied, built);
    forall i | 0 <= i < |built|
      ensures R.SoundLine(built[i])
    {
      assert ValidEntry(env, built[i]);
    }
    forall i, j | 0 <= i < j < |built|
      ensures built[i].path != built[j].path
    {
      PathsDistinct(env, built, i, j);
    }
  }

  function Digests(lines: seq<ManifestLine>): set<string> {
    set i | 0 <= i < |lines| :: lines[i].sha256
  }

  lemma DigestsAppend(lines: seq<ManifestLine>, line: ManifestLine)
    ensures Digests(lines + [line]) == Digests(lines) + {line.sha256}
  {
    var all := lines + [line];
    assert all[|lines|] == line;
    forall i | 0 <= i < |lines|
      ensures all[i] == lines[i] && lines[i].sha256 in Digests(all)
    {
      assert all[i].sha256 in Digests(all);
    }
    assert all[|lines|].sha256 in Digests(all);
  }

  lemma UsesIsDigest(lines: seq<ManifestLine>, sha256: string)
    ensures R.Uses(lines, sha256) <==> sha256 in Digests(lines)
  {
  }

  /** The unique Blob count is the number of distinct digests. */
  lemma {:induction false} FirstUsesCountDigests(lines: seq<ManifestLine>)
    ensures |R.FirstUses(lines)| == |Digests(lines)| && Digests(R.FirstUses(lines)) == Digests(lines)
  {
    if |lines| > 0 {
      var n := |lines| - 1;
      FirstUsesCountDigests(lines[..n]);
      var before := R.FirstUses(lines[..n]);
      hide Digests, R.Uses;
      DigestsAppend(lines[..n], lines[n]);
      assert lines == lines[..n] + [lines[n]];
      DigestsAppend(before, lines[n]);
      UsesIsDigest(before, lines[n].sha256);
    }
  }
}
