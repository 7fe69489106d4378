/** What the builder decides, for entries in any order, and the tree it should
    have refused. */
module Collisions {
  import opened AtomicTree
  import opened Base
  import opened Digest
  import opened Json
  import opened Manifest
  import opened ManifestProofs
  import opened Pull
  import opened Rows
  import opened Sorting
  import opened TextOrder

  lemma DistinctAlike(left: seq<string>, right: seq<string>)
    requires multiset(left) == multiset(right) && DistinctTexts(right)
    ensures DistinctTexts(left)
  {
    forall i, j | 0 <= i < j < |left|
      ensures left[i] != left[j]
    {
      if left[i] == left[j] {
        TwiceStaysTwice(left, right, i, j);
      }
    }
  }

  lemma ShieldedAlike(left: seq<string>, right: seq<string>)
    requires multiset(left) == multiset(right) && AncestorsShielded(right)
    ensures AncestorsShielded(left)
  {
    forall i, j | 0 <= i < |left| && 0 <= j < |left| && Below(left[j], left[i])
      ensures Shielded(left, left[i])
    {
      assert left[i] in multiset(right) && left[j] in multiset(right);
      var k :| 0 <= k < |right| && right[k] == left[i];
      var l :| 0 <= l < |right| && right[l] == left[j];
      assert Shielded(right, right[k]);
      var m :| 0 <= m < |right| && Shields(right[m], right[k]);
      assert right[m] in multiset(left);
      var n :| 0 <= n < |left| && left[n] == right[m];
    }
  }

  /** Keys that may stand in one manifest: no two alike, and none with another
      below it unless a third one stands between them. */
  ghost predicate Compatible(keys: seq<string>) {
    DistinctTexts(keys) && AncestorsShielded(keys)
  }

  /** The scan does not depend on the order in which keys were supplied. */
  lemma ScanAnyOrder(keys: seq<string>)
    ensures !Collides(Sort(Le, keys)) <==> Compatible(keys)
  {
    hide Collides, DistinctTexts, AncestorsShielded, Le, Sort;
    LeIsOrder();
    SortSorts(Le, keys);
    ScanExactly(Sort(Le, keys));
    if Compatible(keys) {
      DistinctAlike(Sort(Le, keys), keys);
      ShieldedAlike(Sort(Le, keys), keys);
    }
    if Compatible(Sort(Le, keys)) {
      DistinctAlike(keys, Sort(Le, keys));
      ShieldedAlike(keys, Sort(Le, keys));
    }
  }

  /** The builder's decision, with its errors in order, in terms of the entries as
      they were supplied. */
  lemma BuildDecides(env: Env, supplied: seq<ManifestLine>)
    ensures Build(env, supplied) ==
      if |supplied| > MAX_MANIFEST_ENTRIES then Err(BadManifest)
      else if !SizesAgree(supplied) then Err(DigestConflict)
      else if !Compatible(Keys(env, supplied)) then Err(PathCollision)
      else if Utf8Length(CanonicalText(Sort(ByPath, supplied))) > MAX_MANIFEST_BYTES then Err(BadManifest)
      else Ok(Sort(ByPath, supplied))
  {
    hide SizesAgree, Collides, Keys, CanonicalText, Utf8Length, Le, ByPath, Sort, Compatible;
    var ordered := Sort(ByPath, supplied);
    SizesAgreeIff(ordered, supplied);
    SameSortedKeys(env, ordered, supplied);
    ScanAnyOrder(Keys(env, supplied));
  }

  // ------------------------------------------------------------- an accepted clash

  lemma {:induction false} EscapedLength(s: string)
    ensures |EscapeText(s)| <= 6 * |s|
  {
    if |s| > 0 {
      EscapedLength(s[1..]);
    }
  }

  lemma {:induction false} Utf8AtMost(s: string)
    ensures Utf8Length(s) <= 4 * |s|
  {
    if |s| > 0 {
      Utf8AtMost(s[..|s| - 1]);
    }
  }

  lemma {:induction false} ItemsLength(items: seq<Json>, bound: nat)
    requires |items| > 0 && forall i :: 0 <= i < |items| ==> |Dumps(items[i])| <= bound
    ensures |DumpItems(items)| <= |items| * (bound + 1)
  {
    if |items| > 1 {
      ItemsLength(items[1..], bound);
      assert |items| * (bound + 1) == |items[1..]| * (bound + 1) + (bound + 1);
    }
  }

  lemma QuoteLength(s: string)
    ensures |Quote(s)| <= 6 * |s| + 2
  {
    EscapedLength(s);
  }

  lemma MembersLength(members: seq<Member>)
    requires |members| > 0
    ensures |DumpMembers(members)| ==
      |Quote(members[0].key)| + 2 + |Dumps(members[0].value)| + if |members| == 1 then 0 else |DumpMembers(members[1..])|
  {
  }

  /** The text of one short entry. */
  lemma EntryLength(entry: ManifestLine)
    requires |entry.path| <= 3 && |entry.sha256| == 64 && entry.size == 0
    ensures |Dumps(EntryJson(entry))| <= 1_000
  {
    var members := EntryJson(entry).members;
    QuoteLength(entry.path);
    QuoteLength(entry.sha256);
    QuoteLength("relative_path");
    QuoteLength("size_bytes");
    QuoteLength("sha256");
    assert IntText(0) == "0";
    hide Quote, DumpMembers, EscapeText, IntText;
    MembersLength(members);
    MembersLength(members[1..]);
    MembersLength(members[2..]);
    assert members[1..][1..] == members[2..] && members[1..][0] == members[1] && members[2..][0] == members[2];
    assert |Dumps(members[0].value)| <= 20;
    assert |Dumps(members[1].value)| == 1;
    assert |Dumps(members[2].value)| <= 6 * 64 + 2;
  }

  /** The text of a short manifest of short entries is far below the limit. */
  lemma ShortManifestFits(entries: seq<ManifestLine>)
    requires 0 < |entries| <= 3
    requires forall i :: 0 <= i < |entries| ==> |entries[i].path| <= 3 && |entries[i].sha256| == 64 && entries[i].size == 0
    ensures Utf8Length(CanonicalText(entries)) <= MAX_MANIFEST_BYTES
  {
    var items := EntryItems(entries);
    forall i | 0 <= i < |items|
      ensures |Dumps(items[i])| <= 1_000
    {
      EntryLength(entries[i]);
    }
    ItemsLength(items, 1_000);
    var members := ManifestJson(entries).members;
    QuoteLength("schema_version");
    QuoteLength("entries");
    hide Quote, DumpMembers, DumpItems, EscapeText, Utf8Length, EntryItems;
    MembersLength(members);
    MembersLength(members[1..]);
    assert members[1..][0] == members[1];
    assert |Dumps(members[1].value)| <= 1 + 3 * 1_001;
    assert |Dumps(members[0].value)| == 1;
    Utf8AtMost(CanonicalText(entries));
  }

  /** The library functions leave plain ASCII letters alone. */
  ghost predicate KeepsPlain(env: Env) {
    forall path | path in {"a", "a-b", "a/b"} :: env.nfc(path) == path && env.casefold(path) == path
  }

  /** Three empty files: one called `a`, one called `a-b`, and one in a directory `a`. */
  function Clash(digest: string): seq<ManifestLine> {
    [ManifestLine("a", 0, digest), ManifestLine("a-b", 0, digest), ManifestLine("a/b", 0, digest)]
  }

  lemma ClashSorted()
    ensures Le("a", "a-b") && Le("a-b", "a/b") && Le("a", "a/b") && Below("a/b", "a")
    ensures !Le("a-b", "a") && !Le("a/b", "a-b") && !Le("a/b", "a")
  {
    assert "a-b"[1..] == "-b" && "a/b"[1..] == "/b" && "a"[1..] == "";
    assert "a" + "/" == "a/" && "a/b"[..2] == "a/";
  }

  lemma {:induction false} OneSegment(s: string)
    requires '/' !in s
    ensures Segments(s) == [s]
  {
    if |s| > 0 {
      OneSegment(s[1..]);
      assert [s[0]] + s[1..] == s;
    }
  }

  /** A short path of plain characters with safe segments. */
  lemma PlainPath(env: Env, path: string)
    requires env.nfc(path) == path && 0 < |path| <= 3 && path[0] != '/' && |Segments(path)[0]| != 2
    requires forall i :: 0 <= i < |path| ==> path[i] in "ab-/"
    requires forall i :: 0 <= i < |Segments(path)| ==> PlainSegment(Segments(path)[i])
    ensures IsPath(env, path)
  {
    Utf8AtMost(path);
    forall i | 0 <= i < |Segments(path)|
      ensures SafeSegment(Segments(path)[i])
    {
      assert PlainSegment(Segments(path)[i]);
      Utf8AtMost(Segments(path)[i]);
    }
    hide Segments, Utf8Length, SafeSegment;
  }

  predicate PlainSegment(segment: string) {
    0 < |segment| <= 3 && segment[0] != '.'
  }

  lemma ClashIsValid(env: Env, digest: string)
    requires KeepsPlain(env) && IsDigest(digest)
    ensures ValidEntries(env, Clash(digest))
  {
    hide IsDigest;
    OneSegment("a");
    OneSegment("b");
    OneSegment("a-b");
    assert "a/b"[1..] == "/b" && "/b"[1..] == "b";
    assert Segments("/b") == ["", "b"];
    assert Segments("a/b") == ["a", "b"] by {
      assert ['a'] + "" == "a" && ["", "b"][1..] == ["b"];
    }
    hide Segments, Utf8Length, IsPath;
    PlainPath(env, "a");
    PlainPath(env, "a-b");
    PlainPath(env, "a/b");
  }

  lemma ClashIsOrdered(digest: string)
    ensures Sort(ByPath, Clash(digest)) == Clash(digest)
  {
    hide Le;
    ClashSorted();
    ByPathOrder();
    var lines := Clash(digest);
    assert Sorted(ByPath, lines);
    forall x, y | x in multiset(lines) && y in multiset(lines) && ByPath(x, y) && ByPath(y, x)
      ensures x == y
    {
      assert x in lines && y in lines;
    }
    SortSorts(ByPath, lines);
    SortedUnique(ByPath, Sort(ByPath, lines), lines);
  }

  lemma ClashKeys(env: Env, digest: string)
    requires KeepsPlain(env)
    ensures Keys(env, Clash(digest)) == ["a", "a-b", "a/b"] && Compatible(["a", "a-b", "a/b"])
  {
    var lines, keys := Clash(digest), ["a", "a-b", "a/b"];
    assert "a" in {"a", "a-b", "a/b"} && "a-b" in {"a", "a-b", "a/b"} && "a/b" in {"a", "a-b", "a/b"};
    assert KeyOf(env, lines[0]) == "a" && KeyOf(env, lines[1]) == "a-b" && KeyOf(env, lines[2]) == "a/b";
    assert lines[1..] == [lines[1], lines[2]] && lines[1..][1..] == [lines[2]] && [lines[2]][1..] == [];
    assert Keys(env, [lines[2]]) == ["a/b"];
    assert Keys(env, lines[1..]) == ["a-b", "a/b"];
    assert Shields(keys[1], keys[0]) && Shielded(keys, keys[0]);
    assert "a-b" + "/" == "a-b/" && "a/b" + "/" == "a/b/" && "a" + "/" == "a/";
  }

  /** The overlooked ancestor: the builder accepts `a`, `a-b` and `a/b` together,
      in whatever order they are supplied, and no pull of that manifest ever
      succeeds, since `a` cannot be a file and a directory. */
  lemma AncestorOverlooked(env: Env, digest: string, supplied: seq<ManifestLine>, world: World, free: bool)
    requires KeepsPlain(env) && IsDigest(digest) && multiset(supplied) == multiset(Clash(digest))
    requires world.manifest == Clash(digest)
    ensures ValidEntries(env, Clash(digest)) && Build(env, supplied) == Ok(Clash(digest))
    ensures Below(Clash(digest)[2].path, Clash(digest)[0].path)
    ensures !Succeeds(world, free)
  {
    hide Build, ValidEntries, CanonicalText, Utf8Length, Keys, Compatible, Sort, KeepsPlain, Materializes, Le;
    var lines := Clash(digest);
    ClashSorted();
    ClashIsValid(env, digest);
    ClashIsOrdered(digest);
    ClashKeys(env, digest);
    ShortManifestFits(lines);
    BuildDecides(env, lines);
    BuildOrderFree(env, supplied, lines);
    NeedsPlaceable(world, free);
    assert !Placeable(lines);
  }

  lemma NeedsPlaceable(world: World, free: bool)
    ensures Materializes(world, free) ==> Placeable(world.manifest)
  {
  }
}
