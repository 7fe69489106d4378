/** The canonical manifest, spelled out: the order of its entries and its text. */
module ManifestText {
  import opened Base
  import opened Json
  import opened Manifest
  import opened ManifestProofs
  import opened Rows
  import opened Sorting
  import opened TextOrder
  import Digest
  import P = PlanCodec

  // --------------------------------------------------------------------- order

  /** The texts agree up to `n`, where the left one ends or has the smaller character. */
  predicate SmallerAt(left: string, right: string, n: nat) {
    && n <= |left| && n < |right| && left[..n] == right[..n]
    && (n == |left| || left[n] < right[n])
  }

  lemma {:induction false} LeFindsDifference(left: string, right: string) returns (n: nat)
    requires Le(left, right) && left != right
    ensures SmallerAt(left, right, n)
  {
    if |left| > 0 && left[0] == right[0] {
      assert left == [left[0]] + left[1..] && right == [right[0]] + right[1..];
      var m := LeFindsDifference(left[1..], right[1..]);
      n := m + 1;
      assert left[..n] == [left[0]] + left[1..][..m] && right[..n] == [right[0]] + right[1..][..m];
    } else {
      n := 0;
    }
  }

  /** A built manifest holds the supplied entries, strictly ascending by path. */
  lemma BuiltAscends(env: Env, supplied: seq<ManifestLine>, built: seq<ManifestLine>)
    requires Build(env, supplied) == Ok(built)
    ensures multiset(built) == multiset(supplied)
    ensures forall i, j :: 0 <= i < j < |built| ==>
      Le(built[i].path, built[j].path) && exists n: nat :: SmallerAt(built[i].path, built[j].path, n)
  {
    hide Le, Keys, Collides, SmallerAt;
    ByPathOrder();
    SortSorts(ByPath, supplied);
    forall i, j | 0 <= i < j < |built|
      ensures Le(built[i].path, built[j].path) && exists n: nat :: SmallerAt(built[i].path, built[j].path, n)
    {
      assert ByPath(built[i], built[j]);
      PathsDistinct(env, built, i, j);
      var n := LeFindsDifference(built[i].path, built[j].path);
    }
  }

  // ---------------------------------------------------------------------- text

  /** One entry object, its keys in the order of the protocol. */
  function LineText(line: ManifestLine): string {
    P.Field("{", "relative_path", Quote(line.path)) +
    (P.Field(",", "size_bytes", IntText(line.size)) +
     (P.Field(",", "sha256", "\"" + line.sha256 + "\"") + "}"))
  }

  function LinesText(lines: seq<ManifestLine>): string {
    if |lines| == 0 then ""
    else LineText(lines[0]) + if |lines| == 1 then "" else "," + LinesText(lines[1..])
  }

  lemma EntryKeysNeedNoEscape()
    ensures P.NeedsNoEscape("relative_path")
    ensures P.NeedsNoEscape("entries")
  {
  }

  lemma DumpThree(a: Member, b: Member, c: Member)
    requires P.NeedsNoEscape(a.key) && P.NeedsNoEscape(b.key) && P.NeedsNoEscape(c.key)
    ensures Dumps(Obj([a, b, c])) ==
      P.Field("{", a.key, Dumps(a.value)) + (P.Field(",", b.key, Dumps(b.value)) + (P.Field(",", c.key, Dumps(c.value)) + "}"))
  {
    hide Dumps, P.Field, P.NeedsNoEscape, DumpMembers;
    P.DumpsObject([a, b, c]);
    P.DumpMembersFields("{", a, [b, c]);
    P.DumpMembersFields(",", b, [c]);
    P.DumpMembersFields(",", c, []);
    assert [a] + [b, c] == [a, b, c] && [b] + [c] == [b, c] && [c] + [] == [c];
  }

  lemma DumpTwo(a: Member, b: Member)
    requires P.NeedsNoEscape(a.key) && P.NeedsNoEscape(b.key)
    ensures Dumps(Obj([a, b])) == P.Field("{", a.key, Dumps(a.value)) + (P.Field(",", b.key, Dumps(b.value)) + "}")
  {
    hide Dumps, P.Field, P.NeedsNoEscape, DumpMembers;
    P.DumpsObject([a, b]);
    P.DumpMembersFields("{", a, [b]);
    P.DumpMembersFields(",", b, []);
    assert [a] + [b] == [a, b] && [b] + [] == [b];
  }

  lemma EntryIsLineText(line: ManifestLine)
    requires Digest.IsDigest(line.sha256)
    ensures Dumps(EntryJson(line)) == LineText(line)
  {
    hide DumpMembers, P.Field, IntText, P.NeedsNoEscape, Digest.IsDigest, EscapeText;
    EntryKeysNeedNoEscape();
    P.PartValueKeysNeedNoEscape();
    P.DigestNeedsNoEscape(line.sha256);
    P.DumpsLeaves(line.size, line.sha256);
    DumpThree(Member("relative_path", Str(line.path)), Member("size_bytes", Int(line.size)), Member("sha256", Str(line.sha256)));
  }

  lemma {:induction false} ItemsAreLines(lines: seq<ManifestLine>)
    requires |lines| > 0 && forall i :: 0 <= i < |lines| ==> Digest.IsDigest(lines[i].sha256)
    ensures DumpItems(EntryItems(lines)) == LinesText(lines) + "]"
  {
    hide Dumps, DumpItems, EntryJson, Digest.IsDigest, LineText;
    EntryIsLineText(lines[0]);
    P.DumpItemsStep(EntryItems(lines));
    if |lines| > 1 {
      assert EntryItems(lines)[1..] == EntryItems(lines[1..]);
      ItemsAreLines(lines[1..]);
    }
  }

  lemma DumpsArray(items: seq<Json>)
    ensures Dumps(Arr(items)) == if |items| == 0 then "[]" else "[" + DumpItems(items)
  {
  }

  lemma ListIsLines(lines: seq<ManifestLine>)
    requires forall i :: 0 <= i < |lines| ==> Digest.IsDigest(lines[i].sha256)
    ensures Dumps(Arr(EntryItems(lines))) == "[" + LinesText(lines) + "]"
  {
    hide Dumps, DumpItems, Digest.IsDigest, LineText, EntryItems;
    DumpsArray(EntryItems(lines));
    if |lines| > 0 {
      hide LinesText;
      ItemsAreLines(lines);
    }
  }

  /** The bytes a manifest is identified by, whatever printed them. */
  lemma CanonicalTextIs(lines: seq<ManifestLine>)
    requires forall i :: 0 <= i < |lines| ==> Digest.IsDigest(lines[i].sha256)
    ensures CanonicalText(lines) ==
      P.Field("{", "schema_version", "1") + (P.Field(",", "entries", "[" + LinesText(lines) + "]") + "}")
  {
    hide Dumps, P.Field, EntryItems, LinesText, Digest.IsDigest, P.NeedsNoEscape;
    P.PlanVersionKeyNeedsNoEscape();
    EntryKeysNeedNoEscape();
    P.DumpsLeaves(1, "");
    OneText();
    DumpTwo(Member("schema_version", Int(1)), Member("entries", Arr(EntryItems(lines))));
    ListIsLines(lines);
  }

  lemma OneText()
    ensures IntText(1) == "1"
  {
  }
}
