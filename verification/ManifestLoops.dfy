/** The builder as it runs: a dictionary of sizes filled in one pass, then a scan
    over neighbouring keys. */
module ManifestLoops {
  import opened Base
  import opened Manifest
  import opened Rows
  import opened Sorting
  import opened TextOrder

  /** The sizes seen so far, one per digest. */
  ghost predicate SizesSeen(sizes: map<string, int>, entries: seq<ManifestLine>, n: nat)
    requires n <= |entries|
  {
    && (forall i :: 0 <= i < n ==> entries[i].sha256 in sizes && sizes[entries[i].sha256] == entries[i].size)
    && (forall digest :: digest in sizes ==> exists i :: 0 <= i < n && entries[i].sha256 == digest)
  }

  /** Fill the dictionary of sizes; a digest with two sizes is a conflict. */
  method CheckSizes(ordered: seq<ManifestLine>) returns (agree: bool)
    ensures agree == SizesAgree(ordered)
  {
    var sizes: map<string, int> := map[];
    for i := 0 to |ordered|
      invariant SizesSeen(sizes, ordered, i)
    {
      var entry := ordered[i];
      if entry.sha256 !in sizes {
        sizes := sizes[entry.sha256 := entry.size];
      }
      if sizes[entry.sha256] != entry.size {
        var j: int :| 0 <= j < i && ordered[j].sha256 == entry.sha256;
        assert ordered[j].size != entry.size;
        return false;
      }
    }
    agree := true;
  }

  /** Compare each key with the one before it. */
  method CheckCollisions(keys: seq<string>) returns (collides: bool)
    ensures collides == Collides(keys)
  {
    if |keys| == 0 {
      return false;
    }
    for i := 0 to |keys| - 1
      invariant forall j :: 0 <= j < i ==> !CollidesAt(keys, j)
    {
      var previous, current := keys[i], keys[i + 1];
      if current == previous || previous + "/" <= current {
        assert CollidesAt(keys, i);
        return true;
      }
    }
    collides := false;
  }

  method BuildManifest(env: Env, supplied: seq<ManifestLine>) returns (result: Result<seq<ManifestLine>, ManifestError>)
    ensures result == Build(env, supplied)
  {
    if |supplied| > MAX_MANIFEST_ENTRIES {
      return Err(BadManifest);
    }
    var ordered := Sort(ByPath, supplied);
    var agree := CheckSizes(ordered);
    if !agree {
      return Err(DigestConflict);
    }
    var collides := CheckCollisions(Sort(Le, Keys(env, ordered)));
    if collides {
      return Err(PathCollision);
    }
    if Utf8Length(CanonicalText(ordered)) > MAX_MANIFEST_BYTES {
      return Err(BadManifest);
    }
    result := Ok(ordered);
  }
}
