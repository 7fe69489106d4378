/** The canonical Dataset manifest: path rules, the builder with its collision
    scan, the canonical text and its reader. */
module Manifest {
  import opened Base
  import opened Digest
  import opened Json
  import opened Rows
  import opened Sorting
  import opened TextOrder
  import P = PlanCodec

  const MAX_MANIFEST_BYTES := 64 * 1024 * 1024
  const MAX_MANIFEST_ENTRIES := 100_000
  const MAX_PATH_SEGMENT_BYTES := 255
  const MAX_RELATIVE_PATH_BYTES := 1_024

  datatype ManifestError = BadManifest | DigestConflict | PathCollision | UnsafePath | InvalidDigest

  /** Unicode and floating-point facts the code takes from its libraries. */
  datatype Env = Env(nfc: string -> string, casefold: string -> string, alpha: char -> bool, isOne: string -> bool)

  /** Normalization is idempotent. */
  ghost predicate Normalizes(env: Env) {
    forall s :: env.nfc(env.nfc(s)) == env.nfc(s)
  }

  // --------------------------------------------------------------------- paths

  /** Category Cc. */
  predicate IsControl(c: char) {
    c as int < 0x20 || 0x7F <= c as int <= 0x9F
  }

  /** The text between separators. */
  function Segments(s: string): (segments: seq<string>)
    ensures |segments| > 0
  {
    if |s| == 0 then [""]
    else
      var rest := Segments(s[1..]);
      if s[0] == '/' then [""] + rest else [[s[0]] + rest[0]] + rest[1..]
  }

  predicate SafeSegment(segment: string) {
    segment != "" && segment != "." && segment != ".." && Utf8Length(segment) <= MAX_PATH_SEGMENT_BYTES
  }

  predicate DriveQualified(env: Env, segment: string) {
    |segment| == 2 && env.alpha(segment[0]) && segment[1] == ':'
  }

  predicate SafePath(env: Env, path: string) {
    && path != "" && path[0] != '/'
    && (forall i :: 0 <= i < |path| ==> path[i] != '\\' && !IsControl(path[i]))
    && !DriveQualified(env, Segments(path)[0])
    && Utf8Length(path) <= MAX_RELATIVE_PATH_BYTES
    && forall i :: 0 <= i < |Segments(path)| ==> SafeSegment(Segments(path)[i])
  }

  /** The constructor of a relative path keeps the normalized text. */
  function ParsePath(env: Env, raw: string): Result<string, ManifestError> {
    var path := env.nfc(raw);
    if SafePath(env, path) then Ok(path) else Err(UnsafePath)
  }

  /** A path a constructor returned. */
  predicate IsPath(env: Env, path: string) {
    env.nfc(path) == path && SafePath(env, path)
  }

  predicate ValidEntry(env: Env, entry: ManifestLine) {
    IsPath(env, entry.path) && IsDigest(entry.sha256) && entry.size >= 0
  }

  ghost predicate ValidEntries(env: Env, entries: seq<ManifestLine>) {
    forall i :: 0 <= i < |entries| ==> ValidEntry(env, entries[i])
  }

  // ------------------------------------------------------------------- builder

  predicate ByPath(left: ManifestLine, right: ManifestLine) {
    Le(left.path, right.path)
  }

  predicate SizesAgree(entries: seq<ManifestLine>) {
    forall i, j :: 0 <= i < |entries| && 0 <= j < |entries| && entries[i].sha256 == entries[j].sha256 ==> entries[i].size == entries[j].size
  }

  function KeyOf(env: Env, entry: ManifestLine): string {
    env.nfc(env.casefold(entry.path))
  }

  function Keys(env: Env, entries: seq<ManifestLine>): (keys: seq<string>)
    ensures |keys| == |entries|
  {
    if |entries| == 0 then [] else [KeyOf(env, entries[0])] + Keys(env, entries[1..])
  }

  /** The scan of neighbours in sorted order. */
  predicate CollidesAt(keys: seq<string>, i: int)
    requires 0 <= i < |keys| - 1
  {
    keys[i + 1] == keys[i] || Below(keys[i + 1], keys[i])
  }

  predicate Collides(keys: seq<string>) {
    exists i :: 0 <= i < |keys| - 1 && CollidesAt(keys, i)
  }

  function EntryJson(entry: ManifestLine): Json {
    Obj([Member("relative_path", Str(entry.path)), Member("size_bytes", Int(entry.size)), Member("sha256", Str(entry.sha256))])
  }

  function EntryItems(entries: seq<ManifestLine>): (items: seq<Json>)
    ensures |items| == |entries|
  {
    seq(|entries|, i requires 0 <= i < |entries| => EntryJson(entries[i]))
  }

  function ManifestJson(entries: seq<ManifestLine>): Json {
    Obj([Member("schema_version", Int(1)), Member("entries", Arr(EntryItems(entries)))])
  }

  function CanonicalText(entries: seq<ManifestLine>): string {
    Dumps(ManifestJson(entries))
  }

  /** Build returns the entries in canonical order; the text is `CanonicalText` of it. */
  function Build(env: Env, supplied: seq<ManifestLine>): Result<seq<ManifestLine>, ManifestError> {
    var ordered := Sort(ByPath, supplied);
    if |supplied| > MAX_MANIFEST_ENTRIES then Err(BadManifest)
    else if !SizesAgree(ordered) then Err(DigestConflict)
    else if Collides(Sort(Le, Keys(env, ordered))) then Err(PathCollision)
    else if Utf8Length(CanonicalText(ordered)) > MAX_MANIFEST_BYTES then Err(BadManifest)
    else Ok(ordered)
  }

  // -------------------------------------------------------------------- reader

  /** A repeated key keeps its last value, as in a dictionary. */
  function LastOf(members: seq<Member>, key: string): Json
    requires P.HasKey(members, key)
  {
    if members[|members| - 1].key == key then members[|members| - 1].value
    else
      assert P.HasKey(members[..|members| - 1], key) by {
        var i :| 0 <= i < |members| && members[i].key == key;
        assert members[..|members| - 1][i].key == key;
      }
      LastOf(members[..|members| - 1], key)
  }

  const MANIFEST_KEYS := ["schema_version", "entries"]

  const ENTRY_KEYS := ["relative_path", "size_bytes", "sha256"]

  /** Equality with the integer 1, which `true` and `1.0` also satisfy. */
  predicate EqualsOne(env: Env, value: Json) {
    value == Int(1) || value == Bool(true) || (value.Real? && env.isOne(value.spelling))
  }

  datatype RawEntry = RawEntry(path: string, size: int, sha256: string)

  /** The shape check of one entry object. */
  function EntryFields(item: Json): Option<RawEntry> {
    if !item.Obj? || !P.KeysAre(item.members, ENTRY_KEYS) then None
    else
      assert forall i :: 0 <= i < |ENTRY_KEYS| ==> P.HasKey(item.members, ENTRY_KEYS[i]);
      assert ENTRY_KEYS[0] == "relative_path" && ENTRY_KEYS[1] == "size_bytes" && ENTRY_KEYS[2] == "sha256";
      var path, size, sha256 := LastOf(item.members, "relative_path"), LastOf(item.members, "size_bytes"), LastOf(item.members, "sha256");
      if path.Str? && size.Int? && sha256.Str? then Some(RawEntry(path.s, size.n, sha256.s)) else None
  }

  predicate AllShaped(items: seq<Json>) {
    forall i :: 0 <= i < |items| ==> EntryFields(items[i]).Some?
  }

  function ParseEntry(env: Env, raw: RawEntry): Result<ManifestLine, ManifestError> {
    var path :- ParsePath(env, raw.path);
    if !IsDigest(raw.sha256) then Err(InvalidDigest)
    else if raw.size < 0 then Err(BadManifest)
    else Ok(ManifestLine(path, raw.size, raw.sha256))
  }

  function ParseEntries(env: Env, items: seq<Json>): Result<seq<ManifestLine>, ManifestError>
    requires AllShaped(items)
  {
    if |items| == 0 then Ok([])
    else
      var before :- ParseEntries(env, items[..|items| - 1]);
      var entry :- ParseEntry(env, EntryFields(items[|items| - 1]).value);
      Ok(before + [entry])
  }

  function FromCanonical(env: Env, data: string): Result<seq<ManifestLine>, ManifestError> {
    if Utf8Length(data) > MAX_MANIFEST_BYTES then Err(BadManifest)
    else
      match Loads(data)
      case None => Err(BadManifest)
      case Some(payload) =>
        if !payload.Obj? || !P.KeysAre(payload.members, MANIFEST_KEYS) then Err(BadManifest)
        else
          assert forall i :: 0 <= i < |MANIFEST_KEYS| ==> P.HasKey(payload.members, MANIFEST_KEYS[i]);
          assert MANIFEST_KEYS[0] == "schema_version" && MANIFEST_KEYS[1] == "entries";
          var schema, items := LastOf(payload.members, "schema_version"), LastOf(payload.members, "entries");
          if !EqualsOne(env, schema) || !items.Arr? || !AllShaped(items.items) then Err(BadManifest)
          else
            var entries :- ParseEntries(env, items.items);
            var rebuilt :- Build(env, entries);
            if CanonicalText(rebuilt) == data then Ok(rebuilt) else Err(BadManifest)
  }
}
