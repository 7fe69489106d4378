/** The checksum-complete PartPlan and its one canonical text. */
module PlanCodec {
  import opened Base
  import Digest
  import opened Json
  import opened PartRanges
  import opened Sorting

  // ------------------------------------------------------------------- values

  predicate ValidDefinition(part: PartDefinition) {
    ValidRange(part.range) && Digest.IsDigest(part.sha256)
  }

  function Ranges(parts: seq<PartDefinition>): (ranges: seq<Range>)
    ensures |ranges| == |parts|
  {
    seq(|parts|, i requires 0 <= i < |parts| => parts[i].range)
  }

  /** What the PartPlan constructor admits. */
  predicate ValidPlan(plan: PartPlan) {
    && plan.schema == PART_PLAN_SCHEMA_VERSION
    && MAX_SINGLE_PUT_BYTES < plan.blobSize <= MAX_MULTIPART_BLOB_BYTES
    && plan.partSize == PartSizeFor(plan.blobSize)
    && RangesAccepted(plan.blobSize, plan.partSize, Ranges(plan.parts))
    && forall i :: 0 <= i < |plan.parts| ==> ValidDefinition(plan.parts[i])
  }

  predicate ByPartNumber(left: PartDefinition, right: PartDefinition) {
    left.range.number <= right.range.number
  }

  /** Sort the definitions, then validate. */
  function Build(schema: int, blobSize: int, partSize: int, parts: seq<PartDefinition>): Result<PartPlan, PlanError> {
    var plan := PartPlan(schema, blobSize, partSize, Sort(ByPartNumber, parts));
    if ValidPlan(plan) then Ok(plan) else Err(ManifestMismatch)
  }

  // ----------------------------------------------------------------- printing

  function PartJson(part: PartDefinition): Json {
    Obj([Member("part_number", Int(part.range.number)),
         Member("offset_bytes", Int(part.range.offset)),
         Member("size_bytes", Int(part.range.size)),
         Member("sha256", Str(part.sha256))])
  }

  function PartItems(parts: seq<PartDefinition>): (items: seq<Json>)
    ensures |items| == |parts|
  {
    seq(|parts|, i requires 0 <= i < |parts| => PartJson(parts[i]))
  }

  function PlanJson(plan: PartPlan): Json {
    Obj([Member("schema_version", Int(plan.schema)),
         Member("blob_size_bytes", Int(plan.blobSize)),
         Member("part_size_bytes", Int(plan.partSize)),
         Member("part_count", Int(|plan.parts|)),
         Member("parts", Arr(PartItems(plan.parts)))])
  }

  function CanonicalText(plan: PartPlan): string {
    Dumps(PlanJson(plan))
  }

  // ------------------------------------------------------------------ reading

  predicate HasKey(members: seq<Member>, key: string) {
    exists i :: 0 <= i < |members| && members[i].key == key
  }

  function Lookup(members: seq<Member>, key: string): Json
    requires HasKey(members, key)
  {
    if members[0].key == key then members[0].value
    else
      assert HasKey(members[1..], key) by {
        var i :| 0 <= i < |members| && members[i].key == key;
        assert members[1..][i - 1].key == key;
      }
      Lookup(members[1..], key)
  }

  predicate DistinctKeys(members: seq<Member>) {
    forall i, j :: 0 <= i < j < |members| ==> members[i].key != members[j].key
  }

  /** No object anywhere in the document repeats a key. */
  predicate NoDuplicateKeys(v: Json)
    decreases v
  {
    match v
    case Arr(items) => forall i :: 0 <= i < |items| ==> NoDuplicateKeys(items[i])
    case Obj(members) =>
      DistinctKeys(members) && forall i :: 0 <= i < |members| ==> NoDuplicateKeys(members[i].value)
    case _ => true
  }

  /** `members` has exactly these keys, as a set comparison decides it. */
  predicate KeysAre(members: seq<Member>, keys: seq<string>) {
    && (forall i :: 0 <= i < |keys| ==> HasKey(members, keys[i]))
    && (forall i :: 0 <= i < |members| ==> members[i].key in keys)
  }

  const PLAN_KEYS := ["schema_version", "blob_size_bytes", "part_size_bytes", "part_count", "parts"]

  const PART_KEYS := ["part_number", "offset_bytes", "size_bytes", "sha256"]

  function ParsePart(item: Json): Result<PartDefinition, PlanError> {
    if !item.Obj? || !KeysAre(item.members, PART_KEYS) then Err(ManifestMismatch)
    else
      assert forall i :: 0 <= i < |PART_KEYS| ==> HasKey(item.members, PART_KEYS[i]);
      assert PART_KEYS[0] == "part_number" && PART_KEYS[1] == "offset_bytes" && PART_KEYS[2] == "size_bytes" && PART_KEYS[3] == "sha256";
      var number, offset, size, sha256 :=
        Lookup(item.members, "part_number"), Lookup(item.members, "offset_bytes"),
        Lookup(item.members, "size_bytes"), Lookup(item.members, "sha256");
      if !number.Int? || !offset.Int? || !size.Int? || !sha256.Str? then Err(ManifestMismatch)
      else
        var part := PartDefinition(Range(number.n, offset.n, size.n), sha256.s);
        if ValidDefinition(part) then Ok(part) else Err(ManifestMismatch)
  }

  function ParseParts(items: seq<Json>): Result<seq<PartDefinition>, PlanError> {
    if |items| == 0 then Ok([])
    else
      var parts :- ParseParts(items[..|items| - 1]);
      var part :- ParsePart(items[|items| - 1]);
      Ok(parts + [part])
  }

  /** The document after its shape has been checked. */
  function ParsePayload(payload: Json, data: string): Result<PartPlan, PlanError> {
    if !payload.Obj? || !KeysAre(payload.members, PLAN_KEYS) then Err(ManifestMismatch)
    else
      var members := payload.members;
      assert forall i :: 0 <= i < |PLAN_KEYS| ==> HasKey(members, PLAN_KEYS[i]);
      assert PLAN_KEYS[0] == "schema_version" && PLAN_KEYS[1] == "blob_size_bytes" && PLAN_KEYS[2] == "part_size_bytes"
          && PLAN_KEYS[3] == "part_count" && PLAN_KEYS[4] == "parts";
      var schema, blobSize, partSize, count, parts :=
        Lookup(members, "schema_version"), Lookup(members, "blob_size_bytes"), Lookup(members, "part_size_bytes"),
        Lookup(members, "part_count"), Lookup(members, "parts");
      if !schema.Int? || !blobSize.Int? || !partSize.Int? || !count.Int? || !parts.Arr? then Err(ManifestMismatch)
      else
        var definitions :- ParseParts(parts.items);
        var plan :- Build(schema.n, blobSize.n, partSize.n, definitions);
        if count.n != |plan.parts| || CanonicalText(plan) != data then Err(ManifestMismatch) else Ok(plan)
  }

  function ParsePlan(data: string): Result<PartPlan, PlanError> {
    match Loads(data)
    case None => Err(ManifestMismatch)
    case Some(payload) => if NoDuplicateKeys(payload) then ParsePayload(payload, data) else Err(ManifestMismatch)
  }

  /** The duplicate-key hook, filling its dictionary pair by pair. */
  method RejectDuplicateKeys(pairs: seq<Member>) returns (result: Result<map<string, Json>, PlanError>)
    ensures result.Ok? <==> DistinctKeys(pairs)
    ensures result.Ok? ==> forall i :: 0 <= i < |pairs| ==> pairs[i].key in result.value && result.value[pairs[i].key] == pairs[i].value
    ensures result.Ok? ==> forall key :: key in result.value ==> HasKey(pairs, key) && result.value[key] == Lookup(pairs, key)
  {
    var dictionary: map<string, Json> := map[];
    for i := 0 to |pairs|
      invariant forall j, k :: 0 <= j < k < i ==> pairs[j].key != pairs[k].key
      invariant forall j :: 0 <= j < i ==> pairs[j].key in dictionary && dictionary[pairs[j].key] == pairs[j].value
      invariant forall key :: key in dictionary ==> exists j :: 0 <= j < i && pairs[j].key == key
    {
      if pairs[i].key in dictionary {
        return Err(ManifestMismatch);
      }
      dictionary := dictionary[pairs[i].key := pairs[i].value];
    }
    forall key | key in dictionary
      ensures HasKey(pairs, key) && dictionary[key] == Lookup(pairs, key)
    {
      var j :| 0 <= j < |pairs| && pairs[j].key == key;
      LookupAt(pairs, j);
    }
    result := Ok(dictionary);
  }

  /** The parser with its accumulating loop over part objects. */
  method ParseCanonicalPartPlan(data: string) returns (result: Result<PartPlan, PlanError>)
    ensures result == ParsePlan(data)
    ensures result.Ok? ==> CanonicalText(result.value) == data && ValidPlan(result.value)
  {
    var loaded := Loads(data);
    if loaded.None? || !NoDuplicateKeys(loaded.value) {
      return Err(ManifestMismatch);
    }
    var payload := loaded.value;
    if !payload.Obj? || !KeysAre(payload.members, PLAN_KEYS) {
      return Err(ManifestMismatch);
    }
    assert forall i :: 0 <= i < |PLAN_KEYS| ==> HasKey(payload.members, PLAN_KEYS[i]);
    assert PLAN_KEYS[0] == "schema_version" && PLAN_KEYS[1] == "blob_size_bytes" && PLAN_KEYS[2] == "part_size_bytes"
        && PLAN_KEYS[3] == "part_count" && PLAN_KEYS[4] == "parts";
    var schema, blobSize := Lookup(payload.members, "schema_version"), Lookup(payload.members, "blob_size_bytes");
    var partSize, count := Lookup(payload.members, "part_size_bytes"), Lookup(payload.members, "part_count");
    var parts := Lookup(payload.members, "parts");
    if !schema.Int? || !blobSize.Int? || !partSize.Int? || !count.Int? || !parts.Arr? {
      return Err(ManifestMismatch);
    }
    var definitions: seq<PartDefinition> := [];
    for i := 0 to |parts.items|
      invariant ParseParts(parts.items[..i]) == Ok(definitions)
    {
      assert parts.items[..i + 1][..i] == parts.items[..i];
      var part := ParsePart(parts.items[i]);
      if part.Err? {
        ParsePartsFails(parts.items, i + 1);
        return Err(part.error);
      }
      definitions := definitions + [part.value];
    }
    assert parts.items[..|parts.items|] == parts.items;
    var built := Build(schema.n, blobSize.n, partSize.n, definitions);
    if built.Err? {
      return Err(built.error);
    }
    if count.n != |built.value.parts| || CanonicalText(built.value) != data {
      return Err(ManifestMismatch);
    }
    result := Ok(built.value);
  }

  lemma {:induction false} ParsePartsFails(items: seq<Json>, n: nat)
    requires n <= |items| && ParseParts(items[..n]).Err?
    ensures ParseParts(items) == Err(ManifestMismatch)
    decreases |items| - n
  {
    if n == |items| {
      assert items[..n] == items;
      ParsePartsError(items);
    } else {
      assert items[..n + 1][..n] == items[..n];
      ParsePartsFails(items, n + 1);
    }
  }

  lemma {:induction false} ParsePartsError(items: seq<Json>)
    requires ParseParts(items).Err?
    ensures ParseParts(items) == Err(ManifestMismatch)
  {
    if |items| > 0 && ParseParts(items[..|items| - 1]).Err? {
      ParsePartsError(items[..|items| - 1]);
    }
  }

  // ------------------------------------------------------------------- proofs

  lemma {:induction false} LookupAt(members: seq<Member>, i: int)
    requires DistinctKeys(members) && 0 <= i < |members|
    ensures HasKey(members, members[i].key) && Lookup(members, members[i].key) == members[i].value
  {
    if i > 0 {
      LookupAt(members[1..], i - 1);
    }
  }

  lemma PartRoundTrip(part: PartDefinition)
    requires ValidDefinition(part)
    ensures ParsePart(PartJson(part)) == Ok(part)
    ensures Plain(PartJson(part)) && NoDuplicateKeys(PartJson(part))
  {
    var members := PartJson(part).members;
    PartKeysDistinct(members);
    LookupAt(members, 0);
    LookupAt(members, 1);
    LookupAt(members, 2);
    LookupAt(members, 3);
    assert PART_KEYS[0] == members[0].key && PART_KEYS[1] == members[1].key && PART_KEYS[2] == members[2].key && PART_KEYS[3] == members[3].key;
    assert KeysAre(members, PART_KEYS);
  }

  lemma PartKeysDistinct(members: seq<Member>)
    requires |members| == 4
    requires members[0].key == "part_number" && members[1].key == "offset_bytes" && members[2].key == "size_bytes"
    requires members[3].key == "sha256"
    ensures DistinctKeys(members)
  {
    assert members[0].key[0] == 'p' && members[1].key[0] == 'o' && |members[2].key| == 10 && |members[3].key| == 6;
  }

  lemma PlanKeysDistinct(members: seq<Member>)
    requires |members| == 5
    requires members[0].key == "schema_version" && members[1].key == "blob_size_bytes"
    requires members[2].key == "part_size_bytes"
    requires members[3].key == "part_count" && members[4].key == "parts"
    ensures DistinctKeys(members)
  {
    assert |members[0].key| == 14 && |members[1].key| == 15 && |members[2].key| == 15 && |members[3].key| == 10 && |members[4].key| == 5;
    assert members[1].key[0] == 'b' && members[2].key[0] == 'p';
  }

  lemma {:induction false} PartsRoundTrip(parts: seq<PartDefinition>, n: nat)
    requires n <= |parts| && forall i :: 0 <= i < |parts| ==> ValidDefinition(parts[i])
    ensures ParseParts(PartItems(parts)[..n]) == Ok(parts[..n])
  {
    var items := PartItems(parts);
    if n > 0 {
      PartsRoundTrip(parts, n - 1);
      PartRoundTrip(parts[n - 1]);
      assert items[..n][..n - 1] == items[..n - 1];
      assert parts[..n - 1] + [parts[n - 1]] == parts[..n];
    }
  }

  lemma ByPartNumberTotal()
    ensures TotalPreorder(ByPartNumber)
  {
  }

  /** A valid plan is already in number order and numbers its parts distinctly. */
  lemma ValidPlanSorted(plan: PartPlan)
    requires ValidPlan(plan)
    ensures Sorted(ByPartNumber, plan.parts) && Discriminates(ByPartNumber, multiset(plan.parts))
    ensures Sort(ByPartNumber, plan.parts) == plan.parts
  {
    forall i | 0 <= i < |plan.parts|
      ensures plan.parts[i].range.number == i + 1
    {
      assert StepAccepted(plan.partSize, Ranges(plan.parts), i);
    }
    forall x, y | x in multiset(plan.parts) && y in multiset(plan.parts) && ByPartNumber(x, y) && ByPartNumber(y, x)
      ensures x == y
    {
      var i :| 0 <= i < |plan.parts| && plan.parts[i] == x;
      var j :| 0 <= j < |plan.parts| && plan.parts[j] == y;
    }
    ByPartNumberTotal();
    SortFixed(ByPartNumber, plan.parts);
  }

  lemma PlanJsonPlain(plan: PartPlan)
    requires forall i :: 0 <= i < |plan.parts| ==> ValidDefinition(plan.parts[i])
    ensures Plain(PlanJson(plan)) && NoDuplicateKeys(PlanJson(plan))
  {
    var members := PlanJson(plan).members;
    PlanKeysDistinct(members);
    var items := members[4].value.items;
    forall i | 0 <= i < |items|
      ensures Plain(items[i]) && NoDuplicateKeys(items[i])
    {
      PartRoundTrip(plan.parts[i]);
    }
    assert Plain(members[4].value) && NoDuplicateKeys(members[4].value);
    forall i | 0 <= i < |members|
      ensures Plain(members[i].value) && NoDuplicateKeys(members[i].value)
    {
      assert i < 4 ==> members[i].value.Int?;
    }
  }

  /** Reading the canonical text of a valid plan gives the plan back. */
  lemma PlanRoundTrip(plan: PartPlan)
    requires ValidPlan(plan)
    ensures ParsePlan(CanonicalText(plan)) == Ok(plan)
  {
    PlanJsonPlain(plan);
    LoadsDumps(PlanJson(plan));
    PayloadRoundTrip(plan);
  }

  lemma PlanMembersLookup(members: seq<Member>)
    requires |members| == 5
    requires members[0].key == "schema_version" && members[1].key == "blob_size_bytes"
    requires members[2].key == "part_size_bytes"
    requires members[3].key == "part_count" && members[4].key == "parts"
    ensures KeysAre(members, PLAN_KEYS)
    ensures HasKey(members, "schema_version") && Lookup(members, "schema_version") == members[0].value
    ensures HasKey(members, "blob_size_bytes") && Lookup(members, "blob_size_bytes") == members[1].value
    ensures HasKey(members, "part_size_bytes") && Lookup(members, "part_size_bytes") == members[2].value
    ensures HasKey(members, "part_count") && Lookup(members, "part_count") == members[3].value
    ensures HasKey(members, "parts") && Lookup(members, "parts") == members[4].value
  {
    PlanKeysDistinct(members);
    hide Lookup, DistinctKeys;
    LookupAt(members, 0);
    LookupAt(members, 1);
    LookupAt(members, 2);
    LookupAt(members, 3);
    LookupAt(members, 4);
    assert PLAN_KEYS[0] == members[0].key && PLAN_KEYS[1] == members[1].key && PLAN_KEYS[2] == members[2].key
        && PLAN_KEYS[3] == members[3].key && PLAN_KEYS[4] == members[4].key;
  }

  lemma PayloadRoundTrip(plan: PartPlan)
    requires ValidPlan(plan)
    ensures ParsePayload(PlanJson(plan), CanonicalText(plan)) == Ok(plan)
  {
    hide Dumps, NoDuplicateKeys, ParseParts, KeysAre, Lookup, Sort;
    var members := PlanJson(plan).members;
    var items := members[4].value.items;
    PlanMembersLookup(members);
    PartsRoundTrip(plan.parts, |plan.parts|);
    assert items[..|items|] == items && plan.parts[..|plan.parts|] == plan.parts;
    ValidPlanSorted(plan);
  }

  /** The parser accepts a text only as the canonical text of what it returns:
      accepted texts and valid plans correspond one to one. */
  lemma PlanCanonicity(data: string, plan: PartPlan)
    ensures ParsePlan(data) == Ok(plan) <==> ValidPlan(plan) && data == CanonicalText(plan)
  {
    if ValidPlan(plan) && data == CanonicalText(plan) {
      PlanRoundTrip(plan);
    }
  }

  lemma CanonicalTextInjective(left: PartPlan, right: PartPlan)
    requires ValidPlan(left) && ValidPlan(right) && CanonicalText(left) == CanonicalText(right)
    ensures left == right
  {
    PlanRoundTrip(left);
    PlanRoundTrip(right);
  }

  /** Canonical bytes do not depend on the order in which parts are supplied. */
  lemma BuildOrderFree(schema: int, blobSize: int, partSize: int, left: seq<PartDefinition>, right: seq<PartDefinition>)
    requires multiset(left) == multiset(right)
    ensures Build(schema, blobSize, partSize, left).Ok? ==>
      Build(schema, blobSize, partSize, right) == Build(schema, blobSize, partSize, left)
  {
    if Build(schema, blobSize, partSize, left).Ok? {
      ValidPlanSorted(Build(schema, blobSize, partSize, left).value);
      ByPartNumberTotal();
      SortCanonical(ByPartNumber, left, right);
    }
  }

  // ----------------------------------------------------------- the SQL spelling

  /** One `"key":value` field behind the text that opens it. */
  function Field(open: string, key: string, text: string): string {
    open + ("\"" + key + "\"") + ":" + text
  }

  /** One row object as the trigger concatenates it. */
  function SqlPartText(part: PartDefinition): string {
    Field("{", "part_number", IntText(part.range.number)) +
    (Field(",", "offset_bytes", IntText(part.range.offset)) +
     (Field(",", "size_bytes", IntText(part.range.size)) +
      (Field(",", "sha256", "\"" + part.sha256 + "\"") + "}")))
  }

  /** Rows aggregated in number order with commas between them. */
  function SqlPartsText(parts: seq<PartDefinition>): string
    requires |parts| > 0
  {
    SqlPartText(parts[0]) + if |parts| == 1 then "" else "," + SqlPartsText(parts[1..])
  }

  function SqlCanonicalText(plan: PartPlan): string
    requires |plan.parts| > 0
  {
    Field("{", "schema_version", IntText(plan.schema)) +
    (Field(",", "blob_size_bytes", IntText(plan.blobSize)) +
     (Field(",", "part_size_bytes", IntText(plan.partSize)) +
      (Field(",", "part_count", IntText(|plan.parts|)) +
       (Field(",", "parts", "[" + SqlPartsText(plan.parts) + "]") + "}"))))
  }

  lemma {:induction false} NothingToEscape(s: string)
    requires NeedsNoEscape(s)
    ensures EscapeText(s) == s
  {
    if |s| > 0 {
      NothingToEscape(s[1..]);
      assert s == [s[0]] + s[1..];
    }
  }

  ghost predicate NeedsNoEscape(s: string) {
    forall i :: 0 <= i < |s| ==> EscapeChar(s[i]) == [s[i]]
  }

  lemma BlobSizeKeyNeedsNoEscape()
    ensures NeedsNoEscape("blob_size_bytes")
  {
  }

  lemma PartSizeKeyNeedsNoEscape()
    ensures NeedsNoEscape("part_size_bytes")
  {
  }

  lemma PlanVersionKeyNeedsNoEscape()
    ensures NeedsNoEscape("schema_version")
  {
  }

  lemma PlanCountKeysNeedNoEscape()
    ensures NeedsNoEscape("part_count")
    ensures NeedsNoEscape("parts")
  {
  }

  lemma PartRangeKeysNeedNoEscape()
    ensures NeedsNoEscape("part_number")
    ensures NeedsNoEscape("offset_bytes")
  {
  }

  lemma PartValueKeysNeedNoEscape()
    ensures NeedsNoEscape("size_bytes")
    ensures NeedsNoEscape("sha256")
  {
  }

  lemma DigestNeedsNoEscape(digest: string)
    requires Digest.IsDigest(digest)
    ensures NeedsNoEscape(digest)
  {
    forall i | 0 <= i < |digest|
      ensures EscapeChar(digest[i]) == [digest[i]]
    {
      assert Digest.HexValue(digest[i]).Some?;
    }
  }

  lemma QuotePlain(s: string)
    requires NeedsNoEscape(s)
    ensures Quote(s) == "\"" + s + "\""
  {
    NothingToEscape(s);
  }

  lemma DumpMembersStep(members: seq<Member>)
    requires |members| > 0
    ensures DumpMembers(members) ==
      Quote(members[0].key) + ":" + Dumps(members[0].value) + if |members| == 1 then "}" else "," + DumpMembers(members[1..])
  {
  }

  lemma OpenField(open: string, quoted: string, text: string, rest: string)
    ensures open + (quoted + ":" + text + rest) == open + quoted + ":" + text + rest
  {
  }

  /** The opening text and the first member make one field. */
  lemma DumpMembersFields(open: string, head: Member, tail: seq<Member>)
    requires NeedsNoEscape(head.key)
    ensures open + DumpMembers([head] + tail) ==
      Field(open, head.key, Dumps(head.value)) + if |tail| == 0 then "}" else "," + DumpMembers(tail)
  {
    QuotePlain(head.key);
    hide Dumps, Quote, NeedsNoEscape, DumpMembers;
    DumpMembersStep([head] + tail);
    OpenField(open, Quote(head.key), Dumps(head.value), if |tail| == 0 then "}" else "," + DumpMembers(tail));
    assert ([head] + tail)[1..] == tail;
  }

  lemma DumpFour(open: string, a: Member, b: Member, c: Member, d: Member)
    requires NeedsNoEscape(a.key) && NeedsNoEscape(b.key) && NeedsNoEscape(c.key) && NeedsNoEscape(d.key)
    ensures open + DumpMembers([a, b, c, d]) ==
      Field(open, a.key, Dumps(a.value)) + (Field(",", b.key, Dumps(b.value)) +
      (Field(",", c.key, Dumps(c.value)) + (Field(",", d.key, Dumps(d.value)) + "}")))
  {
    hide Dumps, Field, NeedsNoEscape, DumpMembers;
    DumpMembersFields(open, a, [b, c, d]);
    DumpMembersFields(",", b, [c, d]);
    DumpMembersFields(",", c, [d]);
    DumpMembersFields(",", d, []);
    assert [a] + [b, c, d] == [a, b, c, d] && [b] + [c, d] == [b, c, d] && [c] + [d] == [c, d] && [d] + [] == [d];
  }

  lemma DumpsLeaves(n: int, s: string)
    ensures Dumps(Int(n)) == IntText(n)
    ensures NeedsNoEscape(s) ==> Dumps(Str(s)) == "\"" + s + "\""
  {
    if NeedsNoEscape(s) {
      QuotePlain(s);
    }
  }

  lemma DumpsObject(members: seq<Member>)
    requires |members| > 0
    ensures Dumps(Obj(members)) == "{" + DumpMembers(members)
  {
  }

  lemma SqlPartAgrees(part: PartDefinition)
    requires Digest.IsDigest(part.sha256)
    ensures Dumps(PartJson(part)) == SqlPartText(part)
  {
    hide Dumps, DumpMembers, Field, IntText, NeedsNoEscape, Digest.IsDigest;
    var members := PartJson(part).members;
    PartRangeKeysNeedNoEscape();
    PartValueKeysNeedNoEscape();
    DigestNeedsNoEscape(part.sha256);
    DumpsLeaves(part.range.number, part.sha256);
    DumpsLeaves(part.range.offset, part.sha256);
    DumpsLeaves(part.range.size, part.sha256);
    DumpsObject(members);
    DumpFour("{", members[0], members[1], members[2], members[3]);
    assert members == [members[0], members[1], members[2], members[3]];
  }

  lemma DumpItemsStep(items: seq<Json>)
    requires |items| > 0
    ensures DumpItems(items) == Dumps(items[0]) + if |items| == 1 then "]" else "," + DumpItems(items[1..])
  {
  }

  lemma {:induction false} SqlPartsAgree(parts: seq<PartDefinition>)
    requires |parts| > 0 && forall i :: 0 <= i < |parts| ==> Digest.IsDigest(parts[i].sha256)
    ensures DumpItems(PartItems(parts)) == SqlPartsText(parts) + "]"
  {
    hide Dumps, DumpItems, PartJson, Digest.IsDigest, SqlPartText;
    SqlPartAgrees(parts[0]);
    DumpItemsStep(PartItems(parts));
    if |parts| > 1 {
      assert PartItems(parts)[1..] == PartItems(parts[1..]);
      SqlPartsAgree(parts[1..]);
    }
  }

  lemma SqlListAgrees(parts: seq<PartDefinition>)
    requires |parts| > 0 && forall i :: 0 <= i < |parts| ==> ValidDefinition(parts[i])
    ensures Dumps(Arr(PartItems(parts))) == "[" + SqlPartsText(parts) + "]"
  {
    hide DumpItems, PartItems, SqlPartsText;
    assert forall i :: 0 <= i < |parts| ==> Digest.IsDigest(parts[i].sha256);
    SqlPartsAgree(parts);
  }

  lemma SqlHeaderAgrees(schema: int, blobSize: int, partSize: int, count: int, list: Json)
    ensures Dumps(Obj([Member("schema_version", Int(schema)), Member("blob_size_bytes", Int(blobSize)),
                       Member("part_size_bytes", Int(partSize)), Member("part_count", Int(count)), Member("parts", list)])) ==
      Field("{", "schema_version", IntText(schema)) + (Field(",", "blob_size_bytes", IntText(blobSize)) +
      (Field(",", "part_size_bytes", IntText(partSize)) + (Field(",", "part_count", IntText(count)) +
      (Field(",", "parts", Dumps(list)) + "}"))))
  {
    hide Dumps, DumpMembers, Field, IntText, NeedsNoEscape;
    var head, a, b := Member("schema_version", Int(schema)), Member("blob_size_bytes", Int(blobSize)), Member("part_size_bytes", Int(partSize));
    var c, d := Member("part_count", Int(count)), Member("parts", list);
    BlobSizeKeyNeedsNoEscape();
    PartSizeKeyNeedsNoEscape();
    PlanVersionKeyNeedsNoEscape();
    PlanCountKeysNeedNoEscape();
    DumpsLeaves(schema, "");
    DumpsLeaves(blobSize, "");
    DumpsLeaves(partSize, "");
    DumpsLeaves(count, "");
    DumpsObject([head] + [a, b, c, d]);
    DumpMembersFields("{", head, [a, b, c, d]);
    DumpFour(",", a, b, c, d);
    assert [head, a, b, c, d] == [head] + [a, b, c, d];
  }

  /** The database rebuilds the very text whose hash the application stored. */
  lemma SqlTextAgrees(plan: PartPlan)
    requires ValidPlan(plan)
    ensures SqlCanonicalText(plan) == CanonicalText(plan)
  {
    SqlListAgrees(plan.parts);
    hide Dumps, Field, IntText, PartItems, SqlPartsText, ValidPlan;
    SqlHeaderAgrees(plan.schema, plan.blobSize, plan.partSize, |plan.parts|, Arr(PartItems(plan.parts)));
  }
}
