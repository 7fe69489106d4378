/** The download cursor: a fixed-width payload in URL-safe Base64 without
    padding (sections 3.2 and 5 of RFC 4648). */
module Cursor {
  import opened Base
  import opened Base64

  const FORMAT_VERSION := 1
  const UUID_BYTES := 16
  const ORDINAL_BYTES := 8
  const PAYLOAD_BYTES := 25
  const ORDINAL_LIMIT := 0x1_0000_0000_0000_0000

  datatype CursorError = InvalidCursor

  // ------------------------------------------------------- big-endian integers

  function Pow256(width: nat): nat {
    if width == 0 then 1 else 256 * Pow256(width - 1)
  }

  function ToBytes(x: nat, width: nat): (bytes: seq<Byte>)
    ensures |bytes| == width
  {
    if width == 0 then [] else ToBytes(x / 256, width - 1) + [x % 256]
  }

  function FromBytes(bytes: seq<Byte>): nat {
    if |bytes| == 0 then 0 else FromBytes(bytes[..|bytes| - 1]) * 256 + bytes[|bytes| - 1]
  }

  lemma {:induction false} FromToBytes(x: nat, width: nat)
    requires x < Pow256(width)
    ensures FromBytes(ToBytes(x, width)) == x
  {
    if width > 0 {
      FromToBytes(x / 256, width - 1);
      assert ToBytes(x, width)[..width - 1] == ToBytes(x / 256, width - 1);
    }
  }

  lemma {:induction false} ToFromBytes(bytes: seq<Byte>)
    ensures ToBytes(FromBytes(bytes), |bytes|) == bytes && FromBytes(bytes) < Pow256(|bytes|)
  {
    if |bytes| > 0 {
      var n := |bytes| - 1;
      ToFromBytes(bytes[..n]);
      assert (FromBytes(bytes[..n]) * 256 + bytes[n]) / 256 == FromBytes(bytes[..n]);
      assert bytes == bytes[..n] + [bytes[n]];
    }
  }

  lemma OrdinalRange()
    ensures Pow256(ORDINAL_BYTES) == ORDINAL_LIMIT
  {
    assert Pow256(1) == 0x100;
    assert Pow256(2) == 0x1_0000;
    assert Pow256(3) == 0x100_0000;
    assert Pow256(4) == 0x1_0000_0000;
    assert Pow256(5) == 0x100_0000_0000;
    assert Pow256(6) == 0x1_0000_0000_0000;
    assert Pow256(7) == 0x100_0000_0000_0000;
  }

  // ----------------------------------------------------------- URL-safe alphabet

  function UrlChar(c: char): char {
    if c == '+' then '-' else if c == '/' then '_' else c
  }

  function StandardChar(c: char): char {
    if c == '-' then '+' else if c == '_' then '/' else c
  }

  function ToUrl(s: string): (t: string)
    ensures |t| == |s| && forall i :: 0 <= i < |s| ==> t[i] == UrlChar(s[i])
  {
    if |s| == 0 then "" else [UrlChar(s[0])] + ToUrl(s[1..])
  }

  function FromUrl(s: string): (t: string)
    ensures |t| == |s| && forall i :: 0 <= i < |s| ==> t[i] == StandardChar(s[i])
  {
    if |s| == 0 then "" else [StandardChar(s[0])] + FromUrl(s[1..])
  }

  function Strip(s: string): string {
    if |s| > 0 && s[|s| - 1] == '=' then Strip(s[..|s| - 1]) else s
  }

  function Padding(n: nat): string {
    if n % 4 == 0 then "" else if n % 4 == 3 then "=" else if n % 4 == 2 then "==" else "==="
  }

  predicate Ascii(s: string) {
    forall i :: 0 <= i < |s| ==> s[i] as int < 128
  }

  // -------------------------------------------------------------------- codec

  function Payload(version: seq<Byte>, ordinal: nat): seq<Byte> {
    [FORMAT_VERSION] + version + ToBytes(ordinal, ORDINAL_BYTES)
  }

  function UrlText(payload: seq<Byte>): string {
    Strip(ToUrl(Encode(payload)))
  }

  function EncodeCursor(version: seq<Byte>, ordinal: int): Result<string, CursorError>
    requires |version| == UUID_BYTES
  {
    if ordinal < 0 || ordinal >= ORDINAL_LIMIT then Err(InvalidCursor) else Ok(UrlText(Payload(version, ordinal)))
  }

  function DecodeCursor(cursor: string, version: seq<Byte>, fileCount: int): Result<int, CursorError>
    requires |version| == UUID_BYTES
  {
    if !Ascii(cursor) then Err(InvalidCursor)
    else
      match Decode(FromUrl(cursor + Padding(|cursor|)))
      case None => Err(InvalidCursor)
      case Some(payload) =>
        if |payload| != PAYLOAD_BYTES || UrlText(payload) != cursor || payload[0] != FORMAT_VERSION then Err(InvalidCursor)
        else if payload[1..1 + UUID_BYTES] != version then Err(InvalidCursor)
        else if FromBytes(payload[1 + UUID_BYTES..]) >= fileCount then Err(InvalidCursor)
        else Ok(FromBytes(payload[1 + UUID_BYTES..]))
  }

  // ---------------------------------------------------------------- its proofs

  /** Encoded payloads are thirty-four digits and two pad characters. */
  lemma PayloadText(payload: seq<Byte>)
    requires |payload| == PAYLOAD_BYTES
    ensures |Encode(payload)| == 36 && UrlText(payload) == ToUrl(Encode(payload))[..34]
    ensures forall i :: 0 <= i < 34 ==> DigitValue(Encode(payload)[i]).Some?
    ensures Encode(payload)[34] == '=' && Encode(payload)[35] == '='
  {
    EncodeShape(payload);
    var url := ToUrl(Encode(payload));
    assert url[35] == '=' && url[34] == '=' && url[33] != '=';
    hide Encode, ToUrl, DigitValue, Strip;
    StripTwo(url);
  }

  lemma StripTwo(s: string)
    requires |s| == 36 && s[35] == '=' && s[34] == '=' && s[33] != '='
    ensures Strip(s) == s[..34]
  {
    var one := s[..35];
    var two := one[..34];
    assert two == s[..34] && two[33] != '=';
    assert Strip(s) == Strip(one) == Strip(two) == two;
  }

  /** Padding and translating back restores the standard text. */
  lemma PaddedBack(payload: seq<Byte>)
    requires |payload| == PAYLOAD_BYTES
    ensures FromUrl(UrlText(payload) + Padding(|UrlText(payload)|)) == Encode(payload) && Ascii(UrlText(payload))
  {
    PayloadText(payload);
    var text, cursor := Encode(payload), UrlText(payload);
    var padded := cursor + Padding(|cursor|);
    forall i | 0 <= i < 36
      ensures FromUrl(padded)[i] == text[i]
    {
      if i < 34 {
        assert DigitValue(text[i]).Some?;
        assert padded[i] == UrlChar(text[i]);
      }
    }
    forall i | 0 <= i < 34
      ensures cursor[i] as int < 128
    {
      assert DigitValue(text[i]).Some?;
    }
  }

  /** Decoding inverts encoding and accepts nothing else: for one Version the
      cursors are exactly the encodings of the ordinals below its file count. */
  lemma CursorBijection(cursor: string, version: seq<Byte>, fileCount: int, ordinal: int)
    requires |version| == UUID_BYTES
    ensures DecodeCursor(cursor, version, fileCount) == Ok(ordinal)
      <==> 0 <= ordinal < fileCount && EncodeCursor(version, ordinal) == Ok(cursor)
  {
    OrdinalRange();
    if 0 <= ordinal < fileCount && EncodeCursor(version, ordinal) == Ok(cursor) {
      var payload := Payload(version, ordinal);
      PaddedBack(payload);
      DecodeEncode(payload);
      FromToBytes(ordinal, ORDINAL_BYTES);
      assert payload[1..17] == version && payload[17..] == ToBytes(ordinal, ORDINAL_BYTES);
    }
    if DecodeCursor(cursor, version, fileCount) == Ok(ordinal) {
      var payload := Decode(FromUrl(cursor + Padding(|cursor|))).value;
      ToFromBytes(payload[17..]);
      assert payload == [payload[0]] + payload[1..17] + payload[17..];
    }
  }

  /** No accepted cursor uses the standard alphabet's `+` and `/`, or padding. */
  lemma CursorAlphabet(cursor: string, version: seq<Byte>, fileCount: int)
    requires |version| == UUID_BYTES && DecodeCursor(cursor, version, fileCount).Ok?
    ensures forall i :: 0 <= i < |cursor| ==> cursor[i] != '+' && cursor[i] != '/' && cursor[i] != '='
  {
    var ordinal := DecodeCursor(cursor, version, fileCount).value;
    CursorBijection(cursor, version, fileCount, ordinal);
    var payload := Payload(version, ordinal);
    PayloadText(payload);
    forall i | 0 <= i < |cursor|
      ensures cursor[i] != '+' && cursor[i] != '/' && cursor[i] != '='
    {
      assert DigitValue(Encode(payload)[i]).Some?;
    }
  }

  lemma CursorInjective(version: seq<Byte>, left: int, right: int)
    requires |version| == UUID_BYTES && EncodeCursor(version, left).Ok?
    requires EncodeCursor(version, left) == EncodeCursor(version, right)
    ensures left == right
  {
    var cursor := EncodeCursor(version, left).value;
    CursorBijection(cursor, version, ORDINAL_LIMIT, left);
    CursorBijection(cursor, version, ORDINAL_LIMIT, right);
  }
}
