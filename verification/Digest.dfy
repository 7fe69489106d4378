/** Hexadecimal SHA-256 identities and their Base64 checksum form. */
module Digest {
  import opened Base
  import opened Base64

  /** The bytes of one SHA-256 value. */
  const DIGEST_BYTES := 32

  function HexDigit(x: int): char
    requires 0 <= x < 16
  {
    if x < 10 then ('0' as int + x) as char else ('a' as int + (x - 10)) as char
  }

  /** Only lowercase hexadecimal is canonical. */
  function HexValue(c: char): Option<int> {
    if '0' <= c <= '9' then Some(c as int - '0' as int)
    else if 'a' <= c <= 'f' then Some(c as int - 'a' as int + 10)
    else None
  }

  predicate IsHex(text: string) {
    forall i :: 0 <= i < |text| ==> HexValue(text[i]).Some?
  }

  /** What the constructor of `Sha256Digest` admits. */
  predicate IsDigest(text: string) {
    |text| == 2 * DIGEST_BYTES && IsHex(text)
  }

  function ToHex(raw: seq<Byte>): (text: string)
    ensures |text| == 2 * |raw|
  {
    if |raw| == 0 then ""
    else [HexDigit(raw[0] / 16), HexDigit(raw[0] % 16)] + ToHex(raw[1..])
  }

  function FromHex(text: string): (raw: seq<Byte>)
    ensures |raw| == |text| / 2
  {
    if |text| < 2 then []
    else
      var hi, lo := HexValue(text[0]), HexValue(text[1]);
      [if hi.Some? && lo.Some? then hi.value * 16 + lo.value else 0] + FromHex(text[2..])
  }

  lemma {:induction false} FromToHex(raw: seq<Byte>)
    ensures IsHex(ToHex(raw)) && FromHex(ToHex(raw)) == raw
  {
    if |raw| > 0 {
      FromToHex(raw[1..]);
      var text := ToHex(raw);
      assert text[2..] == ToHex(raw[1..]);
      assert forall i :: 2 <= i < |text| ==> text[i] == text[2..][i - 2];
      assert raw == [raw[0]] + raw[1..];
    }
  }

  lemma HexDigitOf(c: char)
    requires HexValue(c).Some?
    ensures 0 <= HexValue(c).value < 16 && HexDigit(HexValue(c).value) == c
  {
  }

  lemma HexPair(hi: int, lo: int)
    requires 0 <= hi < 16 && 0 <= lo < 16
    ensures ToHex([hi * 16 + lo]) == [HexDigit(hi), HexDigit(lo)]
  {
    hide HexDigit;
    assert [hi * 16 + lo][1..] == [];
  }

  lemma FromHexStep(text: string)
    requires |text| >= 2 && HexValue(text[0]).Some? && HexValue(text[1]).Some?
    ensures FromHex(text) == [HexValue(text[0]).value * 16 + HexValue(text[1]).value] + FromHex(text[2..])
  {
    HexDigitOf(text[0]);
    HexDigitOf(text[1]);
    hide HexDigit, HexValue;
  }

  lemma ToHexStep(byte: Byte, rest: seq<Byte>)
    ensures ToHex([byte] + rest) == ToHex([byte]) + ToHex(rest)
  {
    hide HexDigit;
    assert ([byte] + rest)[1..] == rest && [byte][1..] == [];
  }

  lemma {:induction false} ToFromHex(text: string)
    requires IsHex(text) && |text| % 2 == 0
    ensures ToHex(FromHex(text)) == text
  {
    hide HexDigit, HexValue;
    if |text| > 0 {
      assert IsHex(text[2..]);
      ToFromHex(text[2..]);
      FromHexStep(text);
      HexDigitOf(text[0]);
      HexDigitOf(text[1]);
      hide ToHex, FromHex, IsHex;
      ToHexStep(FromHex(text)[0], FromHex(text[2..]));
      HexPair(HexValue(text[0]).value, HexValue(text[1]).value);
      assert text == [text[0], text[1]] + text[2..];
    }
  }

  /** The S3 checksum header value of a digest. */
  function ChecksumBase64(digest: string): string {
    Encode(FromHex(digest))
  }

  /** Decode only canonical padded Base64 holding exactly 32 raw bytes. */
  function ChecksumToDigest(value: string): Option<string> {
    match Decode(value)
    case None => None
    case Some(raw) =>
      if |raw| != DIGEST_BYTES || Encode(raw) != value then None else Some(ToHex(raw))
  }

  /** The checksum codec is a bijection between canonical digests and exactly
      the strings the decoder accepts. */
  lemma ChecksumBijection(value: string, digest: string)
    ensures ChecksumToDigest(value) == Some(digest) <==> IsDigest(digest) && value == ChecksumBase64(digest)
  {
    if IsDigest(digest) && value == ChecksumBase64(digest) {
      DecodeEncode(FromHex(digest));
      ToFromHex(digest);
    }
    if ChecksumToDigest(value) == Some(digest) {
      var raw := Decode(value).value;
      FromToHex(raw);
    }
  }
}
