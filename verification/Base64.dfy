/** RFC 4648 Base64 over bytes, as the digest codec and the download cursor use it. */
module Base64 {
  import opened Base

  type Byte = x: int | 0 <= x < 256

  type Sextet = x: int | 0 <= x < 64

  /** The standard alphabet of section 4. */
  function Digit(x: Sextet): char {
    if x < 26 then ('A' as int + x) as char
    else if x < 52 then ('a' as int + (x - 26)) as char
    else if x < 62 then ('0' as int + (x - 52)) as char
    else if x == 62 then '+'
    else '/'
  }

  function DigitValue(c: char): Option<Sextet> {
    if 'A' <= c <= 'Z' then Some(c as int - 'A' as int)
    else if 'a' <= c <= 'z' then Some(c as int - 'a' as int + 26)
    else if '0' <= c <= '9' then Some(c as int - '0' as int + 52)
    else if c == '+' then Some(62)
    else if c == '/' then Some(63)
    else None
  }

  lemma DigitInverse(x: Sextet)
    ensures DigitValue(Digit(x)) == Some(x)
    ensures Digit(x) != '='
  {
  }

  /** Four characters for three bytes. */
  function Quantum(a: Byte, b: Byte, c: Byte): (text: string)
    ensures |text| == 4
  {
    [Digit(a / 4), Digit(a % 4 * 16 + b / 16), Digit(b % 16 * 4 + c / 64), Digit(c % 64)]
  }

  function Encode(raw: seq<Byte>): (text: string)
    ensures |text| == (|raw| + 2) / 3 * 4
  {
    if |raw| == 0 then ""
    else if |raw| == 1 then
      [Digit(raw[0] / 4), Digit(raw[0] % 4 * 16), '=', '=']
    else if |raw| == 2 then
      [Digit(raw[0] / 4), Digit(raw[0] % 4 * 16 + raw[1] / 16), Digit(raw[1] % 16 * 4), '=']
    else
      Quantum(raw[0], raw[1], raw[2]) + Encode(raw[3..])
  }

  /** Validating decoder: whole quanta only, padding only at the very end, and
      any bits beyond the last byte silently dropped. */
  function Decode(text: string): Option<seq<Byte>> {
    if |text| == 0 then Some([])
    else if |text| < 4 then None
    else
      var a, b := DigitValue(text[0]), DigitValue(text[1]);
      if a.None? || b.None? then None
      else if |text| == 4 && text[2] == '=' && text[3] == '=' then
        Some([a.value * 4 + b.value / 16])
      else
        var c := DigitValue(text[2]);
        if c.None? then None
        else if |text| == 4 && text[3] == '=' then
          Some([a.value * 4 + b.value / 16, b.value % 16 * 16 + c.value / 4])
        else
          var d, rest := DigitValue(text[3]), Decode(text[4..]);
          if d.None? || rest.None? then None
          else
            Some([a.value * 4 + b.value / 16, b.value % 16 * 16 + c.value / 4,
                  c.value % 4 * 64 + d.value] + rest.value)
  }

  /** Regrouping two bytes through the shared middle sextet loses nothing. */
  lemma Regroup(a: Byte, b: Byte)
    ensures 0 <= a % 4 * 16 + b / 16 < 64
    ensures a / 4 * 4 + (a % 4 * 16 + b / 16) / 16 == a
    ensures (a % 4 * 16 + b / 16) % 16 * 16 + (b % 16 * 4) / 4 == b
  {
    assert (a % 4 * 16 + b / 16) / 16 == a % 4;
    assert (a % 4 * 16 + b / 16) % 16 == b / 16;
  }

  lemma DecodeTailTwo(a: Byte, b: Byte)
    ensures Decode(Encode([a, b])) == Some([a, b])
  {
    Regroup(a, b);
    DigitInverse(a / 4);
    DigitInverse(a % 4 * 16 + b / 16);
    DigitInverse(b % 16 * 4);
  }

  lemma DecodeTailOne(a: Byte)
    ensures Decode(Encode([a])) == Some([a])
  {
    DigitInverse(a / 4);
    DigitInverse(a % 4 * 16);
  }

  lemma {:induction false} DecodeEncode(raw: seq<Byte>)
    ensures Decode(Encode(raw)) == Some(raw)
  {
    hide Decode, Quantum, Digit;
    if |raw| == 0 {
      DecodeNothing();
    } else if |raw| == 1 {
      DecodeTailOne(raw[0]);
      assert raw == [raw[0]];
    } else if |raw| == 2 {
      DecodeTailTwo(raw[0], raw[1]);
      assert raw == [raw[0], raw[1]];
    } else {
      DecodeEncode(raw[3..]);
      DecodeQuantum(raw[0], raw[1], raw[2], Encode(raw[3..]), raw[3..]);
      assert raw == [raw[0], raw[1], raw[2]] + raw[3..];
    }
  }

  lemma DecodeNothing()
    ensures Decode("") == Some([])
  {
  }

  lemma DecodeQuantum(a: Byte, b: Byte, c: Byte, tail: string, rest: seq<Byte>)
    requires Decode(tail) == Some(rest)
    ensures Decode(Quantum(a, b, c) + tail) == Some([a, b, c] + rest)
  {
    var text := Quantum(a, b, c) + tail;
    Regroup(a, b);
    Regroup(b, c);
    DigitInverse(a / 4);
    DigitInverse(a % 4 * 16 + b / 16);
    DigitInverse(b % 16 * 4 + c / 64);
    DigitInverse(c % 64);
    assert text[4..] == tail;
    assert (b % 16 * 4 + c / 64) / 4 == b % 16;
    assert (b % 16 * 4 + c / 64) % 4 == c / 64;
    assert c / 64 * 64 + c % 64 == c;
    assert (a % 4 * 16 + b / 16) % 16 == b / 16;
  }

  /** Encoded text never carries `=` before its final quantum, so trailing `=`
      are exactly the padding. */
  lemma {:induction false} EncodeShape(raw: seq<Byte>)
    ensures forall i :: 0 <= i < (|raw| * 4 + 2) / 3 ==> Encode(raw)[i] != '=' && DigitValue(Encode(raw)[i]).Some?
    ensures forall i :: (|raw| * 4 + 2) / 3 <= i < |Encode(raw)| ==> Encode(raw)[i] == '='
  {
    if |raw| == 0 {
    } else if |raw| == 1 {
      DigitInverse(raw[0] / 4);
      DigitInverse(raw[0] % 4 * 16);
    } else if |raw| == 2 {
      DigitInverse(raw[0] / 4);
      DigitInverse(raw[0] % 4 * 16 + raw[1] / 16);
      DigitInverse(raw[1] % 16 * 4);
    } else {
      var text, tail := Encode(raw), Encode(raw[3..]);
      EncodeShape(raw[3..]);
      DigitInverse(raw[0] / 4);
      DigitInverse(raw[0] % 4 * 16 + raw[1] / 16);
      DigitInverse(raw[1] % 16 * 4 + raw[2] / 64);
      DigitInverse(raw[2] % 64);
      forall i | 0 <= i < |text|
        ensures i < (|raw| * 4 + 2) / 3 ==> text[i] != '=' && DigitValue(text[i]).Some?
        ensures (|raw| * 4 + 2) / 3 <= i ==> text[i] == '='
      {
        if i >= 4 {
          assert text[i] == tail[i - 4];
        }
      }
    }
  }
}
