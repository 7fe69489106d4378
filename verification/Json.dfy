/** JSON text (RFC 8259): the compact printer and the full reader that the
    canonical encodings are built on. Text is a sequence of Unicode scalars. */
module Json {
  import opened Base

  /** `Real` keeps the spelling of a number with a fraction or an exponent. */
  datatype Json =
    | Null
    | Bool(b: bool)
    | Int(n: int)
    | Real(spelling: string)
    | Str(s: string)
    | Arr(items: seq<Json>)
    | Obj(members: seq<Member>)

  datatype Member = Member(key: string, value: Json)

  /** A value read from the front of a text, and what follows it. */
  datatype Parsed<+T> = Parsed(value: T, rest: string)

  // ----------------------------------------------------------------- printing

  function DigitChar(d: int): char
    requires 0 <= d < 10
  {
    ('0' as int + d) as char
  }

  function NatText(n: nat): (text: string)
    ensures |text| >= 1
  {
    if n < 10 then [DigitChar(n)] else NatText(n / 10) + [DigitChar(n % 10)]
  }

  function IntText(n: int): string {
    if n < 0 then "-" + NatText(-n) else NatText(n)
  }

  function LowerHex(d: int): char
    requires 0 <= d < 16
  {
    if d < 10 then ('0' as int + d) as char else ('a' as int + (d - 10)) as char
  }

  function EscapeChar(c: char): string {
    if c == '"' then "\\\""
    else if c == '\\' then "\\\\"
    else if c as int == 8 then "\\b"
    else if c as int == 12 then "\\f"
    else if c == '\n' then "\\n"
    else if c == '\r' then "\\r"
    else if c == '\t' then "\\t"
    else if c as int < 32 then "\\u00" + [LowerHex(c as int / 16), LowerHex(c as int % 16)]
    else [c]
  }

  function EscapeText(s: string): string {
    if |s| == 0 then "" else EscapeChar(s[0]) + EscapeText(s[1..])
  }

  function Quote(s: string): string {
    "\"" + EscapeText(s) + "\""
  }

  /** Compact printing, with no blank anywhere. */
  function Dumps(v: Json): string
    decreases v, 1
  {
    match v
    case Null => "null"
    case Bool(b) => if b then "true" else "false"
    case Int(n) => IntText(n)
    case Real(spelling) => spelling
    case Str(s) => Quote(s)
    case Arr(items) => "[" + (if |items| == 0 then "]" else DumpItems(items))
    case Obj(members) => "{" + (if |members| == 0 then "}" else DumpMembers(members))
  }

  /** The items of a nonempty array and its closing bracket. */
  function DumpItems(items: seq<Json>): string
    requires |items| > 0
    decreases items, 0
  {
    Dumps(items[0]) + if |items| == 1 then "]" else "," + DumpItems(items[1..])
  }

  function DumpMembers(members: seq<Member>): string
    requires |members| > 0
    decreases members, 0
  {
    Quote(members[0].key) + ":" + Dumps(members[0].value) +
    if |members| == 1 then "}" else "," + DumpMembers(members[1..])
  }

  /** No number with a fraction or an exponent anywhere. */
  ghost predicate Plain(v: Json)
    decreases v
  {
    match v
    case Real(_) => false
    case Arr(items) => forall i :: 0 <= i < |items| ==> Plain(items[i])
    case Obj(members) => forall i :: 0 <= i < |members| ==> Plain(members[i].value)
    case _ => true
  }

  // ------------------------------------------------------------------ reading

  predicate IsSpace(c: char) {
    c == ' ' || c == '\t' || c == '\n' || c == '\r'
  }

  function SkipSpace(s: string): (r: string)
    ensures |r| <= |s|
  {
    if |s| > 0 && IsSpace(s[0]) then SkipSpace(s[1..]) else s
  }

  predicate IsDigit(c: char) {
    '0' <= c <= '9'
  }

  /** How many digits the text starts with. */
  function DigitRun(s: string): (n: nat)
    ensures n <= |s|
    ensures forall i :: 0 <= i < n ==> IsDigit(s[i])
  {
    if |s| > 0 && IsDigit(s[0]) then 1 + DigitRun(s[1..]) else 0
  }

  function NatValue(digits: string): nat
    requires forall i :: 0 <= i < |digits| ==> IsDigit(digits[i])
  {
    if |digits| == 0 then 0
    else
      assert IsDigit(digits[|digits| - 1]);
      NatValue(digits[..|digits| - 1]) * 10 + (digits[|digits| - 1] as int - '0' as int)
  }

  /** A fraction needs at least one digit after its point. */
  function FractionLength(s: string): (n: nat)
    ensures n <= |s|
  {
    if |s| > 1 && s[0] == '.' && IsDigit(s[1]) then 1 + DigitRun(s[1..]) else 0
  }

  function ExponentLength(s: string): (n: nat)
    ensures n <= |s|
  {
    if |s| > 1 && (s[0] == 'e' || s[0] == 'E') then
      var sign := if s[1] == '+' || s[1] == '-' then 1 else 0;
      var run := DigitRun(s[1 + sign..]);
      if run == 0 then 0 else 1 + sign + run
    else 0
  }

  /** What follows the integer digits of a number with a fraction or exponent. */
  function RealTail(s: string): (n: nat)
    ensures n <= |s|
  {
    var fraction := FractionLength(s);
    fraction + ExponentLength(s[fraction..])
  }

  /** The integer digits in front: a zero stands alone. */
  function IntegerDigits(s: string): (digits: string)
    ensures |digits| <= |s| && digits == s[..|digits|]
    ensures forall i :: 0 <= i < |digits| ==> IsDigit(digits[i])
  {
    var run := DigitRun(s);
    if run > 0 && s[0] == '0' then s[..1] else s[..run]
  }

  function Signed(negative: bool, magnitude: nat): int {
    if negative then 0 - magnitude else magnitude
  }

  function ParseNumber(s: string): (r: Option<Parsed<Json>>)
    ensures r.Some? ==> |r.value.rest| < |s|
  {
    var sign := if |s| > 0 && s[0] == '-' then 1 else 0;
    var digits := IntegerDigits(s[sign..]);
    if |digits| == 0 then None
    else
      var rest := s[sign..][|digits|..];
      if RealTail(rest) == 0 then
        Some(Parsed(Int(Signed(sign == 1, NatValue(digits))), rest))
      else
        var end := sign + |digits| + RealTail(rest);
        Some(Parsed(Real(s[..end]), s[end..]))
  }

  function HexValue(c: char): Option<int> {
    if '0' <= c <= '9' then Some(c as int - '0' as int)
    else if 'a' <= c <= 'f' then Some(c as int - 'a' as int + 10)
    else if 'A' <= c <= 'F' then Some(c as int - 'A' as int + 10)
    else None
  }

  /** The code unit spelled by four hexadecimal digits. */
  function CodeUnit(s: string): (u: Option<int>)
    ensures u.Some? ==> |s| >= 4 && 0 <= u.value < 0x1_0000
  {
    if |s| < 4 then None
    else
      var hi, lo := HexPair(s[0], s[1]), HexPair(s[2], s[3]);
      if hi.None? || lo.None? then None else Some(hi.value * 256 + lo.value)
  }

  function HexPair(hi: char, lo: char): (v: Option<int>)
    ensures v.Some? ==> 0 <= v.value < 256
  {
    var a, b := HexValue(hi), HexValue(lo);
    if a.None? || b.None? then None else Some(a.value * 16 + b.value)
  }

  function SimpleEscape(c: char): Option<char> {
    if c == '"' || c == '\\' || c == '/' then Some(c)
    else if c == 'b' then Some(8 as char)
    else if c == 'f' then Some(12 as char)
    else if c == 'n' then Some('\n')
    else if c == 'r' then Some('\r')
    else if c == 't' then Some('\t')
    else None
  }

  /** The character written by the escape that follows a backslash. A surrogate
      without its partner is no Unicode scalar and stops the reader. */
  function ParseEscape(s: string): (r: Option<Parsed<char>>)
    ensures r.Some? ==> |r.value.rest| < |s|
  {
    if |s| == 0 then None
    else if s[0] != 'u' then
      match SimpleEscape(s[0]) {
        case None => None
        case Some(c) => Some(Parsed(c, s[1..]))
      }
    else
      match CodeUnit(s[1..]) {
        case None => None
        case Some(unit) =>
          if unit < 0xD800 || 0xE000 <= unit then Some(Parsed(unit as char, s[5..]))
          else if unit < 0xDC00 && |s| > 7 && s[5] == '\\' && s[6] == 'u' then
            match CodeUnit(s[7..]) {
              case None => None
              case Some(low) =>
                if 0xDC00 <= low < 0xE000 then
                  Some(Parsed((0x1_0000 + (unit - 0xD800) * 1024 + (low - 0xDC00)) as char, s[11..]))
                else None
            }
          else None
      }
  }

  /** The rest of a string after its opening quote. */
  function ParseString(s: string): (r: Option<Parsed<string>>)
    ensures r.Some? ==> |r.value.rest| < |s|
    decreases |s|
  {
    if |s| == 0 || s[0] as int < 32 then None
    else if s[0] == '"' then Some(Parsed("", s[1..]))
    else if s[0] == '\\' then
      match ParseEscape(s[1..]) {
        case None => None
        case Some(first) =>
          match ParseString(first.rest) {
            case None => None
            case Some(tail) => Some(Parsed([first.value] + tail.value, tail.rest))
          }
      }
    else
      match ParseString(s[1..]) {
        case None => None
        case Some(tail) => Some(Parsed([s[0]] + tail.value, tail.rest))
      }
  }

  predicate StartsWith(s: string, prefix: string) {
    |s| >= |prefix| && s[..|prefix|] == prefix
  }

  function ParseValue(s: string): (r: Option<Parsed<Json>>)
    ensures r.Some? ==> |r.value.rest| < |s|
    decreases |s|, 0
  {
    if |s| == 0 then None
    else if s[0] == '"' then
      match ParseString(s[1..]) {
        case None => None
        case Some(p) => Some(Parsed(Str(p.value), p.rest))
      }
    else if s[0] == '[' then
      var inner := SkipSpace(s[1..]);
      if |inner| > 0 && inner[0] == ']' then Some(Parsed(Arr([]), inner[1..]))
      else
        match ParseItems(inner) {
          case None => None
          case Some(p) => Some(Parsed(Arr(p.value), p.rest))
        }
    else if s[0] == '{' then
      var inner := SkipSpace(s[1..]);
      if |inner| > 0 && inner[0] == '}' then Some(Parsed(Obj([]), inner[1..]))
      else
        match ParseMembers(inner) {
          case None => None
          case Some(p) => Some(Parsed(Obj(p.value), p.rest))
        }
    else if StartsWith(s, "null") then Some(Parsed(Null, s[4..]))
    else if StartsWith(s, "true") then Some(Parsed(Bool(true), s[4..]))
    else if StartsWith(s, "false") then Some(Parsed(Bool(false), s[5..]))
    else ParseNumber(s)
  }

  /** Array items up to and including the closing bracket. */
  function ParseItems(s: string): (r: Option<Parsed<seq<Json>>>)
    ensures r.Some? ==> |r.value.rest| < |s|
    decreases |s|, 1
  {
    match ParseValue(s)
    case None => None
    case Some(first) => ContinueItems(first.value, SkipSpace(first.rest))
  }

  function ContinueItems(item: Json, next: string): (r: Option<Parsed<seq<Json>>>)
    ensures r.Some? ==> |r.value.rest| < |next|
    decreases |next|, 0
  {
    if |next| == 0 then None
    else if next[0] == ']' then Some(Parsed([item], next[1..]))
    else if next[0] == ',' then
      match ParseItems(SkipSpace(next[1..])) {
        case None => None
        case Some(tail) => Some(Parsed([item] + tail.value, tail.rest))
      }
    else None
  }

  /** Object members up to and including the closing brace; repeated keys are
      all reported, in order. */
  function ParseMembers(s: string): (r: Option<Parsed<seq<Member>>>)
    ensures r.Some? ==> |r.value.rest| < |s|
    decreases |s|, 1
  {
    if |s| == 0 || s[0] != '"' then None
    else
      match ParseString(s[1..])
      case None => None
      case Some(key) =>
        var colon := SkipSpace(key.rest);
        if |colon| == 0 || colon[0] != ':' then None
        else
          match ParseValue(SkipSpace(colon[1..]))
          case None => None
          case Some(first) => ContinueMembers(Member(key.value, first.value), SkipSpace(first.rest))
  }

  function ContinueMembers(member: Member, next: string): (r: Option<Parsed<seq<Member>>>)
    ensures r.Some? ==> |r.value.rest| < |next|
    decreases |next|, 0
  {
    if |next| == 0 then None
    else if next[0] == '}' then Some(Parsed([member], next[1..]))
    else if next[0] == ',' then
      match ParseMembers(SkipSpace(next[1..])) {
        case None => None
        case Some(tail) => Some(Parsed([member] + tail.value, tail.rest))
      }
    else None
  }

  /** One value with blanks around it and nothing else. */
  function Loads(s: string): Option<Json> {
    match ParseValue(SkipSpace(s))
    case None => None
    case Some(p) => if SkipSpace(p.rest) == "" then Some(p.value) else None
  }

  // --------------------------------------------------------------- round trip

  lemma {:induction false} NatTextDigits(n: nat)
    ensures forall i :: 0 <= i < |NatText(n)| ==> IsDigit(NatText(n)[i])
    ensures NatValue(NatText(n)) == n
    ensures NatText(n)[0] == '0' ==> n == 0 && |NatText(n)| == 1
  {
    if n >= 10 {
      NatTextDigits(n / 10);
      var text := NatText(n);
      assert text[..|text| - 1] == NatText(n / 10);
      assert text[0] == NatText(n / 10)[0];
    } else {
      var text := NatText(n);
      assert text[..0] == "";
    }
  }

  /** `rest` cannot extend a number that ends just before it. */
  predicate EndsNumber(rest: string) {
    |rest| == 0 || (!IsDigit(rest[0]) && rest[0] != '.' && rest[0] != 'e' && rest[0] != 'E')
  }

  lemma {:induction false} DigitRunExact(digits: string, rest: string)
    requires forall i :: 0 <= i < |digits| ==> IsDigit(digits[i])
    requires EndsNumber(rest)
    ensures DigitRun(digits + rest) == |digits|
  {
    if |digits| == 0 {
      assert digits + rest == rest;
    } else {
      assert (digits + rest)[1..] == digits[1..] + rest;
      DigitRunExact(digits[1..], rest);
    }
  }

  lemma IntegerDigitsExact(digits: string, rest: string)
    requires |digits| > 0 && forall i :: 0 <= i < |digits| ==> IsDigit(digits[i])
    requires digits[0] == '0' ==> |digits| == 1
    requires EndsNumber(rest)
    ensures IntegerDigits(digits + rest) == digits
    ensures RealTail(rest) == 0
  {
    DigitRunExact(digits, rest);
    assert (digits + rest)[..|digits|] == digits;
    assert rest[0..] == rest;
  }

  lemma ParseDigits(sign: string, digits: string, rest: string)
    requires sign == "" || sign == "-"
    requires |digits| > 0 && forall i :: 0 <= i < |digits| ==> IsDigit(digits[i])
    requires digits[0] == '0' ==> |digits| == 1
    requires EndsNumber(rest)
    ensures ParseValue(sign + digits + rest) == Some(Parsed(Int(Signed(sign == "-", NatValue(digits))), rest))
  {
    hide DigitRun, NatValue, RealTail, IntegerDigits, ParseString, ParseItems, ParseMembers;
    IntegerDigitsExact(digits, rest);
    var s := sign + digits + rest;
    assert s[|sign|..] == digits + rest;
    assert IsDigit(digits[0]);
    assert s[0] == if sign == "-" then '-' else digits[0];
    assert (digits + rest)[|digits|..] == rest;
    assert ParseNumber(s) == Some(Parsed(Int(Signed(sign == "-", NatValue(digits))), rest));
    assert !StartsWith(s, "null") && !StartsWith(s, "true") && !StartsWith(s, "false") by {
      assert "null"[0] == 'n' && "true"[0] == 't' && "false"[0] == 'f';
    }
  }

  lemma ParseIntText(n: int, rest: string)
    requires EndsNumber(rest)
    ensures ParseValue(IntText(n) + rest) == Some(Parsed(Int(n), rest))
  {
    hide ParseValue, NatText, NatValue;
    if n < 0 {
      NatTextDigits(-n);
      ParseDigits("-", NatText(-n), rest);
    } else {
      NatTextDigits(n);
      ParseDigits("", NatText(n), rest);
      assert "" + NatText(n) + rest == NatText(n) + rest;
    }
  }

  lemma ParseEscapeChar(c: char, rest: string)
    requires |EscapeChar(c)| > 1
    ensures EscapeChar(c)[0] == '\\' && ParseEscape(EscapeChar(c)[1..] + rest) == Some(Parsed(c, rest))
  {
    var s := EscapeChar(c)[1..] + rest;
    if |EscapeChar(c)| == 2 {
      assert s[1..] == rest;
    } else {
      assert s[1..][..4] == EscapeChar(c)[2..];
      assert s[1..][2] == LowerHex(c as int / 16) && s[1..][3] == LowerHex(c as int % 16);
      assert s[5..] == rest;
    }
  }

  lemma ParseFirstChar(c: char, tail: string, value: string, rest: string)
    requires ParseString(tail) == Some(Parsed(value, rest))
    ensures ParseString(EscapeChar(c) + tail) == Some(Parsed([c] + value, rest))
  {
    var text := EscapeChar(c) + tail;
    if |EscapeChar(c)| > 1 {
      ParseEscapeChar(c, tail);
      assert text[1..] == EscapeChar(c)[1..] + tail;
    } else {
      assert text[1..] == tail;
    }
  }

  lemma {:induction false} ParseEscapeText(s: string, rest: string)
    ensures ParseString(EscapeText(s) + "\"" + rest) == Some(Parsed(s, rest))
  {
    if |s| == 0 {
      assert EscapeText(s) + "\"" + rest == "\"" + rest;
      assert ("\"" + rest)[1..] == rest;
    } else {
      var tail := EscapeText(s[1..]) + "\"" + rest;
      ParseEscapeText(s[1..], rest);
      ParseFirstChar(s[0], tail, s[1..], rest);
      assert EscapeText(s) + "\"" + rest == EscapeChar(s[0]) + tail;
      assert s == [s[0]] + s[1..];
    }
  }

  lemma ParseQuote(s: string, rest: string)
    ensures ParseString((Quote(s) + rest)[1..]) == Some(Parsed(s, rest)) && (Quote(s) + rest)[0] == '"'
  {
    assert (Quote(s) + rest)[1..] == EscapeText(s) + "\"" + rest;
    ParseEscapeText(s, rest);
  }

  /** The first character of a printed value tells its kind and is no blank. */
  lemma DumpsFirst(v: Json)
    requires Plain(v)
    ensures |Dumps(v)| > 0 && !IsSpace(Dumps(v)[0]) && Dumps(v)[0] != ']' && Dumps(v)[0] != '}'
    ensures v.Int? ==> Dumps(v)[0] == '-' || IsDigit(Dumps(v)[0])
  {
    if v.Int? {
      NatTextDigits(if v.n < 0 then -v.n else v.n);
    }
  }

  lemma DumpItemsFirst(items: seq<Json>)
    requires |items| > 0 && Plain(items[0])
    ensures |DumpItems(items)| > 0 && !IsSpace(DumpItems(items)[0]) && DumpItems(items)[0] != ']'
  {
    DumpsFirst(items[0]);
  }

  lemma DumpMembersFirst(members: seq<Member>)
    requires |members| > 0
    ensures |DumpMembers(members)| > 0 && DumpMembers(members)[0] == '"'
  {
  }

  lemma NoSkip(s: string)
    requires |s| > 0 && !IsSpace(s[0])
    ensures SkipSpace(s) == s
  {
  }

  lemma ParseLiteral(v: Json, rest: string)
    requires v.Null? || v.Bool?
    ensures ParseValue(Dumps(v) + rest) == Some(Parsed(v, rest))
  {
    var s, n := Dumps(v) + rest, |Dumps(v)|;
    assert s[..n] == Dumps(v) && s[n..] == rest;
    assert StartsWith(s, Dumps(v));
  }

  lemma ParseQuoted(t: string, rest: string)
    ensures ParseValue(Quote(t) + rest) == Some(Parsed(Str(t), rest))
  {
    ParseQuote(t, rest);
  }

  lemma ParseWrapped(open: char, inner: string)
    requires |inner| > 0 && !IsSpace(inner[0])
    ensures SkipSpace(([open] + inner)[1..]) == inner
  {
    assert ([open] + inner)[1..] == inner;
  }

  lemma ParseBracket(items: seq<Json>, inner: string, rest: string)
    requires |inner| > 0 && !IsSpace(inner[0])
    requires if |items| == 0 then inner == "]" + rest else inner[0] != ']' && ParseItems(inner) == Some(Parsed(items, rest))
    ensures ParseValue("[" + inner) == Some(Parsed(Arr(items), rest))
  {
    ParseWrapped('[', inner);
    assert ("]" + rest)[1..] == rest;
  }

  lemma ParseBrace(members: seq<Member>, inner: string, rest: string)
    requires |inner| > 0 && !IsSpace(inner[0])
    requires if |members| == 0 then inner == "}" + rest else inner[0] != '}' && ParseMembers(inner) == Some(Parsed(members, rest))
    ensures ParseValue("{" + inner) == Some(Parsed(Obj(members), rest))
  {
    ParseWrapped('{', inner);
    assert ("}" + rest)[1..] == rest;
  }

  lemma {:induction false} ParseDumps(v: Json, rest: string)
    requires Plain(v) && EndsNumber(rest)
    ensures ParseValue(Dumps(v) + rest) == Some(Parsed(v, rest))
    decreases v, 1
  {
    hide ParseValue, ParseItems, ParseMembers, DumpItems, DumpMembers, IntText, Quote;
    match v
    case Null =>
      ParseLiteral(v, rest);
    case Bool(b) =>
      ParseLiteral(v, rest);
    case Int(n) =>
      ParseIntText(n, rest);
    case Str(t) =>
      ParseQuoted(t, rest);
    case Arr(items) =>
      if |items| == 0 {
        ParseBracket(items, "]" + rest, rest);
        assert Dumps(v) + rest == "[" + ("]" + rest);
      } else {
        DumpItemsFirst(items);
        ParseDumpItems(items, rest);
        ParseBracket(items, DumpItems(items) + rest, rest);
        assert Dumps(v) + rest == "[" + (DumpItems(items) + rest);
      }
    case Obj(members) =>
      if |members| == 0 {
        ParseBrace(members, "}" + rest, rest);
        assert Dumps(v) + rest == "{" + ("}" + rest);
      } else {
        DumpMembersFirst(members);
        ParseDumpMembers(members, rest);
        ParseBrace(members, DumpMembers(members) + rest, rest);
        assert Dumps(v) + rest == "{" + (DumpMembers(members) + rest);
      }
  }

  lemma {:induction false} ParseDumpItems(items: seq<Json>, rest: string)
    requires |items| > 0 && forall i :: 0 <= i < |items| ==> Plain(items[i])
    ensures ParseItems(DumpItems(items) + rest) == Some(Parsed(items, rest))
    decreases items, 0
  {
    hide ParseValue;
    var tail := if |items| == 1 then "" else DumpItems(items[1..]) + rest;
    var after := if |items| == 1 then "]" + rest else "," + tail;
    assert DumpItems(items) + rest == Dumps(items[0]) + after;
    ParseDumps(items[0], after);
    NoSkip(after);
    if |items| == 1 {
      assert after[1..] == rest;
      assert items == [items[0]];
    } else {
      assert after[1..] == tail;
      DumpsFirst(items[1]);
      assert tail[0] == Dumps(items[1])[0];
      NoSkip(tail);
      ParseDumpItems(items[1..], rest);
      assert items == [items[0]] + items[1..];
    }
  }

  /** One printed member is read back up to whatever follows its value. */
  lemma ParseMemberHead(head: Member, after: string)
    requires Plain(head.value) && |after| > 0 && !IsSpace(after[0])
    requires ParseValue(Dumps(head.value) + after) == Some(Parsed(head.value, after))
    ensures ParseMembers(Quote(head.key) + ":" + Dumps(head.value) + after) == ContinueMembers(head, after)
  {
    var value := Dumps(head.value) + after;
    var colon := ":" + value;
    assert Quote(head.key) + ":" + Dumps(head.value) + after == Quote(head.key) + colon;
    ParseQuote(head.key, colon);
    NoSkip(colon);
    assert colon[1..] == value;
    DumpsFirst(head.value);
    assert value[0] == Dumps(head.value)[0];
    NoSkip(value);
    NoSkip(after);
  }

  lemma MembersSplit(members: seq<Member>, rest: string)
    requires |members| > 0
    ensures DumpMembers(members) + rest ==
      Quote(members[0].key) + ":" + Dumps(members[0].value) +
      (if |members| == 1 then "}" + rest else "," + (DumpMembers(members[1..]) + rest))
  {
    hide Quote, Dumps;
  }

  lemma {:induction false} ParseDumpMembers(members: seq<Member>, rest: string)
    requires |members| > 0 && forall i :: 0 <= i < |members| ==> Plain(members[i].value)
    ensures ParseMembers(DumpMembers(members) + rest) == Some(Parsed(members, rest))
    decreases members, 0
  {
    hide ParseValue, Quote, Dumps;
    var head := members[0];
    var tail := if |members| == 1 then "" else DumpMembers(members[1..]) + rest;
    var after := if |members| == 1 then "}" + rest else "," + tail;
    MembersSplit(members, rest);
    ParseDumps(head.value, after);
    ParseMemberHead(head, after);
    hide DumpMembers;
    if |members| == 1 {
      assert after[1..] == rest;
      assert members == [head];
    } else {
      assert after[1..] == tail;
      DumpMembersFirst(members[1..]);
      NoSkip(tail);
      ParseDumpMembers(members[1..], rest);
      assert members == [members[0]] + members[1..];
    }
  }

  /** Reading back what was printed returns the same value. */
  lemma LoadsDumps(v: Json)
    requires Plain(v)
    ensures Loads(Dumps(v)) == Some(v)
  {
    DumpsFirst(v);
    NoSkip(Dumps(v));
    ParseDumps(v, "");
    assert Dumps(v) + "" == Dumps(v);
  }

  /** Hence printing is injective. */
  lemma DumpsInjective(left: Json, right: Json)
    requires Plain(left) && Plain(right) && Dumps(left) == Dumps(right)
    ensures left == right
  {
    LoadsDumps(left);
    LoadsDumps(right);
  }
}
