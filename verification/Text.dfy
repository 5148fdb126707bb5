/** UTF-16 text as the browser sees it, its UTF-8 bytes as the server writes them, decimal numerals,
    and the string form of Go's encoding/json. */
module Text {

  datatype Option<+T> = None | Some(value: T)

  /** A UTF-16 code unit. */
  type Unit = u: int | 0 <= u < 0x1_0000
  type Byte = b: int | 0 <= b < 0x100

  const QUOTE: Unit := 0x22
  const BACKSLASH: Unit := 0x5c
  const COMMA: Unit := 0x2c
  const COLON: Unit := 0x3a

  predicate High(u: int) { 0xd800 <= u <= 0xdbff }
  predicate Low(u: int) { 0xdc00 <= u <= 0xdfff }

  /** Every surrogate is half of a pair. */
  predicate WellFormed(text: seq<Unit>) {
    if text == [] then true
    else if High(text[0]) then |text| > 1 && Low(text[1]) && WellFormed(text[2..])
    else !Low(text[0]) && WellFormed(text[1..])
  }

  function Scalar(high: Unit, low: Unit): (c: int)
    requires High(high) && Low(low)
    ensures 0x1_0000 <= c < 0x11_0000
  {
    0x1_0000 + (high - 0xd800) * 0x400 + (low - 0xdc00)
  }

  /** The UTF-8 form of one Unicode scalar value (section 3 of RFC 3629). */
  function Utf8Scalar(c: int): (r: seq<Byte>)
    requires 0 <= c < 0x11_0000
    ensures |r| == if c < 0x80 then 1 else if c < 0x800 then 2 else if c < 0x1_0000 then 3 else 4
  {
    if c < 0x80 then [c]
    else if c < 0x800 then [0xc0 + c / 0x40, 0x80 + c % 0x40]
    else if c < 0x1_0000 then [0xe0 + c / 0x1000, 0x80 + c / 0x40 % 0x40, 0x80 + c % 0x40]
    else [0xf0 + c / 0x4_0000, 0x80 + c / 0x1000 % 0x40, 0x80 + c / 0x40 % 0x40, 0x80 + c % 0x40]
  }

  predicate Continues(b: Byte) { 0x80 <= b < 0xc0 }

  /** The six bits that a continuation byte carries. */
  function Six(b: Byte): int { b as int - 0x80 }

  /** The bytes of a scalar value read back as the value: the first byte tells how many there are, each of the others carries six bits. */
  lemma Utf8ScalarReads(c: int)
    requires 0 <= c < 0x11_0000
    ensures var b := Utf8Scalar(c);
            && (forall i :: 0 < i < |b| ==> Continues(b[i]))
            && var lead: int := b[0];
               if |b| == 1 then lead < 0x80 && c == lead
               else if |b| == 2 then 0xc0 <= lead < 0xe0 && c == (lead - 0xc0) * 0x40 + Six(b[1])
               else if |b| == 3 then 0xe0 <= lead < 0xf0 && c == ((lead - 0xe0) * 0x40 + Six(b[1])) * 0x40 + Six(b[2])
               else |b| == 4 && 0xf0 <= lead < 0xf5 && c == (((lead - 0xf0) * 0x40 + Six(b[1])) * 0x40 + Six(b[2])) * 0x40 + Six(b[3])
  {
    assert c / 0x40 / 0x40 == c / 0x1000 && c / 0x1000 / 0x40 == c / 0x4_0000;
  }

  function Utf8(text: seq<Unit>): seq<Byte>
    requires WellFormed(text)
  {
    if text == [] then []
    else if High(text[0]) then Utf8Scalar(Scalar(text[0], text[1])) + Utf8(text[2..])
    else Utf8Scalar(text[0]) + Utf8(text[1..])
  }

  lemma {:induction false} Utf8Append(a: seq<Unit>, b: seq<Unit>)
    requires WellFormed(a) && WellFormed(b)
    ensures WellFormed(a + b) && Utf8(a + b) == Utf8(a) + Utf8(b)
  {
    hide Utf8Scalar, Scalar;
    if a == [] {
      assert a + b == b;
    } else if High(a[0]) {
      Utf8Append(a[2..], b);
      assert (a + b)[2..] == a[2..] + b;
    } else {
      Utf8Append(a[1..], b);
      assert (a + b)[1..] == a[1..] + b;
    }
  }

  // ----- Decimal numerals -----

  predicate Digit(u: int) { 0x30 <= u <= 0x39 }

  function Decimal(n: nat): (r: seq<Unit>)
    ensures |r| > 0 && forall i :: 0 <= i < |r| ==> Digit(r[i])
  {
    if n < 10 then [0x30 + n] else Decimal(n / 10) + [0x30 + n % 10]
  }

  function NumeralValue(digits: seq<Unit>): nat
    requires forall i :: 0 <= i < |digits| ==> Digit(digits[i])
  {
    if digits == [] then 0
    else
      var last := digits[|digits| - 1];
      assert Digit(last);
      NumeralValue(digits[..|digits| - 1]) * 10 + (last as int - 0x30)
  }

  lemma {:induction false} DecimalReads(n: nat)
    ensures NumeralValue(Decimal(n)) == n
    ensures n > 0 ==> Decimal(n)[0] != 0x30
  {
    if n >= 10 {
      DecimalReads(n / 10);
      assert Decimal(n)[..|Decimal(n)| - 1] == Decimal(n / 10);
    }
  }

  /** A numeral gains at most one digit per step up. */
  lemma {:induction false} DecimalWidth(n: nat)
    ensures |Decimal(n)| <= |Decimal(n + 1)| <= |Decimal(n)| + 1
  {
    if n >= 10 {
      DecimalWidth(n / 10);
      assert (n + 1) / 10 == n / 10 || (n + 1) / 10 == n / 10 + 1;
    }
  }

  lemma {:induction false} DecimalWidthMonotone(m: nat, n: nat)
    requires m <= n
    ensures |Decimal(m)| <= |Decimal(n)| <= |Decimal(m)| + (n - m)
    decreases n - m
  {
    if m < n {
      DecimalWidth(m);
      DecimalWidthMonotone(m + 1, n);
    }
  }

  // ----- Go's JSON strings -----

  function HexDigit(d: int): Unit
    requires 0 <= d < 16
  {
    if d < 10 then 0x30 + d else 0x61 + (d - 10)
  }

  /** The control characters that have a two-character escape, with its letter. */
  function ShortEscape(u: Unit): Option<Unit> {
    match u
    case 0x22 => Some(0x22)
    case 0x5c => Some(0x5c)
    case 0x08 => Some(0x62)
    case 0x0c => Some(0x66)
    case 0x0a => Some(0x6e)
    case 0x0d => Some(0x72)
    case 0x09 => Some(0x74)
    case _ => None
  }

  /** encoding/json also escapes HTML's <, > and & and the line separators U+2028 and U+2029. */
  predicate HexEscaped(u: Unit) {
    ShortEscape(u) == None && (u < 0x20 || u == 0x3c || u == 0x3e || u == 0x26 || u == 0x2028 || u == 0x2029)
  }

  function GoUnit(u: Unit): (r: seq<Unit>)
    ensures |r| > 0
  {
    if ShortEscape(u).Some? then [BACKSLASH, ShortEscape(u).value]
    else if HexEscaped(u) then
      [BACKSLASH, 0x75, HexDigit(u / 0x1000), HexDigit(u / 0x100 % 0x10), HexDigit(u / 0x10 % 0x10), HexDigit(u % 0x10)]
    else [u]
  }

  function GoBody(text: seq<Unit>): seq<Unit> {
    if text == [] then [] else GoUnit(text[0]) + GoBody(text[1..])
  }

  function GoQuoted(text: seq<Unit>): seq<Unit> { [QUOTE] + GoBody(text) + [QUOTE] }

  lemma GoUnitWellFormed(u: Unit)
    requires !High(u) && !Low(u)
    ensures WellFormed(GoUnit(u))
    ensures |Utf8(GoUnit(u))| ==
            if ShortEscape(u).Some? then 2 else if HexEscaped(u) then 6
            else if u < 0x80 then 1 else if u < 0x800 then 2 else 3
  {
    var g := GoUnit(u);
    if HexEscaped(u) {
      AsciiUtf8(g);
    } else if ShortEscape(u).Some? {
      AsciiUtf8(g);
    }
  }

  lemma {:induction false} AsciiUtf8(text: seq<Unit>)
    requires forall i :: 0 <= i < |text| ==> text[i] < 0x80
    ensures WellFormed(text) && |Utf8(text)| == |text|
  {
    if text != [] {
      AsciiUtf8(text[1..]);
    }
  }

  lemma PairUtf8(high: Unit, low: Unit)
    requires High(high) && Low(low)
    ensures WellFormed([high, low]) && Utf8([high, low]) == Utf8Scalar(Scalar(high, low))
  {
    assert [high, low][2..] == [];
  }

  lemma GoBodyPair(text: seq<Unit>)
    requires |text| > 1 && High(text[0]) && Low(text[1])
    ensures GoBody(text) == [text[0], text[1]] + GoBody(text[2..])
  {
    assert GoUnit(text[0]) == [text[0]] && GoUnit(text[1]) == [text[1]];
    hide GoUnit;
    assert text[1..][1..] == text[2..];
    assert GoBody(text) == GoUnit(text[0]) + GoBody(text[1..]);
    assert GoBody(text[1..]) == GoUnit(text[1]) + GoBody(text[2..]);
  }

  /** Quoting keeps text well formed, one character at a time. */
  lemma {:induction false} GoBodyWellFormed(text: seq<Unit>)
    requires WellFormed(text)
    ensures WellFormed(GoBody(text))
    ensures text != [] && High(text[0]) ==>
              WellFormed(GoBody(text[2..])) && |Utf8(GoBody(text))| == 4 + |Utf8(GoBody(text[2..]))|
    ensures text != [] && !High(text[0]) ==>
              && !Low(text[0]) && WellFormed(GoUnit(text[0])) && WellFormed(GoBody(text[1..]))
              && |Utf8(GoBody(text))| == |Utf8(GoUnit(text[0]))| + |Utf8(GoBody(text[1..]))|
  {
    if text != [] {
      if High(text[0]) {
        GoBodyWellFormed(text[2..]);
        GoBodyPair(text);
        PairUtf8(text[0], text[1]);
        Utf8Append([text[0], text[1]], GoBody(text[2..]));
      } else {
        GoBodyWellFormed(text[1..]);
        GoUnitWellFormed(text[0]);
        Utf8Append(GoUnit(text[0]), GoBody(text[1..]));
      }
    }
  }

  lemma GoQuotedBytes(text: seq<Unit>)
    requires WellFormed(text)
    ensures WellFormed(GoBody(text)) && WellFormed(GoQuoted(text))
    ensures |Utf8(GoQuoted(text))| == 2 + |Utf8(GoBody(text))|
  {
    GoBodyWellFormed(text);
    AsciiUtf8([QUOTE]);
    Utf8Append([QUOTE], GoBody(text));
    Utf8Append([QUOTE] + GoBody(text), [QUOTE]);
  }

  lemma EmptyBody()
    ensures GoBody([]) == [] && Utf8([]) == []
  {
  }

  /** The browser's byte counter is exact: it rejects ill-formed or over-long text and otherwise
      returns the length of Go's quoted UTF-8 form. */
  method GoJSONStringBytes(value: seq<Unit>, maxUTF8: nat) returns (r: Option<nat>)
    ensures r.Some? <==> WellFormed(value) && |Utf8(value)| <= maxUTF8
    ensures r.Some? ==> WellFormed(GoQuoted(value)) && r.value == |Utf8(GoQuoted(value))|
  {
    hide Utf8Scalar, Scalar, GoUnit, GoBody;
    if WellFormed(value) {
      GoBodyWellFormed(value);
      assert value[0..] == value;
    }
    var encoded := 2;
    var utf8 := 0;
    var index := 0;
    while index < |value|
      invariant index <= |value|
      invariant WellFormed(value) <==> WellFormed(value[index..])
      invariant WellFormed(value) ==>
                  && WellFormed(GoBody(value)) && WellFormed(GoBody(value[index..]))
                  && utf8 + |Utf8(value[index..])| == |Utf8(value)|
                  && encoded + |Utf8(GoBody(value[index..]))| == 2 + |Utf8(GoBody(value))|
      invariant utf8 <= maxUTF8
    {
      var code := value[index];
      ghost var rest := value[index..];
      if WellFormed(rest) {
        GoBodyWellFormed(rest);
        assert !High(code) ==> rest[1..] == value[index + 1..];
        assert High(code) ==> rest[2..] == value[index + 2..];
      }
      if High(code) {
        var low := if index + 1 < |value| then value[index + 1] else 0;
        if !Low(low) {
          return None;
        }
        encoded := encoded + 4;
        utf8 := utf8 + 4;
        assert rest[2..] == value[index + 2..];
        index := index + 1;
      } else if Low(code) {
        return None;
      } else {
        utf8 := utf8 + if code <= 0x7f then 1 else if code <= 0x7ff then 2 else 3;
        GoUnitWellFormed(code);
        if code == 0x22 || code == 0x5c || code == 0x08 || code == 0x09 || code == 0x0a || code == 0x0c || code == 0x0d {
          encoded := encoded + 2;
        } else if code < 0x20 || code == 0x3c || code == 0x3e || code == 0x26 || code == 0x2028 || code == 0x2029 {
          encoded := encoded + 6;
        } else {
          encoded := encoded + if code <= 0x7f then 1 else if code <= 0x7ff then 2 else 3;
        }
        assert rest[1..] == value[index + 1..];
      }
      if utf8 > maxUTF8 {
        return None;
      }
      index := index + 1;
    }
    EmptyBody();
    if WellFormed(value) {
      GoQuotedBytes(value);
    }
    return Some(encoded);
  }
}
