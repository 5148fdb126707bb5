/** The error wire format: the server's marshaller and the browser's strict parser
    (frontend/state.js:429-573, backend/api/error_contract.go:235-267). */
module ErrorWire {
  import opened Text

  const MAX_BODY := 65536
  const MAX_TEXT := 128
  const MAX_TOKENS := 10
  const MAX_PROPERTIES := 3
  const MAX_DEPTH := 2

  const OPEN: Unit := 0x7b
  const CLOSE: Unit := 0x7d
  const LETTER_U: Unit := 0x75
  const ERROR_NAME: seq<Unit> := [0x65, 0x72, 0x72, 0x6f, 0x72]
  const CODE_NAME: seq<Unit> := [0x63, 0x6f, 0x64, 0x65]
  const MESSAGE_NAME: seq<Unit> := [0x6d, 0x65, 0x73, 0x73, 0x61, 0x67, 0x65]

  datatype APIError = APIError(code: seq<Unit>, message: seq<Unit>)

  // ----- The grammar: one text is one list of spelled lexemes (sections 2, 4 and 7 of RFC 8259) -----

  datatype Four = Four(a: Unit, b: Unit, c: Unit, d: Unit)

  /** The ways to spell one character inside a JSON string. */
  datatype Spelling =
    | Raw(unit: Unit)
    | RawPair(high: Unit, low: Unit)
    | Short(letter: Unit)
    | Hex(digits: Four)
    | HexPair(first: Four, second: Four)

  predicate Space(u: Unit) { u == 0x20 || u == 0x09 || u == 0x0a || u == 0x0d }

  predicate Blank(text: seq<Unit>) { forall i :: 0 <= i < |text| ==> Space(text[i]) }

  function HexValue(u: Unit): int {
    if 48 <= u <= 57 then u - 48 else if 65 <= u <= 70 then u - 55 else if 97 <= u <= 102 then u - 87 else -1
  }

  predicate IsHex(f: Four) { HexValue(f.a) >= 0 && HexValue(f.b) >= 0 && HexValue(f.c) >= 0 && HexValue(f.d) >= 0 }

  function FourValue(f: Four): Unit
    requires IsHex(f)
  {
    HexValue(f.a) * 4096 + HexValue(f.b) * 256 + HexValue(f.c) * 16 + HexValue(f.d)
  }

  function ShortMeaning(letter: Unit): Option<Unit> {
    match letter
    case 0x22 => Some(0x22)
    case 0x5c => Some(0x5c)
    case 0x2f => Some(0x2f)
    case 0x62 => Some(0x08)
    case 0x66 => Some(0x0c)
    case 0x6e => Some(0x0a)
    case 0x72 => Some(0x0d)
    case 0x74 => Some(0x09)
    case _ => None
  }

  predicate Spells(c: Spelling) {
    match c
    case Raw(u) => u >= 0x20 && u != QUOTE && u != BACKSLASH && !High(u) && !Low(u)
    case RawPair(high, low) => High(high) && Low(low)
    case Short(letter) => ShortMeaning(letter).Some?
    case Hex(f) => IsHex(f) && !High(FourValue(f)) && !Low(FourValue(f))
    case HexPair(f, g) => IsHex(f) && IsHex(g) && High(FourValue(f)) && Low(FourValue(g))
  }

  function FourText(f: Four): seq<Unit> { [BACKSLASH, LETTER_U, f.a, f.b, f.c, f.d] }

  function Printed(c: Spelling): (r: seq<Unit>)
    ensures |r| > 0
  {
    match c
    case Raw(u) => [u]
    case RawPair(high, low) => [high, low]
    case Short(letter) => [BACKSLASH, letter]
    case Hex(f) => FourText(f)
    case HexPair(f, g) => FourText(f) + FourText(g)
  }

  function Meaning(c: Spelling): (r: seq<Unit>)
    requires Spells(c)
    ensures 1 <= |r| <= 2
  {
    match c
    case Raw(u) => [u]
    case RawPair(high, low) => [high, low]
    case Short(letter) => [ShortMeaning(letter).value]
    case Hex(f) => [FourValue(f)]
    case HexPair(f, g) => [FourValue(f), FourValue(g)]
  }

  predicate AllSpell(cs: seq<Spelling>) { forall i :: 0 <= i < |cs| ==> Spells(cs[i]) }

  function PrintedAll(cs: seq<Spelling>): seq<Unit> {
    if cs == [] then [] else Printed(cs[0]) + PrintedAll(cs[1..])
  }

  function MeaningAll(cs: seq<Spelling>): seq<Unit>
    requires AllSpell(cs)
  {
    if cs == [] then [] else Meaning(cs[0]) + MeaningAll(cs[1..])
  }

  datatype Kind = Mark(unit: Unit) | Text

  datatype Lexeme = Sign(pad: seq<Unit>, unit: Unit) | Quoted(pad: seq<Unit>, chars: seq<Spelling>)

  /** The one shape an error text has, between its padding. */
  const SHAPE: seq<Kind> :=
    [Mark(OPEN), Kind.Text, Mark(COLON), Mark(OPEN), Kind.Text, Mark(COLON), Kind.Text, Mark(COMMA),
     Kind.Text, Mark(COLON), Kind.Text, Mark(CLOSE), Mark(CLOSE)]

  predicate Fits(x: Lexeme, kind: Kind) {
    && Blank(x.pad)
    && match kind
       case Mark(u) => x.Sign? && x.unit == u
       case Text => x.Quoted? && AllSpell(x.chars) && |MeaningAll(x.chars)| <= MAX_TEXT
  }

  predicate FitsAll(xs: seq<Lexeme>, shape: seq<Kind>) {
    |xs| == |shape| && forall i :: 0 <= i < |xs| ==> Fits(xs[i], shape[i])
  }

  function LexemeText(x: Lexeme): seq<Unit> {
    x.pad + match x
            case Sign(_, u) => [u]
            case Quoted(_, chars) => [QUOTE] + PrintedAll(chars) + [QUOTE]
  }

  function LexemesText(xs: seq<Lexeme>): seq<Unit> {
    if xs == [] then [] else LexemeText(xs[0]) + LexemesText(xs[1..])
  }

  function Strings(xs: seq<Lexeme>, shape: seq<Kind>): seq<seq<Unit>>
    requires FitsAll(xs, shape)
  {
    if xs == [] then []
    else (if xs[0].Quoted? then [MeaningAll(xs[0].chars)] else []) + Strings(xs[1..], shape[1..])
  }

  /** What the five strings of an error text say, when they are its names and values. */
  function Reading(strings: seq<seq<Unit>>): Option<APIError> {
    if |strings| != 5 || strings[0] != ERROR_NAME then None
    else if strings[1] == CODE_NAME && strings[3] == MESSAGE_NAME then Some(APIError(strings[2], strings[4]))
    else if strings[1] == MESSAGE_NAME && strings[3] == CODE_NAME then Some(APIError(strings[4], strings[2]))
    else None
  }

  /** `body` is a text of `value`: the spelled lexemes of an error object, then padding. */
  ghost predicate TextOf(body: seq<Unit>, xs: seq<Lexeme>, tail: seq<Unit>, value: APIError) {
    && FitsAll(xs, SHAPE) && Blank(tail)
    && body == LexemesText(xs) + tail
    && Reading(Strings(xs, SHAPE)) == Some(value)
  }

  ghost predicate Denotes(body: seq<Unit>, value: APIError) {
    exists xs, tail :: TextOf(body, xs, tail, value)
  }

  // ----- The parser as a function of the remaining text -----

  function Skip(s: seq<Unit>): seq<Unit> {
    if s != [] && Space(s[0]) then Skip(s[1..]) else s
  }

  /** Skipping takes off exactly the leading padding. */
  lemma {:induction false} SkipIsPad(s: seq<Unit>)
    ensures |Skip(s)| <= |s| && Skip(s) == s[|s| - |Skip(s)|..] && Blank(s[..|s| - |Skip(s)|])
    ensures Skip(s) != [] ==> !Space(Skip(s)[0])
  {
    if s != [] && Space(s[0]) {
      SkipIsPad(s[1..]);
      assert s[..|s| - |Skip(s)|] == [s[0]] + s[1..][..|s| - 1 - |Skip(s)|];
    } else {
      assert s[0..] == s;
    }
  }

  lemma {:induction false} SkipPad(pad: seq<Unit>, rest: seq<Unit>)
    requires Blank(pad) && (rest == [] || !Space(rest[0]))
    ensures Skip(pad + rest) == rest
  {
    if pad == [] {
      assert pad + rest == rest;
    } else {
      SkipPad(pad[1..], rest);
      assert (pad + rest)[1..] == pad[1..] + rest;
    }
  }

  function HexAt(s: seq<Unit>): (r: Option<Four>)
    ensures r.Some? ==> IsHex(r.value) && |s| >= 4 && s[..4] == [r.value.a, r.value.b, r.value.c, r.value.d]
  {
    if |s| < 4 then None
    else
      var f := Four(s[0], s[1], s[2], s[3]);
      if IsHex(f) then Some(f) else None
  }

  function EscapeAt(s: seq<Unit>): Option<Spelling>
    requires s != [] && s[0] == BACKSLASH
  {
    if |s| < 2 then None
    else if ShortMeaning(s[1]).Some? then Some(Short(s[1]))
    else if s[1] != LETTER_U || HexAt(s[2..]).None? then None
    else
      var f := HexAt(s[2..]).value;
      if Low(FourValue(f)) then None
      else if !High(FourValue(f)) then Some(Hex(f))
      else if |s| < 8 || s[6] != BACKSLASH || s[7] != LETTER_U || HexAt(s[8..]).None? then None
      else
        var g := HexAt(s[8..]).value;
        if Low(FourValue(g)) then Some(HexPair(f, g)) else None
  }

  /** The spelling at the front of `s`, when there is one. */
  function SpellingAt(s: seq<Unit>): Option<Spelling>
    requires s != [] && s[0] != QUOTE
  {
    if s[0] < 0x20 || Low(s[0]) then None
    else if s[0] == BACKSLASH then EscapeAt(s)
    else if !High(s[0]) then Some(Raw(s[0]))
    else if |s| > 1 && Low(s[1]) then Some(RawPair(s[0], s[1]))
    else None
  }

  lemma SpellingAtSound(s: seq<Unit>)
    requires s != [] && s[0] != QUOTE && SpellingAt(s).Some?
    ensures Spells(SpellingAt(s).value)
    ensures |Printed(SpellingAt(s).value)| <= |s| && Printed(SpellingAt(s).value) == s[..|Printed(SpellingAt(s).value)|]
  {
    var c := SpellingAt(s).value;
    if s[0] == BACKSLASH && s[1] == LETTER_U {
      assert s[2..][..4] == s[2..6];
      assert s[..6] == [s[0], s[1]] + s[2..6];
      if c.HexPair? {
        assert s[8..][..4] == s[8..12];
        assert s[..12] == s[..6] + [s[6], s[7]] + s[8..12];
      }
    }
  }

  lemma FourAt(f: Four, rest: seq<Unit>)
    ensures var s := FourText(f) + rest;
            |s| >= 6 && s[0] == BACKSLASH && s[1] == LETTER_U && s[2..][..4] == [f.a, f.b, f.c, f.d] && s[6..] == rest
  {
    var s := FourText(f) + rest;
    assert s[2..6] == [f.a, f.b, f.c, f.d];
  }

  lemma SpellingAtComplete(c: Spelling, rest: seq<Unit>)
    requires Spells(c)
    ensures Printed(c)[0] != QUOTE && SpellingAt(Printed(c) + rest) == Some(c)
  {
    var s := Printed(c) + rest;
    match c
    case Raw(_) =>
    case RawPair(_, _) =>
    case Short(_) =>
    case Hex(f) => FourAt(f, rest);
    case HexPair(f, g) =>
      FourAt(f, FourText(g) + rest);
      FourAt(g, rest);
      assert s == FourText(f) + (FourText(g) + rest);
      assert s[8..] == s[6..][2..];
  }

  /** The characters up to the closing quote, of at most `room` units, and what follows it. */
  function CharsAt(s: seq<Unit>, room: nat): Option<(seq<Unit>, seq<Unit>)>
    decreases |s|
  {
    if s == [] then None
    else if s[0] == QUOTE then Some(([], s[1..]))
    else match SpellingAt(s)
      case None => None
      case Some(c) =>
        SpellingAtSound(s);
        if |Meaning(c)| > room then None
        else match CharsAt(s[|Printed(c)|..], room - |Meaning(c)|)
          case None => None
          case Some(more) => Some((Meaning(c) + more.0, more.1))
  }

  lemma {:induction false} CharsAtSound(s: seq<Unit>, room: nat) returns (cs: seq<Spelling>)
    requires CharsAt(s, room).Some?
    ensures AllSpell(cs) && MeaningAll(cs) == CharsAt(s, room).value.0 && |MeaningAll(cs)| <= room
    ensures s == PrintedAll(cs) + [QUOTE] + CharsAt(s, room).value.1
    decreases |s|
  {
    hide SpellingAt, Printed, Meaning, Spells;
    if s[0] == QUOTE {
      cs := [];
    } else {
      var c := SpellingAt(s).value;
      SpellingAtSound(s);
      var rest := s[|Printed(c)|..];
      var more := CharsAtSound(rest, room - |Meaning(c)|);
      cs := [c] + more;
      assert cs[1..] == more;
      assert s == Printed(c) + rest;
      Regroup(Printed(c), PrintedAll(more) + [QUOTE], CharsAt(s, room).value.1);
      Regroup(Printed(c), PrintedAll(more), [QUOTE]);
    }
  }

  lemma {:induction false} CharsAtComplete(cs: seq<Spelling>, rest: seq<Unit>, room: nat)
    requires AllSpell(cs)
    ensures CharsAt(PrintedAll(cs) + [QUOTE] + rest, room)
            == if |MeaningAll(cs)| <= room then Some((MeaningAll(cs), rest)) else None
  {
    var s := PrintedAll(cs) + [QUOTE] + rest;
    if cs == [] {
      assert s == [QUOTE] + rest;
    } else {
      var c := cs[0];
      var tail := PrintedAll(cs[1..]) + [QUOTE] + rest;
      assert s == Printed(c) + tail;
      SpellingAtComplete(c, tail);
      SpellingAtSound(s);
      assert s[|Printed(c)|..] == tail;
      if |Meaning(c)| <= room {
        CharsAtComplete(cs[1..], rest, room - |Meaning(c)|);
      }
    }
  }

  /** The lexeme of one kind at the front of `s`: its string (empty for a mark) and what follows. */
  function LexemeAt(s: seq<Unit>, kind: Kind): (r: Option<(seq<Unit>, seq<Unit>)>) {
    var t := Skip(s);
    if t == [] || t[0] != (if kind.Mark? then kind.unit else QUOTE) then None
    else if kind.Mark? then Some(([], t[1..]))
    else CharsAt(t[1..], MAX_TEXT)
  }

  /** The strings of a text that has the lexemes of `shape` and then only padding. */
  function Scan(s: seq<Unit>, shape: seq<Kind>): Option<seq<seq<Unit>>>
    decreases |shape|
  {
    if shape == [] then (if Skip(s) == [] then Some([]) else None)
    else match LexemeAt(s, shape[0])
      case None => None
      case Some(x) => match Scan(x.1, shape[1..])
        case None => None
        case Some(more) => Some((if shape[0].Text? then [x.0] else []) + more)
  }

  lemma LexemeAtSound(s: seq<Unit>, kind: Kind) returns (x: Lexeme)
    requires LexemeAt(s, kind).Some?
    ensures Fits(x, kind) && s == LexemeText(x) + LexemeAt(s, kind).value.1
    ensures x.Quoted? <==> kind.Text?
    ensures x.Quoted? ==> MeaningAll(x.chars) == LexemeAt(s, kind).value.0
  {
    SkipIsPad(s);
    var t := Skip(s);
    var pad := s[..|s| - |t|];
    var rest := LexemeAt(s, kind).value.1;
    assert s == pad + t;
    assert t == [t[0]] + t[1..];
    if kind.Mark? {
      x := Sign(pad, kind.unit);
      Regroup(pad, [kind.unit], rest);
    } else {
      var chars := CharsAtSound(t[1..], MAX_TEXT);
      x := Quoted(pad, chars);
      var body := PrintedAll(chars);
      Regroup([QUOTE], body + [QUOTE], rest);
      Regroup([QUOTE], body, [QUOTE]);
      Regroup(pad, [QUOTE] + body + [QUOTE], rest);
    }
  }

  lemma Regroup(a: seq<Unit>, b: seq<Unit>, c: seq<Unit>)
    ensures a + (b + c) == a + b + c
  {
  }

  lemma LexemeAtComplete(x: Lexeme, kind: Kind, rest: seq<Unit>)
    requires Fits(x, kind) && (kind.Mark? ==> !Space(kind.unit))
    ensures LexemeAt(LexemeText(x) + rest, kind)
            == Some((if x.Quoted? then MeaningAll(x.chars) else [], rest))
  {
    var s := LexemeText(x) + rest;
    if kind.Mark? {
      assert s == x.pad + ([x.unit] + rest);
      SkipPad(x.pad, [x.unit] + rest);
    } else {
      var t := PrintedAll(x.chars) + [QUOTE] + rest;
      assert s == x.pad + ([QUOTE] + t);
      SkipPad(x.pad, [QUOTE] + t);
      assert ([QUOTE] + t)[1..] == t;
      CharsAtComplete(x.chars, rest, MAX_TEXT);
    }
  }

  lemma {:induction false} ScanSound(s: seq<Unit>, shape: seq<Kind>) returns (xs: seq<Lexeme>, tail: seq<Unit>)
    requires Scan(s, shape).Some?
    ensures FitsAll(xs, shape) && Blank(tail) && s == LexemesText(xs) + tail
    ensures Strings(xs, shape) == Scan(s, shape).value
    decreases |shape|
  {
    if shape == [] {
      SkipIsPad(s);
      xs, tail := [], s;
      assert s[..|s| - 0] == s;
    } else {
      var x := LexemeAtSound(s, shape[0]);
      var more;
      more, tail := ScanSound(LexemeAt(s, shape[0]).value.1, shape[1..]);
      xs := [x] + more;
      assert xs[1..] == more;
      assert LexemesText(xs) + tail == LexemeText(x) + (LexemesText(more) + tail);
    }
  }

  lemma {:induction false} ScanComplete(xs: seq<Lexeme>, tail: seq<Unit>, shape: seq<Kind>)
    requires FitsAll(xs, shape) && Blank(tail)
    requires forall i :: 0 <= i < |shape| && shape[i].Mark? ==> !Space(shape[i].unit)
    ensures Scan(LexemesText(xs) + tail, shape) == Some(Strings(xs, shape))
    decreases |shape|
  {
    if xs == [] {
      SkipPad(tail, []);
      assert tail + [] == tail;
      assert LexemesText(xs) + tail == tail;
    } else {
      var rest := LexemesText(xs[1..]) + tail;
      assert LexemesText(xs) + tail == LexemeText(xs[0]) + rest;
      LexemeAtComplete(xs[0], shape[0], rest);
      ScanComplete(xs[1..], tail, shape[1..]);
    }
  }

  function Parsed(body: seq<Unit>): Option<APIError> {
    if |body| > MAX_BODY then None
    else match Scan(body, SHAPE)
      case None => None
      case Some(strings) => Reading(strings)
  }

  /** The parser accepts exactly the error texts within the body limit, and reads each one's value;
      so no text has two values. */
  lemma ParsesExactlyErrorTexts(body: seq<Unit>, value: APIError)
    ensures Parsed(body) == Some(value) <==> |body| <= MAX_BODY && Denotes(body, value)
  {
    if Parsed(body) == Some(value) {
      var xs, tail := ScanSound(body, SHAPE);
      assert TextOf(body, xs, tail, value);
    }
    if |body| <= MAX_BODY && Denotes(body, value) {
      var xs, tail :| TextOf(body, xs, tail, value);
      ScanComplete(xs, tail, SHAPE);
    }
  }

  // ----- The marshaller and the round trip -----

  function Name(name: seq<Unit>): seq<Unit> { [QUOTE] + name + [QUOTE, COLON] }

  function CodeText(e: APIError, end: seq<Unit>): seq<Unit> { Name(CODE_NAME) + (GoQuoted(e.code) + ([COMMA] + MessageText(e, end))) }

  function MessageText(e: APIError, end: seq<Unit>): seq<Unit> { Name(MESSAGE_NAME) + (GoQuoted(e.message) + end) }

  function ErrorText(e: APIError, end: seq<Unit>): seq<Unit> { [OPEN] + (Name(ERROR_NAME) + ([OPEN] + CodeText(e, end))) }

  function Marshalled(e: APIError): seq<Unit> { ErrorText(e, [CLOSE, CLOSE, 0x0a]) }

  function GoHex(u: Unit): Four {
    Four(HexDigit(u / 0x1000), HexDigit(u / 0x100 % 0x10), HexDigit(u / 0x10 % 0x10), HexDigit(u % 0x10))
  }

  /** The spelling Go gives each character. */
  function GoChar(u: Unit): Spelling {
    if ShortEscape(u).Some? then Short(ShortEscape(u).value)
    else if HexEscaped(u) then
      Hex(GoHex(u))
    else Raw(u)
  }

  function GoSpelling(text: seq<Unit>): (cs: seq<Spelling>)
    requires WellFormed(text)
  {
    if text == [] then []
    else if High(text[0]) then [RawPair(text[0], text[1])] + GoSpelling(text[2..])
    else [GoChar(text[0])] + GoSpelling(text[1..])
  }

  lemma HexDigitValue(d: int)
    requires 0 <= d < 16
    ensures HexValue(HexDigit(d)) == d
  {
  }

  lemma Nibbles(u: Unit)
    ensures u == (u / 0x1000) * 4096 + (u / 0x100 % 0x10) * 256 + (u / 0x10 % 0x10) * 16 + u % 0x10
  {
    var a, b, c := u / 0x10, u / 0x100, u / 0x1000;
    assert b == a / 0x10 && c == b / 0x10;
  }

  lemma GoHexSpells(u: Unit)
    ensures IsHex(GoHex(u)) && FourValue(GoHex(u)) == u
  {
    var a, b, c, d := u / 0x1000, u / 0x100 % 0x10, u / 0x10 % 0x10, u % 0x10;
    Nibbles(u);
    FourValueOf(a, b, c, d);
  }

  lemma FourValueOf(a: nat, b: nat, c: nat, d: nat)
    requires a < 16 && b < 16 && c < 16 && d < 16
    ensures IsHex(Four(HexDigit(a), HexDigit(b), HexDigit(c), HexDigit(d)))
    ensures FourValue(Four(HexDigit(a), HexDigit(b), HexDigit(c), HexDigit(d))) == a * 4096 + b * 256 + c * 16 + d
  {
    HexDigitValue(a);
    HexDigitValue(b);
    HexDigitValue(c);
    HexDigitValue(d);
  }

  lemma GoCharSpells(u: Unit)
    requires !High(u) && !Low(u)
    ensures Spells(GoChar(u)) && Meaning(GoChar(u)) == [u] && Printed(GoChar(u)) == GoUnit(u)
  {
    if ShortEscape(u).None? && HexEscaped(u) {
      GoHexSpells(u);
    }
  }

  lemma SpellingsCons(c: Spelling, cs: seq<Spelling>)
    requires Spells(c) && AllSpell(cs)
    ensures AllSpell([c] + cs) && MeaningAll([c] + cs) == Meaning(c) + MeaningAll(cs)
    ensures PrintedAll([c] + cs) == Printed(c) + PrintedAll(cs)
  {
    assert ([c] + cs)[1..] == cs;
  }

  lemma {:induction false} GoSpellingSpells(text: seq<Unit>)
    requires WellFormed(text)
    ensures AllSpell(GoSpelling(text)) && MeaningAll(GoSpelling(text)) == text
    ensures PrintedAll(GoSpelling(text)) == GoBody(text)
  {
    if text == [] {
    } else if High(text[0]) {
      GoSpellingSpells(text[2..]);
      GoBodyPair(text);
      SpellingsCons(RawPair(text[0], text[1]), GoSpelling(text[2..]));
      assert text == [text[0], text[1]] + text[2..];
    } else {
      GoSpellingSpells(text[1..]);
      GoCharSpells(text[0]);
      SpellingsCons(GoChar(text[0]), GoSpelling(text[1..]));
      assert text == [text[0]] + text[1..];
    }
  }

  lemma {:induction false} GoBodyBound(text: seq<Unit>)
    ensures |GoBody(text)| <= 6 * |text|
  {
    if text != [] {
      GoBodyBound(text[1..]);
    }
  }

  /** Text whose every unit is spelled by itself. */
  lemma {:induction false} PlainGoBody(text: seq<Unit>)
    requires forall i :: 0 <= i < |text| ==> 0x61 <= text[i] <= 0x7a
    ensures GoBody(text) == text && WellFormed(text)
  {
    if text != [] {
      PlainGoBody(text[1..]);
      assert GoUnit(text[0]) == [text[0]];
    }
  }

  /** What remains of the scan from the k-th lexeme on. */
  function ScanFrom(s: seq<Unit>, k: nat): Option<seq<seq<Unit>>>
    requires k <= |SHAPE|
  {
    Scan(s, SHAPE[k..])
  }

  function Prepend(text: seq<Unit>, strings: Option<seq<seq<Unit>>>): Option<seq<seq<Unit>>> {
    if strings.None? then None else Some([text] + strings.value)
  }

  /** One lexeme of the scan. */
  lemma ScanStep(s: seq<Unit>, k: nat)
    requires k < |SHAPE|
    ensures ScanFrom(s, k) ==
            if LexemeAt(s, SHAPE[k]).None? then None
            else if SHAPE[k].Mark? then ScanFrom(LexemeAt(s, SHAPE[k]).value.1, k + 1)
            else Prepend(LexemeAt(s, SHAPE[k]).value.0, ScanFrom(LexemeAt(s, SHAPE[k]).value.1, k + 1))
  {
    assert SHAPE[k..][1..] == SHAPE[k + 1..];
    if LexemeAt(s, SHAPE[k]).Some? {
      var more := ScanFrom(LexemeAt(s, SHAPE[k]).value.1, k + 1);
      if more.Some? {
        assert [] + more.value == more.value;
      }
    }
  }

  lemma ScanMark(u: Unit, rest: seq<Unit>, k: nat)
    requires k < |SHAPE| && SHAPE[k] == Mark(u) && !Space(u)
    ensures ScanFrom([u] + rest, k) == ScanFrom(rest, k + 1)
  {
    ScanStep([u] + rest, k);
    assert ([u] + rest)[1..] == rest;
  }

  lemma ScanGoQuoted(text: seq<Unit>, rest: seq<Unit>, k: nat)
    requires k < |SHAPE| && SHAPE[k] == Kind.Text && WellFormed(text) && |text| <= MAX_TEXT
    ensures ScanFrom(GoQuoted(text) + rest, k) == Prepend(text, ScanFrom(rest, k + 1))
  {
    GoSpellingSpells(text);
    ScanStep(GoQuoted(text) + rest, k);
    LexemeAtComplete(Quoted([], GoSpelling(text)), Kind.Text, rest);
    assert LexemeText(Quoted([], GoSpelling(text))) == GoQuoted(text);
  }

  lemma ScanName(name: seq<Unit>, rest: seq<Unit>, k: nat)
    requires k + 1 < |SHAPE| && SHAPE[k] == Kind.Text && SHAPE[k + 1] == Mark(COLON) && |name| <= MAX_TEXT
    requires forall i :: 0 <= i < |name| ==> 0x61 <= name[i] <= 0x7a
    ensures ScanFrom(Name(name) + rest, k) == Prepend(name, ScanFrom(rest, k + 2))
  {
    PlainGoBody(name);
    ScanMark(COLON, rest, k + 1);
    ScanGoQuoted(name, [COLON] + rest, k);
    assert Name(name) + rest == GoQuoted(name) + ([COLON] + rest);
  }

  /** A member of the error object: a name and a quoted value. */
  lemma ScanMember(name: seq<Unit>, text: seq<Unit>, rest: seq<Unit>, k: nat)
    requires k + 2 < |SHAPE| && SHAPE[k] == Kind.Text && SHAPE[k + 1] == Mark(COLON) && SHAPE[k + 2] == Kind.Text
    requires |name| <= MAX_TEXT && forall i :: 0 <= i < |name| ==> 0x61 <= name[i] <= 0x7a
    requires WellFormed(text) && |text| <= MAX_TEXT
    ensures ScanFrom(Name(name) + (GoQuoted(text) + rest), k) == Prepend(name, Prepend(text, ScanFrom(rest, k + 3)))
  {
    ScanGoQuoted(text, rest, k + 2);
    ScanName(name, GoQuoted(text) + rest, k);
  }

  lemma ScanHead(rest: seq<Unit>, k: nat)
    requires k + 3 < |SHAPE| && k == 0
    ensures ScanFrom([OPEN] + (Name(ERROR_NAME) + ([OPEN] + rest)), k) == Prepend(ERROR_NAME, ScanFrom(rest, k + 4))
  {
    hide ScanFrom, Name;
    ScanMark(OPEN, rest, k + 3);
    ScanName(ERROR_NAME, [OPEN] + rest, k + 1);
    ScanMark(OPEN, Name(ERROR_NAME) + ([OPEN] + rest), k);
  }

  lemma ScanErrorText(e: APIError, end: seq<Unit>, k: nat)
    requires WellFormed(e.code) && WellFormed(e.message) && |e.code| <= MAX_TEXT && |e.message| <= MAX_TEXT
    requires k == 0 && ScanFrom(end, k + 11) == Some([])
    ensures ScanFrom(ErrorText(e, end), k) == Some([ERROR_NAME, CODE_NAME, e.code, MESSAGE_NAME, e.message])
  {
    hide ScanFrom, GoQuoted, Name, WellFormed;
    ScanMember(MESSAGE_NAME, e.message, end, k + 8);
    var late := [MESSAGE_NAME] + ([e.message] + []);
    assert ScanFrom(MessageText(e, end), k + 8) == Some(late);
    ScanMark(COMMA, MessageText(e, end), k + 7);
    ScanMember(CODE_NAME, e.code, [COMMA] + MessageText(e, end), k + 4);
    ScanHead(CodeText(e, end), k);
    assert [ERROR_NAME] + ([CODE_NAME] + ([e.code] + late)) == [ERROR_NAME, CODE_NAME, e.code, MESSAGE_NAME, e.message];
  }

  lemma ScanEnd(end: seq<Unit>)
    requires end == [CLOSE, CLOSE, 0x0a]
    ensures ScanFrom(end, 11) == Some([])
  {
    var tail := end[2..];
    assert SHAPE[13..] == [];
    SkipPad(tail, []);
    assert tail + [] == tail;
    assert end == [CLOSE] + ([CLOSE] + tail);
    ScanMark(CLOSE, tail, 12);
    ScanMark(CLOSE, [CLOSE] + tail, 11);
  }

  /** Marshalling then parsing gives back every in-bound error. */
  lemma ErrorRoundTrip(e: APIError)
    requires WellFormed(e.code) && WellFormed(e.message) && |e.code| <= MAX_TEXT && |e.message| <= MAX_TEXT
    ensures Parsed(Marshalled(e)) == Some(e)
  {
    var end: seq<Unit> := [CLOSE, CLOSE, 0x0a];
    ScanEnd(end);
    ScanErrorText(e, end, 0);
    assert SHAPE[0..] == SHAPE;
    GoBodyBound(e.code);
    GoBodyBound(e.message);
  }

  lemma ParsesExactly(body: seq<Unit>)
    ensures forall value :: Parsed(body) == Some(value) <==> |body| <= MAX_BODY && Denotes(body, value)
    ensures |body| > MAX_BODY ==> Parsed(body) == None
  {
    hide Denotes, Scan, Reading;
    forall value ensures Parsed(body) == Some(value) <==> |body| <= MAX_BODY && Denotes(body, value) {
      ParsesExactlyErrorTexts(body, value);
    }
  }

  // ----- The parser as the browser runs it -----

  /** The parser's answer when it has read `seen` and stands before the k-th lexeme of `s`. */
  function ParsedFrom(seen: seq<seq<Unit>>, s: seq<Unit>, k: nat): Option<APIError>
    requires k <= |SHAPE|
  {
    match ScanFrom(s, k)
    case None => None
    case Some(more) => Reading(seen + more)
  }

  lemma ParsedStep(seen: seq<seq<Unit>>, s: seq<Unit>, k: nat)
    requires k < |SHAPE|
    ensures ParsedFrom(seen, s, k) ==
            if LexemeAt(s, SHAPE[k]).None? then None
            else if SHAPE[k].Mark? then ParsedFrom(seen, LexemeAt(s, SHAPE[k]).value.1, k + 1)
            else ParsedFrom(seen + [LexemeAt(s, SHAPE[k]).value.0], LexemeAt(s, SHAPE[k]).value.1, k + 1)
  {
    ScanStep(s, k);
    if LexemeAt(s, SHAPE[k]).Some? && SHAPE[k].Text? {
      var x := LexemeAt(s, SHAPE[k]).value;
      var more := ScanFrom(x.1, k + 1);
      if more.Some? {
        assert seen + ([x.0] + more.value) == seen + [x.0] + more.value;
      }
    }
  }

  function Joined(parts: seq<Unit>, more: Option<(seq<Unit>, seq<Unit>)>): Option<(seq<Unit>, seq<Unit>)> {
    if more.None? then None else Some((parts + more.value.0, more.value.1))
  }

  class Parser {
    const body: seq<Unit>
    var index: nat
    var depth: nat
    var tokens: nat
    var properties: nat

    constructor (body: seq<Unit>)
      ensures this.body == body && index == 0 && depth == 0 && tokens == 0 && properties == 0
    {
      this.body := body;
      index, depth, tokens, properties := 0, 0, 0, 0;
    }

    function Rest(): seq<Unit>
      requires index <= |body|
      reads this
    {
      body[index..]
    }

    function Peek(u: Unit): bool
      reads this
    {
      index < |body| && body[index] == u
    }

    method SkipWhitespace()
      requires index <= |body|
      modifies this`index
      ensures index <= |body| && Rest() == Skip(old(Rest())) == Skip(Rest())
    {
      ghost var start := Rest();
      while index < |body| && Space(body[index])
        invariant index <= |body| && Skip(Rest()) == Skip(start)
      {
        assert Rest()[1..] == body[index + 1..];
        index := index + 1;
      }
    }

    method CountToken() returns (ok: bool)
      modifies this`tokens
      ensures tokens == old(tokens) + 1 && ok == (tokens <= MAX_TOKENS)
    {
      tokens := tokens + 1;
      ok := tokens <= MAX_TOKENS;
    }

    /** Accepts one mark after padding. */
    method Expect(mark: Unit) returns (ok: bool)
      requires index <= |body|
      modifies this`index
      ensures index <= |body|
      ensures ok == LexemeAt(old(Rest()), Mark(mark)).Some?
      ensures ok ==> Rest() == LexemeAt(old(Rest()), Mark(mark)).value.1
    {
      SkipWhitespace();
      ok := Peek(mark);
      if ok {
        index := index + 1;
      }
    }

    method HexUnit(at: nat) returns (r: Option<Unit>)
      ensures at + 4 > |body| ==> r == None
      ensures at + 4 <= |body| ==>
                r == if HexAt(body[at..]).None? then None else Some(FourValue(HexAt(body[at..]).value))
    {
      if at + 4 > |body| {
        return None;
      }
      var value := 0;
      var offset := 0;
      ghost var s := body[at..];
      while offset < 4
        invariant offset <= 4
        invariant forall i :: 0 <= i < offset ==> HexValue(s[i]) >= 0
        invariant value == if offset == 0 then 0 else if offset == 1 then HexValue(s[0])
                           else if offset == 2 then HexValue(s[0]) * 16 + HexValue(s[1])
                           else if offset == 3 then HexValue(s[0]) * 256 + HexValue(s[1]) * 16 + HexValue(s[2])
                           else HexValue(s[0]) * 4096 + HexValue(s[1]) * 256 + HexValue(s[2]) * 16 + HexValue(s[3])
      {
        var digit := HexValue(body[at + offset]);
        assert body[at + offset] == s[offset];
        if digit < 0 {
          return None;
        }
        value := value * 16 + digit;
        offset := offset + 1;
      }
      assert HexAt(s).Some?;
      return Some(value);
    }

    /** What follows a backslash: the units it stands for. */
    method ReadEscape() returns (r: Option<seq<Unit>>)
      requires 0 < index <= |body| && body[index - 1] == BACKSLASH
      modifies this`index
      ensures r.Some? <==> EscapeAt(old(body[index - 1..])).Some?
      ensures r.Some? ==>
                && var c := EscapeAt(old(body[index - 1..])).value;
                && Spells(c) && r.value == Meaning(c)
                && index == old(index) - 1 + |Printed(c)| <= |body|
    {
      ghost var s := body[index - 1..];
      if index >= |body| {
        return None;
      }
      var escape := body[index];
      index := index + 1;
      assert s[1] == escape;
      if ShortMeaning(escape).Some? {
        return Some([ShortMeaning(escape).value]);
      }
      if escape != LETTER_U {
        return None;
      }
      assert s[2..] == body[index..];
      var unit := HexUnit(index);
      if unit.None? {
        return None;
      }
      index := index + 4;
      if High(unit.value) {
        if index + 1 >= |body| || body[index] != BACKSLASH || body[index + 1] != LETTER_U {
          return None;
        }
        assert s[8..] == body[index + 2..];
        var low := HexUnit(index + 2);
        if low.None? || !Low(low.value) {
          return None;
        }
        index := index + 6;
        return Some([unit.value, low.value]);
      }
      if Low(unit.value) {
        return None;
      }
      return Some([unit.value]);
    }

    /** One character inside a string: the units it stands for. */
    method ReadCharacter() returns (r: Option<seq<Unit>>)
      requires index < |body| && body[index] != QUOTE
      modifies this`index
      ensures r.Some? <==> SpellingAt(old(Rest())).Some?
      ensures r.Some? ==>
                && var c := SpellingAt(old(Rest())).value;
                && Spells(c) && r.value == Meaning(c)
                && index == old(index) + |Printed(c)| <= |body|
    {
      ghost var s := Rest();
      var unit := body[index];
      index := index + 1;
      if unit < 0x20 {
        return None;
      }
      if unit == BACKSLASH {
        r := ReadEscape();
      } else if High(unit) {
        if index >= |body| || !Low(body[index]) {
          return None;
        }
        index := index + 1;
        return Some([unit, body[index - 1]]);
      } else if Low(unit) {
        return None;
      } else {
        return Some([unit]);
      }
    }

    /** The characters of a string up to its closing quote. */
    method ReadCharacters() returns (r: Option<seq<Unit>>)
      requires index <= |body|
      modifies this`index
      ensures r.Some? <==> CharsAt(old(Rest()), MAX_TEXT).Some?
      ensures r.Some? ==> index <= |body| && r.value == CharsAt(old(Rest()), MAX_TEXT).value.0 && Rest() == CharsAt(old(Rest()), MAX_TEXT).value.1
    {
      hide CharsAt, SpellingAt, Spells, Meaning, Printed;
      ghost var start := Rest();
      var parts: seq<Unit> := [];
      var units := 0;
      JoinedNothing(CharsAt(start, MAX_TEXT));
      while index < |body|
        invariant index <= |body| && units == |parts| <= MAX_TEXT
        invariant CharsAt(start, MAX_TEXT) == Joined(parts, CharsAt(Rest(), MAX_TEXT - units))
      {
        ghost var s := Rest();
        CharsEnd(s, MAX_TEXT - units);
        if body[index] == QUOTE {
          index := index + 1;
          assert s[1..] == Rest() && parts + [] == parts;
          return Some(parts);
        }
        var meaning := ReadCharacter();
        CharsStep(s, parts, MAX_TEXT - units);
        if meaning.None? {
          return None;
        }
        assert s[|Printed(SpellingAt(s).value)|..] == Rest();
        if units + |meaning.value| > MAX_TEXT {
          return None;
        }
        parts := parts + meaning.value;
        units := units + |meaning.value|;
      }
      CharsEnd(Rest(), MAX_TEXT - units);
      return None;
    }

    method ReadString() returns (r: Option<seq<Unit>>)
      requires index <= |body|
      modifies this`index, this`tokens
      ensures tokens == old(tokens) + 1
      ensures r.Some? <==> tokens <= MAX_TOKENS && LexemeAt(old(Rest()), Kind.Text).Some?
      ensures r.Some? ==>
                && index <= |body|
                && r.value == LexemeAt(old(Rest()), Kind.Text).value.0
                && Rest() == LexemeAt(old(Rest()), Kind.Text).value.1
    {
      SkipWhitespace();
      var ok := CountToken();
      if !ok || !Peek(QUOTE) {
        return None;
      }
      ghost var t := Rest();
      index := index + 1;
      assert Rest() == t[1..];
      r := ReadCharacters();
    }

    method BeginObject() returns (ok: bool)
      requires index <= |body|
      modifies this`index, this`tokens, this`depth
      ensures tokens == old(tokens) + 1 && index <= |body|
      ensures ok <==> tokens <= MAX_TOKENS && old(depth) < MAX_DEPTH && LexemeAt(old(Rest()), Mark(OPEN)).Some?
      ensures ok ==> depth == old(depth) + 1 && Rest() == LexemeAt(old(Rest()), Mark(OPEN)).value.1
    {
      SkipWhitespace();
      ok := CountToken();
      if ok {
        ok := Peek(OPEN) && depth < MAX_DEPTH;
        if ok {
          index := index + 1;
          depth := depth + 1;
        }
      }
    }

    method EndObject() returns (ok: bool)
      requires index <= |body|
      modifies this`index, this`tokens, this`depth
      ensures tokens == old(tokens) + 1 && index <= |body|
      ensures ok <==> tokens <= MAX_TOKENS && old(depth) > 0 && LexemeAt(old(Rest()), Mark(CLOSE)).Some?
      ensures ok ==> depth == old(depth) - 1 && Rest() == LexemeAt(old(Rest()), Mark(CLOSE)).value.1
    {
      SkipWhitespace();
      ok := CountToken();
      if ok {
        ok := Peek(CLOSE) && depth > 0;
        if ok {
          index := index + 1;
          depth := depth - 1;
        }
      }
    }

    /** A property name not seen before, and its colon. */
    method ReadName(seen: set<seq<Unit>>) returns (r: Option<seq<Unit>>)
      requires index <= |body|
      modifies this`index, this`tokens, this`properties
      ensures tokens == old(tokens) + 1
      ensures r.Some? ==> properties == old(properties) + 1
      ensures r.Some? <==>
                && tokens <= MAX_TOKENS && old(properties) < MAX_PROPERTIES
                && LexemeAt(old(Rest()), Kind.Text).Some?
                && LexemeAt(old(Rest()), Kind.Text).value.0 !in seen
                && LexemeAt(LexemeAt(old(Rest()), Kind.Text).value.1, Mark(COLON)).Some?
      ensures r.Some? ==>
                && index <= |body|
                && r.value == LexemeAt(old(Rest()), Kind.Text).value.0
                && Rest() == LexemeAt(LexemeAt(old(Rest()), Kind.Text).value.1, Mark(COLON)).value.1
    {
      r := ReadString();
      if r.None? {
        return;
      }
      properties := properties + 1;
      if properties > MAX_PROPERTIES || r.value in seen {
        return None;
      }
      var ok := Expect(COLON);
      if !ok {
        return None;
      }
    }

    /** One member of the error object. It fails only when the whole text is no error text, or when
        the object already has both members. */
    method ReadField(seen: set<seq<Unit>>, ghost strings: seq<seq<Unit>>, ghost k: nat) returns (r: Option<(seq<Unit>, seq<Unit>)>)
      requires index <= |body| && 1 <= properties <= MAX_PROPERTIES && tokens == 1 + 2 * properties
      requires properties == 1 ==> k == 4 && |strings| == 1 && seen == {}
      requires properties == 2 ==> k == 8 && |strings| == 3 && seen == {strings[1]}
      modifies this`index, this`tokens, this`properties
      ensures old(properties) == MAX_PROPERTIES ==> r == None
      ensures old(properties) < MAX_PROPERTIES && r.None? ==> ParsedFrom(strings, old(Rest()), k) == None
      ensures r.Some? ==>
                && index <= |body| && tokens == old(tokens) + 2 && properties == old(properties) + 1
                && GoodName(strings, r.value.0)
                && ParsedFrom(strings, old(Rest()), k) == ParsedFrom(strings + [r.value.0, r.value.1], Rest(), k + 3)
    {
      if properties < MAX_PROPERTIES {
        FieldAt(strings, Rest(), k);
      }
      var name := ReadName(seen);
      if name.None? {
        return None;
      }
      if name.value != CODE_NAME && name.value != MESSAGE_NAME {
        return None;
      }
      var text := ReadString();
      if text.None? {
        return None;
      }
      return Some((name.value, text.value));
    }

    /** The object under `error`. It reads all lexemes but the last brace, and fails only when the whole
        text is no error text. */
    method ReadErrorObject() returns (r: Option<APIError>, ghost strings: seq<seq<Unit>>)
      requires index <= |body| && depth == 1 && tokens == 2 && properties == 1
      modifies this`index, this`tokens, this`properties, this`depth
      ensures r.None? ==> ParsedFrom([ERROR_NAME], old(Rest()), 3) == None
      ensures r.Some? ==>
                && index <= |body| && depth == 1 && tokens == 8 && properties == 3
                && Reading(strings) == r
                && ParsedFrom([ERROR_NAME], old(Rest()), 3) == ParsedFrom(strings, Rest(), 12)
    {
      hide ParsedFrom, LexemeAt, Skip, Reading, GoodName;
      strings := [ERROR_NAME];
      ParsedStep(strings, Rest(), 3);
      ghost var target := ParsedFrom(strings, Rest(), 3);
      var ok := BeginObject();
      if !ok {
        return None, strings;
      }
      var seen: set<seq<Unit>> := {};
      var code: Option<seq<Unit>> := None;
      var message: Option<seq<Unit>> := None;
      ParsedSkips(strings, Rest(), 4);
      SkipWhitespace();
      var more := !Peek(CLOSE);
      ParsedStep(strings, Rest(), 4);
      if Rest() != [] {
        NoLexeme(Rest());
      }
      while more
        invariant index <= |body| && depth == 2 && 1 <= properties <= 3 && tokens == 1 + 2 * properties
        invariant |strings| == 2 * properties - 1 && Members(strings, seen, code, message)
        invariant more && properties <= 2 ==> target == ParsedFrom(strings, Rest(), 4 * properties)
        invariant more && properties == 3 ==> target == None
        invariant !more && properties <= 2 ==> target == None
        invariant !more && properties == 3 ==> target == ParsedFrom(strings, Rest(), 11)
        decreases MAX_PROPERTIES - properties, more
      {
        var field := ReadField(seen, strings, 4 * properties);
        if field.None? {
          return None, strings;
        }
        var (name, text) := field.value;
        MembersGrow(strings, seen, code, message, name, text);
        seen := seen + {name};
        if name == CODE_NAME {
          code := Some(text);
        } else {
          message := Some(text);
        }
        strings := strings + [name, text];
        ghost var k := 4 * properties - 1;
        ParsedSkips(strings, Rest(), k);
        SkipWhitespace();
        CommaAt(strings, Rest(), k);
        more := Peek(COMMA);
        if more {
          index := index + 1;
        }
      }
      ParsedStep(strings, Rest(), if properties == 3 then 11 else 7);
      ok := EndObject();
      if !ok || code.None? || message.None? {
        return None, strings;
      }
      return Some(APIError(code.value, message.value)), strings;
    }

    /** Accepts exactly the error texts, always with ten tokens, three properties and balanced depth:
        the counters never turn a grammatical text away. */
    method Parse() returns (r: Option<APIError>)
      requires index == 0 && depth == 0 && tokens == 0 && properties == 0
      modifies this
      ensures r == Parsed(body)
      ensures forall value :: r == Some(value) <==> |body| <= MAX_BODY && Denotes(body, value)
      ensures r.Some? ==> index == |body| && tokens == MAX_TOKENS && properties == MAX_PROPERTIES && depth == 0
    {
      hide Denotes, Parsed, ParsedFrom, LexemeAt, Skip, Reading;
      ParsesExactly(body);
      if |body| > MAX_BODY {
        return None;
      }
      ParsedWhole(body);
      assert Rest() == body;
      ParsedStep([], Rest(), 0);
      var ok := BeginObject();
      if !ok {
        return None;
      }
      var rootNames: set<seq<Unit>> := {};
      var parsed: Option<APIError> := None;
      ghost var strings: seq<seq<Unit>> := [];
      ParsedSkips([], Rest(), 1);
      SkipWhitespace();
      ParsedStep([], Rest(), 1);
      if Rest() != [] {
        NoLexeme(Rest());
      }
      var more := !Peek(CLOSE);
      while more
        invariant index <= |body| && depth == 1
        invariant parsed.None? ==> tokens == 1 && properties == 0 && rootNames == {}
        invariant parsed.None? ==> Parsed(body) == if more then ParsedFrom([], Rest(), 1) else None
        invariant parsed.Some? ==> tokens == 8 && properties == 3
        invariant parsed.Some? && more ==> Parsed(body) == None
        invariant parsed.Some? && !more ==> Parsed(body) == ParsedFrom(strings, Rest(), 12) && Reading(strings) == parsed
        decreases parsed.None?, more
      {
        if parsed.None? {
          HeadAt(Rest());
        }
        var name := ReadName(rootNames);
        if name.None? || name.value != ERROR_NAME {
          return None;
        }
        rootNames := rootNames + {name.value};
        parsed, strings := ReadErrorObject();
        if parsed.None? {
          return None;
        }
        ParsedSkips(strings, Rest(), 12);
        SkipWhitespace();
        ParsedStep(strings, Rest(), 12);
        if Rest() != [] {
          NoLexeme(Rest());
        }
        more := Peek(COMMA);
        if more {
          index := index + 1;
        }
      }
      if parsed.Some? {
        EndAt(strings, Rest());
      }
      ok := EndObject();
      if !ok {
        return None;
      }
      ghost var tail := Rest();
      SkipWhitespace();
      ok := CountToken();
      if !ok || index != |body| || parsed.None? || depth != 0 {
        return None;
      }
      return parsed;
    }
  }

  lemma HeadAt(s: seq<Unit>)
    ensures LexemeAt(s, Kind.Text).None? ==> ParsedFrom([], s, 1) == None
    ensures LexemeAt(s, Kind.Text).Some? ==>
              && var name := LexemeAt(s, Kind.Text).value;
              && var colon := LexemeAt(name.1, Mark(COLON));
              && (name.0 != ERROR_NAME || colon.None? ==> ParsedFrom([], s, 1) == None)
              && (colon.Some? && name.0 == ERROR_NAME ==> ParsedFrom([], s, 1) == ParsedFrom([ERROR_NAME], colon.value.1, 3))
  {
    ParsedStep([], s, 1);
    if LexemeAt(s, Kind.Text).Some? {
      var name := LexemeAt(s, Kind.Text).value;
      assert [] + [name.0] == [name.0];
      ParsedStep([name.0], name.1, 2);
      if name.0 != ERROR_NAME && ScanFrom(name.1, 2).Some? {
        assert ([name.0] + ScanFrom(name.1, 2).value)[0] == name.0;
      }
    }
  }

  lemma EndAt(strings: seq<seq<Unit>>, s: seq<Unit>)
    ensures LexemeAt(s, Mark(CLOSE)).None? ==> ParsedFrom(strings, s, 12) == None
    ensures LexemeAt(s, Mark(CLOSE)).Some? ==>
              ParsedFrom(strings, s, 12) == if Skip(LexemeAt(s, Mark(CLOSE)).value.1) == [] then Reading(strings) else None
  {
    ParsedStep(strings, s, 12);
    if LexemeAt(s, Mark(CLOSE)).Some? {
      var rest := LexemeAt(s, Mark(CLOSE)).value.1;
      assert SHAPE[13..] == [];
      assert strings + [] == strings;
    }
  }

  lemma ParsedWhole(body: seq<Unit>)
    requires |body| <= MAX_BODY
    ensures Parsed(body) == ParsedFrom([], body, 0)
  {
    assert SHAPE[0..] == SHAPE;
    if Scan(body, SHAPE).Some? {
      assert [] + Scan(body, SHAPE).value == Scan(body, SHAPE).value;
    }
  }

  /** After the first member a comma must follow, and after the second a brace. */
  lemma CommaAt(strings: seq<seq<Unit>>, s: seq<Unit>, k: nat)
    requires k == 7 || k == 11
    requires Skip(s) == s
    ensures k == 7 && (s == [] || s[0] != COMMA) ==> ParsedFrom(strings, s, k) == None
    ensures k == 7 && s != [] && s[0] == COMMA ==> ParsedFrom(strings, s, k) == ParsedFrom(strings, s[1..], 8)
    ensures k == 11 && s != [] && s[0] == COMMA ==> ParsedFrom(strings, s, k) == None
  {
    ParsedStep(strings, s, k);
  }

  /** The parser's variables agree with the members read so far. */
  predicate Members(strings: seq<seq<Unit>>, seen: set<seq<Unit>>, code: Option<seq<Unit>>, message: Option<seq<Unit>>) {
    && (|strings| == 1 || |strings| == 3 || |strings| == 5)
    && strings[0] == ERROR_NAME
    && (|strings| == 1 ==> seen == {} && code == None && message == None)
    && (|strings| == 3 ==>
          && seen == {strings[1]}
          && ((strings[1] == CODE_NAME && code == Some(strings[2]) && message == None)
              || (strings[1] == MESSAGE_NAME && message == Some(strings[2]) && code == None)))
    && (|strings| == 5 ==> code.Some? && message.Some? && Reading(strings) == Some(APIError(code.value, message.value)))
  }

  lemma MembersGrow(strings: seq<seq<Unit>>, seen: set<seq<Unit>>, code: Option<seq<Unit>>, message: Option<seq<Unit>>,
                    name: seq<Unit>, text: seq<Unit>)
    requires Members(strings, seen, code, message) && |strings| < 5 && GoodName(strings, name)
    ensures Members(strings + [name, text], seen + {name},
                    if name == CODE_NAME then Some(text) else code, if name == CODE_NAME then message else Some(text))
  {
    assert CODE_NAME != MESSAGE_NAME;
  }

  lemma CharsEnd(s: seq<Unit>, room: nat)
    ensures s == [] ==> CharsAt(s, room) == None
    ensures s != [] && s[0] == QUOTE ==> CharsAt(s, room) == Some(([], s[1..]))
  {
  }

  /** At a brace or a comma no string begins, and at a comma no object ends. */
  lemma NoLexeme(s: seq<Unit>)
    requires Skip(s) == s && s != []
    ensures s[0] == CLOSE ==> LexemeAt(s, Kind.Text) == None
    ensures s[0] == COMMA ==> LexemeAt(s, Mark(CLOSE)) == None
  {
  }

  lemma JoinedNothing(more: Option<(seq<Unit>, seq<Unit>)>)
    ensures Joined([], more) == more
  {
    if more.Some? {
      assert [] + more.value.0 == more.value.0;
    }
  }

  lemma CharsStep(s: seq<Unit>, parts: seq<Unit>, room: nat)
    requires s != [] && s[0] != QUOTE
    ensures SpellingAt(s).None? ==> CharsAt(s, room).None?
    ensures SpellingAt(s).Some? ==>
              && var c := SpellingAt(s).value;
              && Spells(c) && |Printed(c)| <= |s|
              && Joined(parts, CharsAt(s, room)) ==
                 if |Meaning(c)| > room then None
                 else Joined(parts + Meaning(c), CharsAt(s[|Printed(c)|..], room - |Meaning(c)|))
  {
    if SpellingAt(s).Some? {
      SpellingAtSound(s);
      var c := SpellingAt(s).value;
      if |Meaning(c)| <= room {
        var more := CharsAt(s[|Printed(c)|..], room - |Meaning(c)|);
        if more.Some? {
          assert parts + (Meaning(c) + more.value.0) == parts + Meaning(c) + more.value.0;
        }
      }
    }
  }

  lemma ParsedSkips(seen: seq<seq<Unit>>, s: seq<Unit>, k: nat)
    requires k < |SHAPE|
    ensures ParsedFrom(seen, Skip(s), k) == ParsedFrom(seen, s, k)
  {
    SkipIsPad(s);
    SkipPad([], Skip(s));
    assert [] + Skip(s) == Skip(s);
    ParsedStep(seen, s, k);
    ParsedStep(seen, Skip(s), k);
  }

  predicate GoodName(strings: seq<seq<Unit>>, name: seq<Unit>) {
    (name == CODE_NAME || name == MESSAGE_NAME) && (|strings| == 3 ==> name != strings[1])
  }

  /** A wrong or repeated member name already decides against the text. */
  lemma BadName(strings: seq<seq<Unit>>, name: seq<Unit>, s: seq<Unit>, k: nat)
    requires k <= |SHAPE| && (|strings| == 1 || |strings| == 3)
    requires !GoodName(strings, name)
    ensures ParsedFrom(strings + [name], s, k) == None
  {
    if ScanFrom(s, k).Some? {
      var all := strings + [name] + ScanFrom(s, k).value;
      assert all[|strings|] == name;
      if |strings| == 3 {
        assert all[1] == strings[1];
      }
      assert CODE_NAME != MESSAGE_NAME;
    }
  }

  lemma FieldAt(strings: seq<seq<Unit>>, s: seq<Unit>, k: nat)
    requires (k == 4 && |strings| == 1) || (k == 8 && |strings| == 3)
    ensures LexemeAt(s, Kind.Text).None? ==> ParsedFrom(strings, s, k) == None
    ensures LexemeAt(s, Kind.Text).Some? ==>
              && var name := LexemeAt(s, Kind.Text).value;
              && var colon := LexemeAt(name.1, Mark(COLON));
              && (!GoodName(strings, name.0) || colon.None? ==> ParsedFrom(strings, s, k) == None)
              && (colon.Some? ==>
                    && var text := LexemeAt(colon.value.1, Kind.Text);
                    && (text.None? ==> ParsedFrom(strings, s, k) == None)
                    && (text.Some? ==>
                          ParsedFrom(strings, s, k)
                          == ParsedFrom(strings + [name.0, text.value.0], text.value.1, k + 3)))
  {
    ParsedStep(strings, s, k);
    if LexemeAt(s, Kind.Text).Some? {
      var name := LexemeAt(s, Kind.Text).value;
      var more := strings + [name.0];
      ParsedStep(more, name.1, k + 1);
      if !GoodName(strings, name.0) {
        BadName(strings, name.0, name.1, k + 1);
      }
      if LexemeAt(name.1, Mark(COLON)).Some? {
        var rest := LexemeAt(name.1, Mark(COLON)).value.1;
        ParsedStep(more, rest, k + 2);
        if LexemeAt(rest, Kind.Text).Some? {
          AppendTwo(strings, name.0, LexemeAt(rest, Kind.Text).value.0);
        }
      }
    }
  }

  lemma AppendTwo<T>(s: seq<T>, x: T, y: T)
    ensures s + [x] + [y] == s + [x, y]
  {
  }
}
