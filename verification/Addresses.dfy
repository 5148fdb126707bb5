/** IP address text: the parsers and printers of the browser (frontend/common-prefix.js:14-107,
    frontend/topology-model.js:94-174). */
module Addresses {
  import opened Text

  // ----- Splitting and joining text -----

  /** JavaScript's split: left to right, without overlap. */
  function Split(text: string, sep: string): (r: seq<string>)
    requires sep != ""
    ensures |r| > 0
  {
    if |text| < |sep| then [text]
    else if text[..|sep|] == sep then [""] + Split(text[|sep|..], sep)
    else
      var rest := Split(text[1..], sep);
      [[text[0]] + rest[0]] + rest[1..]
  }

  function Join(parts: seq<string>, sep: string): string {
    if parts == [] then "" else if |parts| == 1 then parts[0] else parts[0] + sep + Join(parts[1..], sep)
  }

  predicate Starts(text: string, at: nat, sep: string) {
    at + |sep| <= |text| && text[at..at + |sep|] == sep
  }

  /** No separator starts inside `text`, even with one right behind it. */
  ghost predicate Clear(text: string, sep: string) {
    forall i :: 0 <= i < |text| ==> !Starts(text + sep, i, sep)
  }

  lemma ClearTail(text: string, sep: string)
    requires text != "" && Clear(text, sep)
    ensures Clear(text[1..], sep)
  {
    var tail := text[1..];
    forall i | 0 <= i < |tail| ensures !Starts(tail + sep, i, sep) {
      assert !Starts(text + sep, i + 1, sep);
      assert (tail + sep)[i..i + |sep|] == (text + sep)[i + 1..i + 1 + |sep|];
    }
  }

  lemma {:induction false} SplitAt(text: string, sep: string, rest: string)
    requires sep != "" && Clear(text, sep)
    ensures Split(text + sep + rest, sep) == [text] + Split(rest, sep)
  {
    var whole := text + sep + rest;
    if text == "" {
      assert whole == sep + rest && whole[..|sep|] == sep && whole[|sep|..] == rest;
    } else {
      assert !Starts(text + sep, 0, sep) && whole[..|sep|] == (text + sep)[0..|sep|];
      ClearTail(text, sep);
      SplitAt(text[1..], sep, rest);
      assert whole[1..] == text[1..] + sep + rest;
      assert text == [text[0]] + text[1..];
    }
  }

  lemma {:induction false} SplitWhole(text: string, sep: string)
    requires sep != "" && Clear(text, sep)
    ensures Split(text, sep) == [text]
  {
    if |text| >= |sep| {
      assert !Starts(text + sep, 0, sep) && text[..|sep|] == (text + sep)[0..|sep|];
      ClearTail(text, sep);
      SplitWhole(text[1..], sep);
      assert text == [text[0]] + text[1..];
    }
  }

  lemma {:induction false} SplitJoin(parts: seq<string>, sep: string)
    requires sep != "" && parts != [] && forall i :: 0 <= i < |parts| ==> Clear(parts[i], sep)
    ensures Split(Join(parts, sep), sep) == parts
  {
    if |parts| == 1 {
      SplitWhole(parts[0], sep);
    } else {
      SplitJoin(parts[1..], sep);
      SplitAt(parts[0], sep, Join(parts[1..], sep));
      assert parts == [parts[0]] + parts[1..];
    }
  }

  lemma {:induction false} JoinSplit(text: string, sep: string)
    requires sep != ""
    ensures Join(Split(text, sep), sep) == text
  {
    if |text| < |sep| {
    } else if text[..|sep|] == sep {
      JoinSplit(text[|sep|..], sep);
      assert Split(text, sep)[1..] == Split(text[|sep|..], sep);
      assert text == sep + text[|sep|..];
    } else {
      var rest := Split(text[1..], sep);
      JoinSplit(text[1..], sep);
      assert Split(text, sep)[1..] == rest[1..];
      assert text == [text[0]] + text[1..];
      if |rest| > 1 {
        assert [text[0]] + rest[0] + sep + Join(rest[1..], sep) == [text[0]] + (rest[0] + sep + Join(rest[1..], sep));
      }
    }
  }

  predicate Lacks(text: string, c: char) { c !in text }

  lemma LacksClear(text: string, c: char, sep: string)
    requires Lacks(text, c) && sep != "" && sep[0] == c
    ensures Clear(text, sep)
  {
    forall i | 0 <= i < |text| ensures !Starts(text + sep, i, sep) {
      assert (text + sep)[i..i + |sep|][0] == text[i];
    }
  }

  lemma {:induction false} JoinLacks(parts: seq<string>, sep: string, c: char)
    requires Lacks(sep, c) && forall i :: 0 <= i < |parts| ==> Lacks(parts[i], c)
    ensures Lacks(Join(parts, sep), c)
  {
    if |parts| > 1 {
      JoinLacks(parts[1..], sep, c);
    }
  }

  // ----- Numbers as lists of bytes or of 16-bit words -----

  function Base(wide: bool): nat { if wide then 65536 else 256 }

  ghost predicate Below(digits: seq<nat>, wide: bool) { forall i :: 0 <= i < |digits| ==> digits[i] < Base(wide) }

  function Quotient(value: nat, wide: bool): nat { if wide then value / 65536 else value / 256 }

  function Remainder(value: nat, wide: bool): nat { if wide then value % 65536 else value % 256 }

  function Push(value: nat, digit: nat, wide: bool): nat { if wide then value * 65536 + digit else value * 256 + digit }

  function Limit(n: nat, wide: bool): nat { if n == 0 then 1 else Push(Limit(n - 1, wide), 0, wide) }

  function Number(digits: seq<nat>, wide: bool): nat {
    if digits == [] then 0 else Push(Number(digits[..|digits| - 1], wide), digits[|digits| - 1], wide)
  }

  function Digits(value: nat, n: nat, wide: bool): (r: seq<nat>)
    ensures |r| == n && Below(r, wide)
  {
    if n == 0 then [] else Digits(Quotient(value, wide), n - 1, wide) + [Remainder(value, wide)]
  }

  lemma {:induction false} NumberOfDigits(value: nat, n: nat, wide: bool)
    requires value < Limit(n, wide)
    ensures Number(Digits(value, n, wide), wide) == value
  {
    if n > 0 {
      NumberOfDigits(Quotient(value, wide), n - 1, wide);
      assert Digits(value, n, wide)[..n - 1] == Digits(Quotient(value, wide), n - 1, wide);
    }
  }

  lemma {:induction false} DigitsOfNumber(digits: seq<nat>, wide: bool)
    requires Below(digits, wide)
    ensures Digits(Number(digits, wide), |digits|, wide) == digits
    ensures Number(digits, wide) < Limit(|digits|, wide)
  {
    if digits != [] {
      DigitsOfNumber(digits[..|digits| - 1], wide);
      assert digits == digits[..|digits| - 1] + [digits[|digits| - 1]];
    }
  }

  /** Shifting right by `count` digits. */
  function Shift(value: nat, count: nat, wide: bool): nat {
    if count == 0 then value else Shift(Quotient(value, wide), count - 1, wide)
  }

  lemma {:induction false} DigitByShift(value: nat, n: nat, k: nat, wide: bool)
    requires k < n
    ensures Digits(value, n, wide)[k] == Remainder(Shift(value, n - 1 - k, wide), wide)
  {
    if k < n - 1 {
      DigitByShift(Quotient(value, wide), n - 1, k, wide);
    }
  }

  // ----- One field of an address -----

  predicate IsDigit(c: char) { '0' <= c <= '9' }

  function HexOf(c: char): int {
    if '0' <= c <= '9' then c as int - 48
    else if 'a' <= c <= 'f' then c as int - 87
    else if 'A' <= c <= 'F' then c as int - 55
    else -1
  }

  predicate AllHex(part: string) { forall i :: 0 <= i < |part| ==> HexOf(part[i]) >= 0 }

  function HexNumber(part: string): nat
    requires AllHex(part)
  {
    if part == "" then 0 else HexNumber(part[..|part| - 1]) * 16 + HexOf(part[|part| - 1])
  }

  /** Number.prototype.toString(16). */
  function HexText(w: nat): (r: string)
    ensures r != "" && AllHex(r)
  {
    if w < 16 then ["0123456789abcdef"[w]] else HexText(w / 16) + ["0123456789abcdef"[w % 16]]
  }

  lemma {:induction false} HexTextReads(w: nat)
    ensures HexNumber(HexText(w)) == w
    ensures w < 16 ==> |HexText(w)| == 1
    ensures w < 256 ==> |HexText(w)| <= 2
    ensures w < 4096 ==> |HexText(w)| <= 3
    ensures w < 65536 ==> |HexText(w)| <= 4
  {
    if w >= 16 {
      HexTextReads(w / 16);
      assert HexText(w)[..|HexText(w)| - 1] == HexText(w / 16);
    }
  }

  lemma {:induction false} HexBelow(part: string)
    requires AllHex(part)
    ensures |part| == 0 ==> HexNumber(part) < 1
    ensures |part| == 1 ==> HexNumber(part) < 16
    ensures |part| == 2 ==> HexNumber(part) < 256
    ensures |part| == 3 ==> HexNumber(part) < 4096
    ensures |part| == 4 ==> HexNumber(part) < 65536
  {
    if part != "" {
      HexBelow(part[..|part| - 1]);
    }
  }

  /** One 16-bit field: one to four hexadecimal digits. */
  function WordOf(part: string): (r: Option<nat>)
    ensures r.Some? ==> r.value < 65536
  {
    if 1 <= |part| <= 4 && AllHex(part) then
      HexBelow(part);
      Some(HexNumber(part))
    else None
  }

  function DigitText(d: nat): char
    requires d < 10
  {
    (48 + d) as char
  }

  function ByteText(b: nat): string
    requires b < 256
  {
    if b < 10 then [DigitText(b)]
    else if b < 100 then [DigitText(b / 10), DigitText(b % 10)]
    else [DigitText(b / 100), DigitText(b / 10 % 10), DigitText(b % 10)]
  }

  function DigitNumber(c: char): nat
    requires IsDigit(c)
  {
    c as nat - 48
  }

  /** One decimal field without leading zeros, at most 255. */
  function ByteOf(part: string): (r: Option<nat>)
    ensures r.Some? ==> r.value < 256
  {
    if !(1 <= |part| <= 3 && (forall i :: 0 <= i < |part| ==> IsDigit(part[i])) && (part[0] == '0' ==> |part| == 1)) then None
    else
      var n := if |part| == 1 then DigitNumber(part[0])
               else if |part| == 2 then DigitNumber(part[0]) * 10 + DigitNumber(part[1])
               else DigitNumber(part[0]) * 100 + DigitNumber(part[1]) * 10 + DigitNumber(part[2]);
      if n > 255 then None else Some(n)
  }

  /** A byte has one spelling. */
  lemma ByteSpelling(part: string, b: nat)
    requires b < 256
    ensures ByteOf(part) == Some(b) <==> part == ByteText(b)
  {
    if ByteOf(part) == Some(b) {
      if |part| == 1 {
        assert part == [part[0]];
      } else if |part| == 2 {
        assert part == [part[0], part[1]];
        ByteDigits(0, DigitNumber(part[0]), DigitNumber(part[1]));
      } else {
        assert part == [part[0], part[1], part[2]];
        ByteDigits(DigitNumber(part[0]), DigitNumber(part[1]), DigitNumber(part[2]));
      }
    }
    if part == ByteText(b) {
      ByteTextReads(b);
    }
  }

  lemma ByteDigits(x: nat, y: nat, z: nat)
    requires x < 10 && y < 10 && z < 10
    ensures (x * 100 + y * 10 + z) / 100 == x && (x * 100 + y * 10 + z) / 10 % 10 == y && (x * 100 + y * 10 + z) % 10 == z
  {
    assert (x * 100 + y * 10 + z) / 10 == x * 10 + y;
  }

  lemma ByteTextReads(b: nat)
    requires b < 256
    ensures ByteOf(ByteText(b)) == Some(b)
  {
    if b >= 100 {
      assert b == b / 100 * 100 + b / 10 % 10 * 10 + b % 10 by {
        assert b / 10 / 10 == b / 100;
      }
    }
  }

  // ----- IPv4 -----

  function ByteTexts(bytes: seq<nat>): (r: seq<string>)
    requires Below(bytes, false)
    ensures |r| == |bytes|
  {
    if bytes == [] then [] else [ByteText(bytes[0])] + ByteTexts(bytes[1..])
  }

  function BytesOf(parts: seq<string>): (r: Option<seq<nat>>)
    ensures r.Some? ==> |r.value| == |parts| && Below(r.value, false)
  {
    if parts == [] then Some([])
    else if ByteOf(parts[0]).None? || BytesOf(parts[1..]).None? then None
    else Some([ByteOf(parts[0]).value] + BytesOf(parts[1..]).value)
  }

  function V4Bytes(text: string): (r: Option<seq<nat>>)
    ensures r.Some? ==> |r.value| == 4 && Below(r.value, false)
  {
    var parts := Split(text, ".");
    if |parts| != 4 then None else BytesOf(parts)
  }

  function V4Text(bytes: seq<nat>): string
    requires Below(bytes, false)
  {
    Join(ByteTexts(bytes), ".")
  }

  lemma {:induction false} BytesSpelling(parts: seq<string>, bytes: seq<nat>)
    requires Below(bytes, false)
    ensures BytesOf(parts) == Some(bytes) <==> parts == ByteTexts(bytes)
  {
    if parts != [] && bytes != [] {
      ByteSpelling(parts[0], bytes[0]);
      BytesSpelling(parts[1..], bytes[1..]);
      assert parts == [parts[0]] + parts[1..] && bytes == [bytes[0]] + bytes[1..];
      assert ByteTexts(bytes)[1..] == ByteTexts(bytes[1..]);
    }
  }

  lemma {:induction false} ByteTextsLack(bytes: seq<nat>, c: char)
    requires Below(bytes, false) && !IsDigit(c)
    ensures forall i :: 0 <= i < |bytes| ==> Lacks(ByteTexts(bytes)[i], c)
  {
    if bytes != [] {
      ByteTextsLack(bytes[1..], c);
    }
  }

  /** Every IPv4 address has exactly one text. */
  lemma V4Spelling(text: string, bytes: seq<nat>)
    requires |bytes| == 4 && Below(bytes, false)
    ensures V4Bytes(text) == Some(bytes) <==> text == V4Text(bytes)
  {
    BytesSpelling(Split(text, "."), bytes);
    JoinSplit(text, ".");
    ByteTextsLack(bytes, '.');
    forall i | 0 <= i < |bytes| ensures Clear(ByteTexts(bytes)[i], ".") {
      LacksClear(ByteTexts(bytes)[i], '.', ".");
    }
    SplitJoin(ByteTexts(bytes), ".");
  }

  lemma V4TextLacks(bytes: seq<nat>, c: char)
    requires Below(bytes, false) && !IsDigit(c) && c != '.'
    ensures Lacks(V4Text(bytes), c)
  {
    ByteTextsLack(bytes, c);
    JoinLacks(ByteTexts(bytes), ".", c);
  }

  lemma V4Lacks(text: string, c: char)
    requires V4Bytes(text).Some? && !IsDigit(c) && c != '.'
    ensures Lacks(text, c) && text == V4Text(V4Bytes(text).value)
  {
    var bytes := V4Bytes(text).value;
    V4Spelling(text, bytes);
    V4TextLacks(bytes, c);
  }

  // ----- IPv6 -----

  function FieldsOf(parts: seq<string>, tail: bool): (r: Option<seq<nat>>)
    ensures r.Some? ==> Below(r.value, true)
  {
    if parts == [] then Some([])
    else if '.' in parts[0] then
      if !tail || |parts| > 1 then None
      else match V4Bytes(parts[0])
        case None => None
        case Some(b) => Some([b[0] * 256 + b[1], b[2] * 256 + b[3]])
    else if WordOf(parts[0]).None? || FieldsOf(parts[1..], tail).None? then None
    else Some([WordOf(parts[0]).value] + FieldsOf(parts[1..], tail).value)
  }

  function Half(text: string, tail: bool): Option<seq<nat>> {
    if text == "" then Some([]) else FieldsOf(Split(text, ":"), tail)
  }

  function Zeros(n: nat): seq<nat> { seq(n, i => 0) }

  function WordsOfHalves(halves: seq<string>): (r: Option<seq<nat>>)
    requires halves != []
    ensures r.Some? ==> |r.value| == 8 && Below(r.value, true)
  {
    if |halves| == 1 then
      var words := Half(halves[0], true);
      if words.Some? && |words.value| == 8 then words else None
    else if |halves| > 2 || Half(halves[0], false).None? || Half(halves[1], true).None? then None
    else
      var left, right := Half(halves[0], false).value, Half(halves[1], true).value;
      var missing := 8 - |left| - |right|;
      if missing < 1 then None else Some(left + Zeros(missing) + right)
  }

  /** The eight words of an address text without a zone. */
  function V6Words(address: string): (r: Option<seq<nat>>)
    ensures r.Some? ==> |r.value| == 8 && Below(r.value, true)
  {
    if ':' !in address then None else WordsOfHalves(Split(address, "::"))
  }

  lemma {:induction false} FieldsLack(parts: seq<string>, tail: bool, c: char)
    requires FieldsOf(parts, tail).Some? && HexOf(c) < 0 && c != '.'
    ensures forall i :: 0 <= i < |parts| ==> Lacks(parts[i], c)
  {
    if parts == [] {
    } else if '.' in parts[0] {
      V4Lacks(parts[0], c);
    } else {
      FieldsLack(parts[1..], tail, c);
    }
  }

  lemma HalfLacks(text: string, tail: bool, c: char)
    requires Half(text, tail).Some? && HexOf(c) < 0 && c != '.' && c != ':'
    ensures Lacks(text, c)
  {
    if text != "" {
      FieldsLack(Split(text, ":"), tail, c);
      JoinLacks(Split(text, ":"), ":", c);
      JoinSplit(text, ":");
    }
  }

  /** An accepted address is spelled with hexadecimal digits, colons and dots only. */
  lemma V6Lacks(address: string, c: char)
    requires V6Words(address).Some? && HexOf(c) < 0 && c != '.' && c != ':'
    ensures Lacks(address, c)
  {
    var halves := Split(address, "::");
    HalfLacks(halves[0], |halves| == 1, c);
    if |halves| == 2 {
      HalfLacks(halves[1], true, c);
    }
    JoinLacks(halves, "::", c);
    JoinSplit(address, "::");
  }

  // ----- The printed form of eight words (section 4.2 of RFC 5952) -----

  function ZeroRun(words: seq<nat>, i: nat): (j: nat)
    requires i <= |words|
    ensures i <= j <= |words| && (forall k :: i <= k < j ==> words[k] == 0)
    ensures j < |words| ==> words[j] != 0
    decreases |words| - i
  {
    if i < |words| && words[i] == 0 then ZeroRun(words, i + 1) else i
  }

  datatype Run = Run(start: nat, length: nat)

  /** The run kept when the scan stands at `i` holding `best`. */
  function BestFrom(words: seq<nat>, i: nat, best: Run): Run
    requires i <= |words|
    decreases |words| - i
  {
    if i == |words| then best
    else if words[i] != 0 then BestFrom(words, i + 1, best)
    else
      var j := ZeroRun(words, i);
      BestFrom(words, j, if j - i > best.length && j - i >= 2 then Run(i, j - i) else best)
  }

  /** The run to compress; its length is zero when there is none. */
  function BestRun(words: seq<nat>): Run { BestFrom(words, 0, Run(0, 0)) }

  predicate ZeroAt(words: seq<nat>, run: Run) {
    run.start + run.length <= |words| && forall k :: run.start <= k < run.start + run.length ==> words[k] == 0
  }

  /** `best` is the leftmost longest run of at least two zero words that starts before `limit`. */
  ghost predicate Leftmost(words: seq<nat>, best: Run, limit: nat) {
    && ZeroAt(words, best) && (best.length == 0 || best.length >= 2)
    && forall run: Run {:trigger ZeroAt(words, run)} :: ZeroAt(words, run) && run.length >= 2 && run.start < limit ==>
         run.length < best.length || (run.length == best.length && best.start <= run.start)
  }

  lemma {:induction false} BestFromLeftmost(words: seq<nat>, i: nat, best: Run)
    requires i <= |words| && Leftmost(words, best, i) && best.start <= i
    requires i > 0 && i < |words| ==> words[i - 1] != 0 || words[i] != 0
    ensures Leftmost(words, BestFrom(words, i, best), |words|)
    decreases |words| - i
  {
    if i == |words| {
    } else if words[i] != 0 {
      assert Leftmost(words, best, i + 1);
      BestFromLeftmost(words, i + 1, best);
    } else {
      var j := ZeroRun(words, i);
      var next := if j - i > best.length && j - i >= 2 then Run(i, j - i) else best;
      forall run: Run | ZeroAt(words, run) && run.length >= 2 && run.start < j
        ensures run.length < next.length || (run.length == next.length && next.start <= run.start)
      {
        if run.start >= i && j < |words| && run.start + run.length > j {
          assert false;
        }
      }
      BestFromLeftmost(words, j, next);
    }
  }

  /** The run that is compressed is the leftmost longest one, and is dropped only when all are short. */
  lemma BestRunIsLeftmostLongest(words: seq<nat>)
    ensures Leftmost(words, BestRun(words), |words|)
  {
    BestFromLeftmost(words, 0, Run(0, 0));
  }

  function HexTexts(words: seq<nat>): (r: seq<string>)
    ensures |r| == |words|
  {
    if words == [] then [] else [HexText(words[0])] + HexTexts(words[1..])
  }

  function WordsText(words: seq<nat>): string {
    var run := BestRun(words);
    if run.length == 0 || run.start + run.length > |words| then Join(HexTexts(words), ":")
    else Join(HexTexts(words[..run.start]), ":") + "::" + Join(HexTexts(words[run.start + run.length..]), ":")
  }

  lemma {:induction false} HexTextsLack(words: seq<nat>, c: char)
    requires HexOf(c) < 0
    ensures forall i :: 0 <= i < |words| ==> Lacks(HexTexts(words)[i], c)
  {
    if words != [] {
      HexTextsLack(words[1..], c);
    }
  }

  lemma {:induction false} FieldsOfHexTexts(words: seq<nat>, tail: bool)
    requires Below(words, true)
    ensures FieldsOf(HexTexts(words), tail) == Some(words)
  {
    if words != [] {
      HexTextReads(words[0]);
      HexTextsLack(words, '.');
      FieldsOfHexTexts(words[1..], tail);
      assert HexTexts(words)[1..] == HexTexts(words[1..]);
      assert words == [words[0]] + words[1..];
    }
  }

  lemma HalfOfHexTexts(words: seq<nat>, tail: bool)
    requires Below(words, true)
    ensures Half(Join(HexTexts(words), ":"), tail) == Some(words)
  {
    if words != [] {
      HexTextsLack(words, ':');
      forall i | 0 <= i < |words| ensures Clear(HexTexts(words)[i], ":") {
        LacksClear(HexTexts(words)[i], ':', ":");
      }
      SplitJoin(HexTexts(words), ":");
      FieldsOfHexTexts(words, tail);
      JoinedStart(words);
    }
  }

  /** Hexadecimal fields with single colons never contain, nor end at, a double colon. */
  lemma {:induction false} JoinedStart(words: seq<nat>)
    requires words != []
    ensures var text := Join(HexTexts(words), ":"); text != "" && HexOf(text[0]) >= 0 && Clear(text, "::")
  {
    var text := Join(HexTexts(words), ":");
    var head := HexText(words[0]);
    HexTextsLack(words, ':');
    if |words| == 1 {
      LacksClear(head, ':', "::");
    } else {
      JoinedStart(words[1..]);
      var rest := Join(HexTexts(words[1..]), ":");
      assert HexTexts(words)[1..] == HexTexts(words[1..]);
      assert text == head + ":" + rest;
      forall i | 0 <= i < |text| ensures !Starts(text + "::", i, "::") {
        if i < |head| {
          assert (text + "::")[i] == head[i];
          assert (text + "::")[i..i + 2][0] == head[i];
        } else if i == |head| {
          assert (text + "::")[i..i + 2][1] == rest[0];
        } else {
          assert !Starts(rest + "::", i - |head| - 1, "::");
          assert (text + "::")[i..i + 2] == (rest + "::")[i - |head| - 1..i - |head| + 1];
        }
      }
    }
  }

  lemma WordsTextLacks(words: seq<nat>, c: char)
    requires HexOf(c) < 0 && c != ':'
    ensures Lacks(WordsText(words), c)
  {
    var run := BestRun(words);
    HexTextsLack(words, c);
    JoinLacks(HexTexts(words), ":", c);
    if run.start + run.length <= |words| {
      var left, right := words[..run.start], words[run.start + run.length..];
      HexTextsLack(left, c);
      HexTextsLack(right, c);
      JoinLacks(HexTexts(left), ":", c);
      JoinLacks(HexTexts(right), ":", c);
    }
  }

  lemma JoinedClear(words: seq<nat>)
    ensures Clear(Join(HexTexts(words), ":"), "::")
  {
    if words != [] {
      JoinedStart(words);
    }
  }

  lemma TwoHalves(before: string, after: string)
    requires Clear(before, "::") && Clear(after, "::")
    ensures Split(before + "::" + after, "::") == [before, after] && ':' in before + "::" + after
  {
    SplitAt(before, "::", after);
    SplitWhole(after, "::");
    assert (before + "::" + after)[|before|] == ':';
  }

  lemma WordsOfTwoHalves(halves: seq<string>, left: seq<nat>, right: seq<nat>)
    requires |halves| == 2 && |left| + |right| <= 6
    requires Half(halves[0], false) == Some(left) && Half(halves[1], true) == Some(right)
    ensures WordsOfHalves(halves) == Some(left + Zeros(8 - |left| - |right|) + right)
  {
  }

  lemma CompressedRoundTrip(left: seq<nat>, right: seq<nat>, text: string)
    requires |left| + |right| <= 6 && Below(left, true) && Below(right, true)
    requires text == Join(HexTexts(left), ":") + "::" + Join(HexTexts(right), ":")
    ensures V6Words(text) == Some(left + Zeros(8 - |left| - |right|) + right) && ':' in text
  {
    var before, after := Join(HexTexts(left), ":"), Join(HexTexts(right), ":");
    JoinedClear(left);
    JoinedClear(right);
    TwoHalves(before, after);
    HalfOfHexTexts(left, false);
    HalfOfHexTexts(right, true);
    WordsOfTwoHalves([before, after], left, right);
  }

  lemma PlainRoundTrip(words: seq<nat>, text: string)
    requires |words| == 8 && Below(words, true) && text == Join(HexTexts(words), ":")
    ensures V6Words(text) == Some(words) && ':' in text
  {
    JoinedClear(words);
    SplitWhole(text, "::");
    HalfOfHexTexts(words, true);
    var head := HexText(words[0]);
    assert HexTexts(words) == [head] + HexTexts(words[1..]);
    assert text == head + ":" + Join(HexTexts(words)[1..], ":");
    assert text[|head|] == ':';
  }

  lemma TwoSides(words: seq<nat>, run: Run)
    requires ZeroAt(words, run) && Below(words, true)
    ensures words == words[..run.start] + Zeros(run.length) + words[run.start + run.length..]
    ensures Below(words[..run.start], true) && Below(words[run.start + run.length..], true)
  {
  }

  /** Parsing undoes printing for every eight words. */
  lemma WordsRoundTrip(words: seq<nat>)
    requires |words| == 8 && Below(words, true)
    ensures V6Words(WordsText(words)) == Some(words) && ':' in WordsText(words)
  {
    hide BestRun, BestFrom, V6Words, Join, HexTexts;
    var run := BestRun(words);
    BestRunIsLeftmostLongest(words);
    if run.length == 0 {
      PlainRoundTrip(words, WordsText(words));
    } else {
      var left, right := words[..run.start], words[run.start + run.length..];
      TwoSides(words, run);
      CompressedRoundTrip(left, right, WordsText(words));
    }
  }

  // ----- Addresses as values, and the canonical text -----

  datatype Address = V4(value: nat) | V6(value: nat)

  predicate MappedWords(words: seq<nat>)
    requires |words| == 8
  {
    words[0] == 0 && words[1] == 0 && words[2] == 0 && words[3] == 0 && words[4] == 0 && words[5] == 0xffff
  }

  function ZoneAt(text: string): (i: nat)
    ensures i <= |text| && (i < |text| ==> text[i] == '%') && Lacks(text[..i], '%')
  {
    if text == "" || text[0] == '%' then 0
    else
      var i := 1 + ZoneAt(text[1..]);
      assert text[..i] == [text[0]] + text[1..][..i - 1];
      i
  }

  /** The words of an address text, whose optional zone must not be empty. */
  function ZonedWords(text: string): (r: Option<seq<nat>>)
    ensures r.Some? ==> |r.value| == 8 && Below(r.value, true)
  {
    if ZoneAt(text) + 1 == |text| then None else V6Words(text[..ZoneAt(text)])
  }

  /** A trimmed text as the value used for comparing addresses. */
  function ParseAddressBits(text: string): Option<Address> {
    if text == "" || ' ' in text then None
    else if V4Bytes(text).Some? then Some(V4(Number(V4Bytes(text).value, false)))
    else match ZonedWords(text)
      case None => None
      case Some(words) =>
        Some(if MappedWords(words) then V4(words[6] * 65536 + words[7]) else V6(Number(words, true)))
  }

  function FormatValue(a: Address): string {
    match a
    case V4(v) => V4Text(Digits(v, 4, false))
    case V6(v) => WordsText(Digits(v, 8, true))
  }

  function CanonicalIP(text: string): Option<string> {
    if V4Bytes(text).Some? then Some(V4Text(V4Bytes(text).value))
    else match ZonedWords(text)
      case None => None
      case Some(words) =>
        if MappedWords(words) then
          var bytes := [words[6] / 256, words[6] % 256, words[7] / 256, words[7] % 256];
          Some(V4Text(bytes))
        else Some(WordsText(words) + text[ZoneAt(text)..])
  }

  ghost predicate InRange(a: Address) {
    match a
    case V4(v) => v < Limit(4, false)
    case V6(v) => v < Limit(8, true) && !MappedWords(Digits(v, 8, true))
  }

  lemma NoZone(text: string)
    requires Lacks(text, '%')
    ensures ZoneAt(text) == |text| && text[..ZoneAt(text)] == text && text[ZoneAt(text)..] == ""
  {
  }

  /** Parsing undoes printing for every 32-bit value and every 128-bit value outside ::ffff:0:0/96. */
  lemma AddressRoundTrip(a: Address)
    requires InRange(a)
    ensures ParseAddressBits(FormatValue(a)) == Some(a)
  {
    var text := FormatValue(a);
    match a
    case V4(v) =>
      var bytes := Digits(v, 4, false);
      V4Spelling(text, bytes);
      V4Lacks(text, ' ');
      NumberOfDigits(v, 4, false);
    case V6(v) =>
      var words := Digits(v, 8, true);
      WordsRoundTrip(words);
      WordsTextLacks(words, ' ');
      WordsTextLacks(words, '%');
      NoZone(text);
      NumberOfDigits(v, 8, true);
      NotV4(text);
  }

  lemma NotV4(text: string)
    requires ':' in text
    ensures V4Bytes(text).None?
  {
    if V4Bytes(text).Some? {
      V4Lacks(text, ':');
    }
  }

  lemma MappedBytes(high: nat, low: nat)
    requires high < 65536 && low < 65536
    ensures Digits(high * 65536 + low, 4, false) == [high / 256, high % 256, low / 256, low % 256]
  {
    var v := high * 65536 + low;
    var bytes := [high / 256, high % 256, low / 256, low % 256];
    assert bytes[..3][..2][..1][..0] == [];
    assert bytes[..3][..2][..1] == [high / 256] && bytes[..3][..2] == bytes[..2];
    assert Number(bytes[..1], false) == high / 256;
    assert bytes[..2][..1] == bytes[..1] && Number(bytes[..2], false) == high;
    assert bytes[..3][..2] == bytes[..2] && Number(bytes[..3], false) == high * 256 + low / 256;
    assert Number(bytes, false) == v;
    DigitsOfNumber(bytes, false);
  }

  /** Without a zone the canonical text is the printed form of the parsed value, for every text. */
  lemma CanonicalIsFormatOfParse(text: string)
    requires Lacks(text, '%')
    ensures CanonicalIP(text) ==
            if ParseAddressBits(text).None? then None else Some(FormatValue(ParseAddressBits(text).value))
  {
    NoZone(text);
    if V4Bytes(text).Some? {
      V4Lacks(text, ' ');
      DigitsOfNumber(V4Bytes(text).value, false);
      assert text != "";
    } else if ZonedWords(text).Some? {
      var words := ZonedWords(text).value;
      V6Lacks(text, ' ');
      assert text != "";
      CanonicalOfWords(words);
      assert WordsText(words) + "" == WordsText(words);
    }
  }

  lemma CanonicalOfWords(words: seq<nat>)
    requires |words| == 8 && Below(words, true)
    ensures MappedWords(words) ==>
              FormatValue(V4(words[6] * 65536 + words[7]))
              == V4Text([words[6] / 256, words[6] % 256, words[7] / 256, words[7] % 256])
    ensures FormatValue(V6(Number(words, true))) == WordsText(words)
  {
    MappedBytes(words[6], words[7]);
    DigitsOfNumber(words, true);
  }

  /** Canonical text is canonical, zone included. */
  lemma CanonicalIdempotent(text: string)
    requires CanonicalIP(text).Some?
    ensures CanonicalIP(CanonicalIP(text).value) == CanonicalIP(text)
  {
    var r := CanonicalIP(text).value;
    if V4Bytes(text).Some? {
      V4Spelling(r, V4Bytes(text).value);
    } else {
      var words := ZonedWords(text).value;
      if MappedWords(words) {
        V4Spelling(r, [words[6] / 256, words[6] % 256, words[7] / 256, words[7] % 256]);
      } else {
        var plain, zone := WordsText(words), text[ZoneAt(text)..];
        WordsRoundTrip(words);
        WordsTextLacks(words, '%');
        ZoneOf(plain, zone);
        NotV4(r);
      }
    }
  }

  lemma {:induction false} ZoneOf(plain: string, zone: string)
    requires Lacks(plain, '%') && (zone == "" || zone[0] == '%')
    ensures ZoneAt(plain + zone) == |plain|
    ensures (plain + zone)[..|plain|] == plain && (plain + zone)[|plain|..] == zone
  {
    if plain != "" {
      ZoneOf(plain[1..], zone);
      assert (plain + zone)[1..] == plain[1..] + zone;
    } else {
      assert plain + zone == zone;
    }
  }

  // ----- The loops of the browser -----

  function After(done: seq<nat>, rest: Option<seq<nat>>): Option<seq<nat>> {
    if rest.None? then None else Some(done + rest.value)
  }

  lemma AfterMore(done: seq<nat>, more: seq<nat>, rest: Option<seq<nat>>)
    ensures After(done, After(more, rest)) == After(done + more, rest)
    ensures After([], rest) == rest
  {
    if rest.Some? {
      assert done + (more + rest.value) == done + more + rest.value;
      assert [] + rest.value == rest.value;
    }
  }

  lemma BytesStep(done: seq<nat>, parts: seq<string>, i: nat)
    requires i < |parts|
    ensures ByteOf(parts[i]).None? ==> BytesOf(parts[i..]).None?
    ensures ByteOf(parts[i]).Some? ==>
              After(done, BytesOf(parts[i..])) == After(done + [ByteOf(parts[i]).value], BytesOf(parts[i + 1..]))
  {
    assert parts[i..][1..] == parts[i + 1..];
    if ByteOf(parts[i]).Some? {
      AfterMore(done, [ByteOf(parts[i]).value], BytesOf(parts[i + 1..]));
    }
  }

  method IPv4Bits(text: string) returns (r: Option<nat>)
    ensures r == if V4Bytes(text).None? then None else Some(Number(V4Bytes(text).value, false))
  {
    var parts := Split(text, ".");
    if |parts| != 4 {
      return None;
    }
    var value := 0;
    ghost var bytes: seq<nat> := [];
    var i := 0;
    assert parts[0..] == parts;
    AfterMore([], [], BytesOf(parts));
    while i < |parts|
      invariant i <= |parts| && value == Number(bytes, false)
      invariant BytesOf(parts) == After(bytes, BytesOf(parts[i..]))
    {
      var byte := ByteOf(parts[i]);
      BytesStep(bytes, parts, i);
      if byte.None? {
        return None;
      }
      value := value * 256 + byte.value;
      assert (bytes + [byte.value])[..|bytes|] == bytes;
      bytes := bytes + [byte.value];
      i := i + 1;
    }
    assert bytes + [] == bytes;
    return Some(value);
  }

  lemma TailWords(b: seq<nat>)
    requires |b| == 4 && Below(b, false)
    ensures Number(b, false) / 65536 == b[0] * 256 + b[1] && Number(b, false) % 65536 == b[2] * 256 + b[3]
  {
    assert b[..3][..2][..1][..0] == [] && b[..3][..2] == b[..2] && b[..2][..1] == b[..1];
    assert Number(b[..1], false) == b[0];
    assert Number(b[..2], false) == b[0] * 256 + b[1];
    assert Number(b[..3], false) == (b[0] * 256 + b[1]) * 256 + b[2];
  }

  /** The words of one field; a dotted tail must stand last. */
  function FieldOf(parts: seq<string>, i: nat, tail: bool): (r: Option<seq<nat>>)
    requires i < |parts|
  {
    if '.' !in parts[i] then (if WordOf(parts[i]).None? then None else Some([WordOf(parts[i]).value]))
    else if !tail || i != |parts| - 1 || V4Bytes(parts[i]).None? then None
    else
      var b := V4Bytes(parts[i]).value;
      Some([b[0] * 256 + b[1], b[2] * 256 + b[3]])
  }

  lemma FieldsStep(done: seq<nat>, parts: seq<string>, i: nat, tail: bool)
    requires i < |parts|
    ensures FieldOf(parts, i, tail).None? ==> FieldsOf(parts[i..], tail).None?
    ensures FieldOf(parts, i, tail).Some? ==>
              After(done, FieldsOf(parts[i..], tail)) == After(done + FieldOf(parts, i, tail).value, FieldsOf(parts[i + 1..], tail))
  {
    assert parts[i..][1..] == parts[i + 1..];
    if FieldOf(parts, i, tail).Some? {
      var found := FieldOf(parts, i, tail).value;
      if '.' in parts[i] {
        assert found + [] == found;
      }
      assert FieldsOf(parts[i..], tail) == After(found, FieldsOf(parts[i + 1..], tail));
      AfterMore(done, found, FieldsOf(parts[i + 1..], tail));
    }
  }

  method ParseHalf(half: string, allowV4Tail: bool) returns (r: Option<seq<nat>>)
    ensures r == Half(half, allowV4Tail)
  {
    if half == "" {
      return Some([]);
    }
    var raw := Split(half, ":");
    var words: seq<nat> := [];
    var i := 0;
    assert raw[0..] == raw;
    AfterMore([], [], FieldsOf(raw, allowV4Tail));
    while i < |raw|
      invariant i <= |raw|
      invariant FieldsOf(raw, allowV4Tail) == After(words, FieldsOf(raw[i..], allowV4Tail))
    {
      var part := raw[i];
      FieldsStep(words, raw, i, allowV4Tail);
      if '.' in part {
        if !allowV4Tail || i != |raw| - 1 {
          return None;
        }
        var v4 := IPv4Bits(part);
        if v4.None? {
          return None;
        }
        TailWords(V4Bytes(part).value);
        words := words + [v4.value / 65536 % 65536, v4.value % 65536];
      } else {
        var word := WordOf(part);
        if word.None? {
          return None;
        }
        words := words + [word.value];
      }
      i := i + 1;
    }
    assert words + [] == words;
    return Some(words);
  }

  method ExtractDigits(value: nat, count: nat, wide: bool) returns (digits: seq<nat>)
    ensures digits == Digits(value, count, wide)
  {
    digits := [];
    var k := 0;
    while k < count
      invariant k <= count && digits == Digits(value, count, wide)[..k]
    {
      DigitByShift(value, count, k, wide);
      digits := digits + [Remainder(Shift(value, count - 1 - k, wide), wide)];
      k := k + 1;
    }
  }

  /** The printer's search for the zero words to compress. */
  method FindRun(words: seq<nat>) returns (best: Run)
    ensures best == BestRun(words) && Leftmost(words, best, |words|)
  {
    BestRunIsLeftmostLongest(words);
    best := Run(0, 0);
    var i := 0;
    while i < |words|
      invariant i <= |words| && BestRun(words) == BestFrom(words, i, best)
    {
      if words[i] != 0 {
        i := i + 1;
      } else {
        var j := i;
        while j < |words| && words[j] == 0
          invariant i <= j <= |words| && ZeroRun(words, i) == ZeroRun(words, j)
        {
          j := j + 1;
        }
        if j - i > best.length && j - i >= 2 {
          best := Run(i, j - i);
        }
        i := j;
      }
    }
  }

  /** What the printer writes, the parser reads back. */
  method PrintAddress(a: Address) returns (text: string)
    requires InRange(a)
    ensures text == FormatValue(a) && ParseAddressBits(text) == Some(a)
  {
    AddressRoundTrip(a);
    if a.V4? {
      var bytes := ExtractDigits(a.value, 4, false);
      return Join(ByteTexts(bytes), ".");
    }
    var words := ExtractDigits(a.value, 8, true);
    var run := FindRun(words);
    if run.length == 0 {
      return Join(HexTexts(words), ":");
    }
    return Join(HexTexts(words[..run.start]), ":") + "::" + Join(HexTexts(words[run.start + run.length..]), ":");
  }
}
