/** Which texts are addresses (frontend/common-prefix.js:14-107): a grammar of IPv6 texts (section 2.2 of RFC 4291), that the parser accepts
    exactly its texts, and that the printer writes the recommended one (section 4 of RFC 5952). */
module AddressTexts {
  import opened Text
  import opened Addresses

  // ----- The grammar -----

  /** One to four hexadecimal digits, or four bytes in decimal that stand for two words. */
  datatype Field = Hex(digits: string) | Quad(bytes: seq<nat>)

  predicate HexChar(c: char) { '0' <= c <= '9' || 'a' <= c <= 'f' || 'A' <= c <= 'F' }

  ghost predicate Spelled(f: Field) {
    match f
    case Hex(digits) => 1 <= |digits| <= 4 && forall i :: 0 <= i < |digits| ==> HexChar(digits[i])
    case Quad(bytes) => |bytes| == 4 && Below(bytes, false)
  }

  ghost predicate AllSpelled(fields: seq<Field>) { forall i :: 0 <= i < |fields| ==> Spelled(fields[i]) }

  /** Only the last field may be in decimal. */
  ghost predicate QuadLast(fields: seq<Field>, tail: bool) {
    forall i :: 0 <= i < |fields| && fields[i].Quad? ==> tail && i == |fields| - 1
  }

  /** Go and the browser write a byte in decimal without leading zeros. */
  function Printed(f: Field): string {
    match f
    case Hex(digits) => digits
    case Quad(bytes) => if |bytes| == 4 && (forall i :: 0 <= i < 4 ==> bytes[i] < 256) then V4Text(bytes) else ""
  }

  function AllPrinted(fields: seq<Field>): (r: seq<string>)
    ensures |r| == |fields| && forall i :: 0 <= i < |r| ==> r[i] == Printed(fields[i])
  {
    seq(|fields|, i requires 0 <= i < |fields| => Printed(fields[i]))
  }

  function Meant(f: Field): seq<nat> {
    match f
    case Hex(digits) => [if AllHex(digits) then HexNumber(digits) else 0]
    case Quad(bytes) => if |bytes| == 4 then [bytes[0] * 256 + bytes[1], bytes[2] * 256 + bytes[3]] else []
  }

  function AllMeant(fields: seq<Field>): seq<nat> {
    if fields == [] then [] else Meant(fields[0]) + AllMeant(fields[1..])
  }

  /** Fields between single colons; with a double colon, which stands for at least one word of zeros, there are two lists of fields. */
  ghost predicate Writes(text: string, left: seq<Field>, right: Option<seq<Field>>) {
    && AllSpelled(left) && QuadLast(left, right.None?)
    && match right
       case None => text == Join(AllPrinted(left), ":")
       case Some(more) =>
         AllSpelled(more) && QuadLast(more, true) && text == Join(AllPrinted(left), ":") + "::" + Join(AllPrinted(more), ":")
  }

  ghost predicate Denotes(left: seq<Field>, right: Option<seq<Field>>, words: seq<nat>) {
    match right
    case None => words == AllMeant(left) && |words| == 8
    case Some(more) =>
      var missing := 8 - |AllMeant(left)| - |AllMeant(more)|;
      missing >= 1 && words == AllMeant(left) + seq(missing, _ => 0) + AllMeant(more)
  }

  // ----- Fields and parts -----

  lemma HexCharIs(c: char)
    ensures HexChar(c) <==> HexOf(c) >= 0
  {
  }

  lemma HexFieldReads(digits: string)
    ensures Spelled(Hex(digits)) <==> WordOf(digits).Some?
    ensures WordOf(digits).Some? ==> Meant(Hex(digits)) == [WordOf(digits).value]
  {
    forall i | 0 <= i < |digits| ensures HexChar(digits[i]) <==> HexOf(digits[i]) >= 0 {
      HexCharIs(digits[i]);
    }
  }

  lemma PrintedLacks(f: Field, c: char)
    requires Spelled(f) && HexOf(c) < 0 && c != '.'
    ensures Lacks(Printed(f), c) && Printed(f) != ""
    ensures f.Hex? <==> Lacks(Printed(f), '.')
  {
    match f
    case Hex(digits) =>
      forall i | 0 <= i < |digits| ensures digits[i] != c && digits[i] != '.' {
        HexCharIs(digits[i]);
      }
    case Quad(bytes) =>
      V4TextLacks(bytes, c);
      QuadDots(bytes);
  }

  lemma QuadDots(bytes: seq<nat>)
    requires |bytes| == 4 && Below(bytes, false)
    ensures '.' in V4Text(bytes) && V4Text(bytes) != ""
  {
    var parts := ByteTexts(bytes);
    assert V4Text(bytes) == parts[0] + "." + Join(parts[1..], ".");
    assert V4Text(bytes)[|parts[0]|] == '.';
  }

  lemma {:induction false} FieldsRead(fields: seq<Field>, tail: bool)
    requires AllSpelled(fields) && QuadLast(fields, tail)
    ensures FieldsOf(AllPrinted(fields), tail) == Some(AllMeant(fields))
    decreases |fields|
  {
    hide V4Bytes, V4Text, WordOf, Spelled;
    if fields != [] {
      var f, rest := fields[0], fields[1..];
      assert AllPrinted(fields)[0] == Printed(f) && AllPrinted(fields)[1..] == AllPrinted(rest);
      PrintedLacks(f, ':');
      FieldsRead(rest, tail);
      match f
      case Hex(digits) => HexFieldReads(digits);
      case Quad(bytes) =>
        QuadReads(bytes);
        assert |fields| == 1 && rest == [] && AllMeant(rest) == [] && |bytes| == 4;
        assert AllMeant(fields) == Meant(f);
    }
  }

  lemma QuadReads(bytes: seq<nat>)
    requires Spelled(Quad(bytes))
    ensures V4Bytes(Printed(Quad(bytes))) == Some(bytes)
  {
    V4Spelling(V4Text(bytes), bytes);
  }

  /** The fields of parts that were read. */
  lemma {:induction false} FieldsFound(parts: seq<string>, tail: bool) returns (fields: seq<Field>)
    requires FieldsOf(parts, tail).Some?
    ensures AllSpelled(fields) && QuadLast(fields, tail) && AllPrinted(fields) == parts && AllMeant(fields) == FieldsOf(parts, tail).value
    decreases |parts|
  {
    hide V4Bytes, V4Text, WordOf, Spelled;
    if parts == [] {
      fields := [];
    } else if '.' in parts[0] {
      var bytes := V4Bytes(parts[0]).value;
      QuadFound(parts[0]);
      fields := [Quad(bytes)];
      assert AllMeant(fields[1..]) == [];
    } else {
      var more := FieldsFound(parts[1..], tail);
      HexFieldReads(parts[0]);
      fields := [Hex(parts[0])] + more;
      assert fields[1..] == more;
    }
  }

  lemma QuadFound(part: string)
    requires V4Bytes(part).Some?
    ensures Spelled(Quad(V4Bytes(part).value)) && Printed(Quad(V4Bytes(part).value)) == part
  {
    V4Spelling(part, V4Bytes(part).value);
  }

  // ----- Halves -----

  lemma {:induction false} JoinedFields(fields: seq<Field>)
    requires AllSpelled(fields) && fields != []
    ensures var text := Join(AllPrinted(fields), ":");
            text != "" && text[0] != ':' && Clear(text, "::")
    decreases |fields|
  {
    hide Printed, Spelled;
    var parts, text := AllPrinted(fields), Join(AllPrinted(fields), ":");
    var head := parts[0];
    PrintedLacks(fields[0], ':');
    if |fields| == 1 {
      LacksClear(head, ':', "::");
    } else {
      var rest := Join(AllPrinted(fields[1..]), ":");
      JoinedFields(fields[1..]);
      assert parts[1..] == AllPrinted(fields[1..]);
      assert text == head + ":" + rest;
      forall i | 0 <= i < |text| ensures !Starts(text + "::", i, "::") {
        if i < |head| {
          assert (text + "::")[i] == head[i];
          assert (text + "::")[i..i + 2][0] == head[i];
        } else if i == |head| {
          assert (text + "::")[i..i + 2][1] == rest[0];
        } else {
          assert !Starts(rest + "::", i - |head| - 1, "::");
          assert (text + "::")[i..i + 2] == (rest + "::")[i - |head| - 1..i - |head| + 1];
        }
      }
    }
  }

  lemma HalfReads(fields: seq<Field>, tail: bool)
    requires AllSpelled(fields) && QuadLast(fields, tail)
    ensures Half(Join(AllPrinted(fields), ":"), tail) == Some(AllMeant(fields))
    ensures Clear(Join(AllPrinted(fields), ":"), "::")
  {
    hide Printed, Spelled, FieldsOf, AllMeant;
    var parts := AllPrinted(fields);
    if fields == [] {
      NoFields();
      assert parts == [];
    } else {
      forall i | 0 <= i < |parts| ensures Clear(parts[i], ":") {
        PrintedLacks(fields[i], ':');
        LacksClear(parts[i], ':', ":");
      }
      SplitJoin(parts, ":");
      FieldsRead(fields, tail);
      JoinedFields(fields);
    }
  }

  lemma NoFields()
    ensures Join([], ":") == "" && AllMeant([]) == []
  {
  }

  lemma HalfFound(text: string, tail: bool) returns (fields: seq<Field>)
    requires Half(text, tail).Some?
    ensures AllSpelled(fields) && QuadLast(fields, tail) && Join(AllPrinted(fields), ":") == text && AllMeant(fields) == Half(text, tail).value
  {
    if text == "" {
      fields := [];
      assert AllPrinted(fields) == [];
    } else {
      fields := FieldsFound(Split(text, ":"), tail);
      JoinSplit(text, ":");
    }
  }

  // ----- The parser accepts exactly the texts of the grammar -----

  lemma Reads(text: string, left: seq<Field>, right: Option<seq<Field>>, words: seq<nat>)
    requires Writes(text, left, right) && Denotes(left, right, words)
    ensures V6Words(text) == Some(words)
  {
    hide Half, Spelled, Printed, AllMeant;
    HalfReads(left, right.None?);
    match right
    case None =>
      SplitWhole(text, "::");
      EightHaveColon(left);
    case Some(more) =>
      HalfReads(more, true);
      TwoHalves(Join(AllPrinted(left), ":"), Join(AllPrinted(more), ":"));
      assert seq(8 - |AllMeant(left)| - |AllMeant(more)|, _ => 0) == Zeros(8 - |AllMeant(left)| - |AllMeant(more)|);
  }

  lemma {:induction false} FewWords(fields: seq<Field>)
    ensures |AllMeant(fields)| <= 2 * |fields|
    decreases |fields|
  {
    if fields != [] {
      FewWords(fields[1..]);
    }
  }

  lemma EightHaveColon(fields: seq<Field>)
    requires AllSpelled(fields) && QuadLast(fields, true) && |AllMeant(fields)| == 8
    ensures ':' in Join(AllPrinted(fields), ":")
  {
    var parts := AllPrinted(fields);
    FewWords(fields);
    assert Join(parts, ":") == parts[0] + ":" + Join(parts[1..], ":");
    assert Join(parts, ":")[|parts[0]|] == ':';
  }

  lemma Found(text: string) returns (left: seq<Field>, right: Option<seq<Field>>)
    requires V6Words(text).Some?
    ensures Writes(text, left, right) && Denotes(left, right, V6Words(text).value)
  {
    hide Half, Spelled, Printed, AllMeant;
    var halves := Split(text, "::");
    JoinSplit(text, "::");
    if |halves| == 1 {
      left := HalfFound(halves[0], true);
      right := None;
    } else {
      left := HalfFound(halves[0], false);
      var more := HalfFound(halves[1], true);
      right := Some(more);
      assert halves == [halves[0], halves[1]] && halves[1..] == [halves[1]];
      assert seq(8 - |AllMeant(left)| - |AllMeant(more)|, _ => 0) == Zeros(8 - |AllMeant(left)| - |AllMeant(more)|);
    }
  }

  /** A text is an IPv6 address of some eight words exactly when the grammar writes it and it denotes them. */
  lemma ParsesExactlyAddressTexts(text: string, words: seq<nat>)
    ensures V6Words(text) == Some(words) <==> exists left, right :: Writes(text, left, right) && Denotes(left, right, words)
  {
    hide V6Words, Writes, Denotes;
    if V6Words(text) == Some(words) {
      var left, right := Found(text);
    }
    if left, right :| Writes(text, left, right) && Denotes(left, right, words) {
      Reads(text, left, right, words);
    }
  }

  // ----- The recommended form -----

  predicate LowerHex(c: char) { '0' <= c <= '9' || 'a' <= c <= 'f' }

  /** Lower case, and no leading zeros. */
  predicate Plainest(digits: string) {
    1 <= |digits| <= 4 && (forall i :: 0 <= i < |digits| ==> LowerHex(digits[i])) && (digits[0] == '0' ==> |digits| == 1)
  }

  lemma {:induction false} HexTextIsPlainest(w: nat)
    requires w < 65536
    ensures Plainest(HexText(w)) && HexNumber(HexText(w)) == w && AllHex(HexText(w))
  {
    HexTextReads(w);
    LowerText(w);
  }

  lemma {:induction false} LowerText(w: nat)
    ensures forall i :: 0 <= i < |HexText(w)| ==> LowerHex(HexText(w)[i])
    ensures HexText(w)[0] == '0' ==> w == 0
  {
    if w >= 16 {
      LowerText(w / 16);
    }
  }

  function Fields(words: seq<nat>): (r: seq<Field>)
    ensures |r| == |words| && forall i :: 0 <= i < |r| ==> r[i] == Hex(HexText(words[i]))
  {
    seq(|words|, i requires 0 <= i < |words| => Hex(HexText(words[i])))
  }

  lemma {:induction false} TextAt(words: seq<nat>, i: nat)
    requires i < |words|
    ensures HexTexts(words)[i] == HexText(words[i])
  {
    hide HexText;
    if i > 0 {
      TextAt(words[1..], i - 1);
    }
  }

  lemma {:induction false} FieldsMean(words: seq<nat>)
    requires Below(words, true)
    ensures AllMeant(Fields(words)) == words
    decreases |words|
  {
    if words == [] {
      assert Fields(words) == [];
    } else {
      HexTextIsPlainest(words[0]);
      hide HexText, HexNumber, Plainest;
      FieldsMean(words[1..]);
      assert Fields(words)[1..] == Fields(words[1..]);
      assert words == [words[0]] + words[1..];
    }
  }

  lemma FieldsAreTexts(words: seq<nat>)
    requires Below(words, true)
    ensures AllPrinted(Fields(words)) == HexTexts(words) && AllMeant(Fields(words)) == words && AllSpelled(Fields(words))
    ensures forall i :: 0 <= i < |words| ==> Plainest(Fields(words)[i].digits)
  {
    hide Spelled, Plainest, HexText, HexTexts, AllMeant;
    FieldsMean(words);
    forall i | 0 <= i < |words| ensures Plainest(Fields(words)[i].digits) && Spelled(Fields(words)[i]) && AllPrinted(Fields(words))[i] == HexTexts(words)[i] {
      HexTextIsPlainest(words[i]);
      PlainestSpells(HexText(words[i]));
      TextAt(words, i);
    }
  }

  lemma PlainestSpells(digits: string)
    requires Plainest(digits)
    ensures Spelled(Hex(digits))
  {
  }

  /** The printer writes every word in hexadecimal, in lower case and without leading zeros, and its double colon stands for the leftmost of
      the longest runs of at least two zero words, or there is none because there is no such run. */
  lemma PrintsRecommendedForm(words: seq<nat>)
    requires |words| == 8 && Below(words, true)
    ensures var run := BestRun(words);
            && Leftmost(words, run, |words|)
            && (forall i :: 0 <= i < 8 ==> Plainest(Fields(words)[i].digits))
            && if run.length == 0 then Writes(WordsText(words), Fields(words), None) && Denotes(Fields(words), None, words)
               else
                 var left, right := Fields(words[..run.start]), Fields(words[run.start + run.length..]);
                 Writes(WordsText(words), left, Some(right)) && Denotes(left, Some(right), words)
  {
    hide BestRun, Spelled, Printed, Plainest, AllMeant, Fields, Join;
    var run := BestRun(words);
    BestRunIsLeftmostLongest(words);
    FieldsAreTexts(words);
    HexOnly(words);
    if run.length != 0 {
      var left, right := words[..run.start], words[run.start + run.length..];
      FieldsAreTexts(left);
      FieldsAreTexts(right);
      HexOnly(left);
      HexOnly(right);
      TwoSides(words, run);
      assert seq(run.length, _ => 0) == Zeros(run.length);
    }
  }

  lemma HexOnly(words: seq<nat>)
    ensures forall tail :: QuadLast(Fields(words), tail)
  {
  }

  /** A byte is written as its decimal numeral. */
  lemma ByteTextIsDecimal(b: nat)
    requires b < 256
    ensures |ByteText(b)| == |Decimal(b)| && forall i :: 0 <= i < |Decimal(b)| ==> ByteText(b)[i] as int == Decimal(b)[i]
  {
    if b >= 100 {
      assert b / 10 / 10 == b / 100;
      assert Decimal(b / 100) == [0x30 + b / 100];
      assert Decimal(b / 10) == Decimal(b / 100) + [0x30 + b / 10 % 10];
    } else if b >= 10 {
      assert Decimal(b / 10) == [0x30 + b / 10];
    }
  }
}
