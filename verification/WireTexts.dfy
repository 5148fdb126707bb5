/** What the texts that are measured byte by byte mean: Go's strings are the shortest spelling that is safe inside HTML, and the
    Geo sidecar and the Geo bundles read back as the JSON trees of their entries (backend/api/report_payload.go:84-97,
    frontend/state.js:1117-1176). */
module WireTexts {
  import opened Text
  import GeoSidecar
  import R = ResponseFitting
  import W = ErrorWire
  import J = ClosedJson

  // ----- Strings -----

  /** Neither HTML's special characters nor the line separators that JavaScript does not take in strings. */
  predicate Harmless(u: Unit) { u != 0x3c && u != 0x3e && u != 0x26 && u != 0x2028 && u != 0x2029 }

  predicate Safe(text: seq<Unit>) { forall i :: 0 <= i < |text| ==> Harmless(text[i]) }

  predicate UpperHex(u: Unit) { 0x41 <= u <= 0x46 }

  lemma GoUnitIsSafe(u: Unit)
    ensures Safe(GoUnit(u)) && (|GoUnit(u)| > 2 ==> forall i :: 0 <= i < 6 == |GoUnit(u)| ==> !UpperHex(GoUnit(u)[i]))
  {
  }

  /** No other safe spelling of a character is shorter, and none but another hexadecimal one is as short. */
  lemma GoUnitIsShortest(c: W.Spelling, u: Unit)
    requires W.Spells(c) && W.Meaning(c) == [u] && Safe(W.Printed(c))
    ensures |GoUnit(u)| <= |W.Printed(c)| && (|GoUnit(u)| == |W.Printed(c)| && !c.Hex? ==> GoUnit(u) == W.Printed(c))
  {
    match c
    case Raw(v) => assert W.Printed(c) == [u] && Harmless(W.Printed(c)[0]);
    case Short(letter) => assert W.ShortMeaning(letter) == Some(u);
    case Hex(f) =>
    case _ =>
  }

  lemma {:induction false} GoBodyIsSafe(text: seq<Unit>)
    ensures Safe(GoBody(text))
  {
    if text != [] {
      GoUnitIsSafe(text[0]);
      GoBodyIsSafe(text[1..]);
    }
  }

  lemma PairMeans(c: W.Spelling)
    requires W.Spells(c) && |W.Meaning(c)| == 2
    ensures High(W.Meaning(c)[0]) && Low(W.Meaning(c)[1]) && |W.Printed(c)| >= 2
  {
  }

  /** Of all ways to spell a text that keep HTML's special characters out, Go's is the shortest. */
  lemma {:induction false} GoBodyIsShortest(text: seq<Unit>, cs: seq<W.Spelling>)
    requires W.AllSpell(cs) && W.MeaningAll(cs) == text && Safe(W.PrintedAll(cs))
    ensures |GoBody(text)| <= |W.PrintedAll(cs)| && Safe(GoBody(text))
    decreases |cs|
  {
    GoBodyIsSafe(text);
    if cs != [] {
      var c, rest := cs[0], cs[1..];
      assert W.PrintedAll(cs) == W.Printed(c) + W.PrintedAll(rest);
      assert W.MeaningAll(cs) == W.Meaning(c) + W.MeaningAll(rest);
      SafeParts(W.Printed(c), W.PrintedAll(rest));
      GoBodyIsShortest(W.MeaningAll(rest), rest);
      if |W.Meaning(c)| == 1 {
        assert text[1..] == W.MeaningAll(rest) && W.Meaning(c) == [text[0]];
        GoUnitIsShortest(c, text[0]);
      } else {
        PairMeans(c);
        assert text[2..] == W.MeaningAll(rest) && text[0] == W.Meaning(c)[0] && text[1] == W.Meaning(c)[1];
        GoBodyPair(text);
      }
    }
  }

  lemma SafeParts(a: seq<Unit>, b: seq<Unit>)
    requires Safe(a + b)
    ensures Safe(a) && Safe(b)
  {
    forall i | 0 <= i < |a| ensures Harmless(a[i]) {
      assert (a + b)[i] == a[i];
    }
    forall i | 0 <= i < |b| ensures Harmless(b[i]) {
      assert (a + b)[|a| + i] == b[i];
    }
  }

  // ----- Tokens -----

  /** Bytes that a JSON string holds as they are. */
  predicate Inner(b: seq<Byte>) { forall i :: 0 <= i < |b| ==> b[i] != J.QUOTATION && b[i] != J.ESCAPE }

  lemma {:induction false} InnerSkipped(s: seq<Byte>, i: nat, j: nat)
    requires i <= j <= |s| && Inner(s[i..j])
    ensures J.ClosedAt(s, i) == J.ClosedAt(s, j)
    decreases j - i
  {
    if i < j {
      assert s[i] == s[i..j][0] && s[i + 1..j] == s[i..j][1..];
      InnerSkipped(s, i + 1, j);
    }
  }

  lemma {:induction false} AsciiBytes(text: seq<Unit>)
    requires forall i :: 0 <= i < |text| ==> text[i] < 0x80
    ensures WellFormed(text) && |Utf8(text)| == |text| && forall i :: 0 <= i < |text| ==> Utf8(text)[i] == text[i]
  {
    if text != [] {
      AsciiBytes(text[1..]);
    }
  }

  /** Bytes that a JSON reader passes over inside a string. */
  predicate Passes(b: seq<Byte>) { Inner(b) || (|b| >= 2 && b[0] == J.ESCAPE && Inner(b[2..])) }

  lemma Passed(s: seq<Byte>, i: nat, b: seq<Byte>)
    requires Passes(b) && i + |b| <= |s| && s[i..i + |b|] == b
    ensures J.ClosedAt(s, i) == J.ClosedAt(s, i + |b|)
  {
    if Inner(b) {
      InnerSkipped(s, i, i + |b|);
    } else {
      assert s[i] == b[0] && s[i + 2..i + |b|] == b[2..];
      InnerSkipped(s, i + 2, i + |b|);
    }
  }

  lemma ScalarPasses(c: int)
    requires 0 <= c < 0x11_0000 && c != 0x22 && c != 0x5c
    ensures Passes(Utf8Scalar(c))
  {
  }

  /** The bytes of the first character of a text as Go spells it. */
  function HeadBytes(text: seq<Unit>): seq<Byte>
    requires text != [] && WellFormed(text)
  {
    if High(text[0]) then Utf8Scalar(Scalar(text[0], text[1]))
    else if WellFormed(GoUnit(text[0])) then Utf8(GoUnit(text[0])) else []
  }

  lemma HeadPasses(text: seq<Unit>)
    requires text != [] && WellFormed(text)
    ensures Passes(HeadBytes(text))
  {
    if High(text[0]) {
      ScalarPasses(Scalar(text[0], text[1]));
    } else {
      var g := GoUnit(text[0]);
      GoUnitWellFormed(text[0]);
      if |g| > 1 {
        AsciiBytes(g);
      } else {
        ScalarPasses(text[0]);
        assert Utf8(g) == Utf8Scalar(text[0]) + [];
      }
    }
  }

  lemma BodySplits(text: seq<Unit>)
    requires text != [] && WellFormed(text)
    ensures var rest := text[if High(text[0]) then 2 else 1..];
            && WellFormed(rest) && WellFormed(GoBody(rest)) && WellFormed(GoBody(text))
            && Utf8(GoBody(text)) == HeadBytes(text) + Utf8(GoBody(rest))
  {
    hide Utf8Scalar, Scalar, GoUnit;
    GoBodyWellFormed(text);
    if High(text[0]) {
      GoBodyPair(text);
      PairUtf8(text[0], text[1]);
      Utf8Append([text[0], text[1]], GoBody(text[2..]));
    } else {
      Utf8Append(GoUnit(text[0]), GoBody(text[1..]));
    }
  }

  lemma Within(s: seq<Byte>, i: nat, body: seq<Byte>, head: seq<Byte>, more: seq<Byte>)
    requires i + |body| <= |s| && s[i..i + |body|] == body == head + more
    ensures s[i..i + |head|] == head && s[i + |head|..i + |body|] == more
  {
    assert body[..|head|] == head && body[|head|..] == more;
    assert s[i..i + |head|] == s[i..i + |body|][..|head|] && s[i + |head|..i + |body|] == s[i..i + |body|][|head|..];
  }

  lemma {:induction false} GoBodyCloses(text: seq<Unit>, s: seq<Byte>, i: nat)
    requires WellFormed(text) && WellFormed(GoBody(text)) && i + |Utf8(GoBody(text))| <= |s|
    requires s[i..i + |Utf8(GoBody(text))|] == Utf8(GoBody(text))
    ensures J.ClosedAt(s, i) == J.ClosedAt(s, i + |Utf8(GoBody(text))|)
    decreases |text|
  {
    hide Utf8, GoBody, HeadBytes, Passes, J.ClosedAt;
    if text == [] {
      EmptyBody();
    } else {
      BodySplits(text);
      HeadPasses(text);
      var head, rest := HeadBytes(text), text[if High(text[0]) then 2 else 1..];
      var body, more := Utf8(GoBody(text)), Utf8(GoBody(rest));
      Within(s, i, body, head, more);
      Passed(s, i, head);
      GoBodyCloses(rest, s, i + |head|);
    }
  }

  /** What Go quotes is one string token, whatever the text holds. */
  lemma QuotedIsToken(text: seq<Unit>)
    requires WellFormed(text)
    ensures WellFormed(GoQuoted(text)) && J.StringToken(Utf8(GoQuoted(text)))
    ensures WellFormed(GoBody(text)) && Utf8(GoQuoted(text)) == [J.QUOTATION] + Utf8(GoBody(text)) + [J.QUOTATION]
  {
    GoQuotedBytes(text);
    AsciiBytes([QUOTE]);
    assert Utf8([QUOTE]) == [J.QUOTATION];
    Utf8Append([QUOTE], GoBody(text));
    Utf8Append([QUOTE] + GoBody(text), [QUOTE]);
    var s, body := Utf8(GoQuoted(text)), Utf8(GoBody(text));
    assert s == [J.QUOTATION] + body + [J.QUOTATION];
    assert s[1..1 + |body|] == body;
    GoBodyCloses(text, s, 1);
  }

  // ----- Trees -----

  function BytesOf(name: string): (r: seq<Byte>)
    requires forall i :: 0 <= i < |name| ==> name[i] as int < 0x80
    ensures |r| == |name|
  {
    seq(|name|, i requires 0 <= i < |name| => name[i] as int)
  }

  /** A name in quotes. */
  function NameOf(name: string): seq<Byte>
    requires forall i :: 0 <= i < |name| ==> name[i] as int < 0x80
  {
    [J.QUOTATION] + BytesOf(name) + [J.QUOTATION]
  }

  const SCHEMA_VERSION_NAME: seq<Byte> := NameOf("schema_version")
  const TOTAL_NAME: seq<Byte> := NameOf("total")
  const OMITTED_NAME: seq<Byte> := NameOf("omitted")
  const ENTRIES_NAME: seq<Byte> := NameOf("entries")
  const GEOLOCATION_NAME: seq<Byte> := NameOf("geolocation")
  const LATITUDE_NAME: seq<Byte> := NameOf("latitude")
  const LONGITUDE_NAME: seq<Byte> := NameOf("longitude")
  const ASN_NAME: seq<Byte> := NameOf("asn")
  const NUMBER_NAME: seq<Byte> := NameOf("number")

  function TextLeaf(text: seq<Unit>): J.Json { J.Leaf(if WellFormed(GoQuoted(text)) then Utf8(GoQuoted(text)) else []) }

  function Digits(n: nat): seq<Byte> { AsBytes(Decimal(n)) }

  function NumberLeaf(n: nat): J.Json { J.Leaf(Digits(n)) }

  /** ASCII text byte by byte. */
  function AsBytes(text: seq<Unit>): (r: seq<Byte>)
    requires forall i :: 0 <= i < |text| ==> text[i] < 0x80
    ensures |r| == |text|
  {
    seq(|text|, i requires 0 <= i < |text| => text[i])
  }

  function FieldMember(f: GeoSidecar.Field): J.Member {
    J.Member([J.QUOTATION] + AsBytes(f.key) + [J.QUOTATION], TextLeaf(f.value))
  }

  function FieldMembers(fields: seq<GeoSidecar.Field>): (r: seq<J.Member>)
    ensures |r| == |fields| && forall k :: 0 <= k < |r| ==> r[k] == FieldMember(fields[k])
  {
    seq(|fields|, k requires 0 <= k < |fields| => FieldMember(fields[k]))
  }

  /** Each entry with its members in order. */
  function EntryItems(entries: seq<GeoSidecar.Entry>): (r: seq<J.Json>)
    ensures |r| == |entries| && forall k :: 0 <= k < |r| ==> r[k] == J.Members(FieldMembers(entries[k]))
  {
    seq(|entries|, k requires 0 <= k < |entries| => J.Members(FieldMembers(entries[k])))
  }

  function SidecarTree(s: GeoSidecar.Sidecar): J.Json {
    J.Members([J.Member(SCHEMA_VERSION_NAME, J.Leaf([0x31])), J.Member(TOTAL_NAME, NumberLeaf(s.total)),
               J.Member(OMITTED_NAME, NumberLeaf(s.omitted)), J.Member(ENTRIES_NAME, J.Items(EntryItems(s.entries)))])
  }

  /** A name that needs no escape. */
  predicate PlainKey(key: seq<Unit>) { forall i :: 0 <= i < |key| ==> key[i] < 0x80 && key[i] != QUOTE && key[i] != BACKSLASH }

  predicate PlainKeys(fields: seq<GeoSidecar.Field>) { forall k :: 0 <= k < |fields| ==> PlainKey(fields[k].key) }

  // ----- Printing from the back -----

  lemma {:induction false} MembersSnoc(ms: seq<J.Member>, m: J.Member, after: bool)
    ensures J.PrintMembers(ms + [m], after) ==
            J.PrintMembers(ms, after) + (if after || ms != [] then [J.COMMA] else []) + m.name + [J.COLON] + J.Print(m.value)
    decreases |ms|
  {
    hide J.Print;
    if ms == [] {
      assert ms + [m] == [m];
      assert [m][1..] == [];
    } else {
      MembersSnoc(ms[1..], m, true);
      assert (ms + [m])[1..] == ms[1..] + [m] && (ms + [m])[0] == ms[0];
    }
  }

  lemma {:induction false} ItemsSnoc(js: seq<J.Json>, j: J.Json, after: bool)
    ensures J.PrintItems(js + [j], after) == J.PrintItems(js, after) + (if after || js != [] then [J.COMMA] else []) + J.Print(j)
    decreases |js|
  {
    hide J.Print;
    if js == [] {
      assert js + [j] == [j];
      assert [j][1..] == [];
    } else {
      ItemsSnoc(js[1..], j, true);
      assert (js + [j])[1..] == js[1..] + [j] && (js + [j])[0] == js[0];
    }
  }

  lemma Bytes(text: seq<Unit>)
    requires forall i :: 0 <= i < |text| ==> text[i] < 0x80
    ensures WellFormed(text) && Utf8(text) == AsBytes(text)
  {
    AsciiBytes(text);
  }

  lemma FieldWires(f: GeoSidecar.Field)
    requires f.Encodable() && PlainKey(f.key)
    ensures WellFormed(f.Wire()) && Utf8(f.Wire()) == FieldMember(f).name + [J.COLON] + J.Print(FieldMember(f).value)
    ensures J.StringToken(FieldMember(f).name) && J.Lexical(FieldMember(f).value)
  {
    hide GoQuoted, Utf8, J.StringToken;
    QuotedIsToken(f.value);
    var key := [QUOTE] + f.key + [QUOTE, COLON];
    Bytes(key);
    Utf8Append(key, GoQuoted(f.value));
    assert AsBytes(key) == FieldMember(f).name + [J.COLON];
    NameIsToken(AsBytes(f.key));
  }

  lemma NameIsToken(name: seq<Byte>)
    requires Inner(name)
    ensures J.StringToken([J.QUOTATION] + name + [J.QUOTATION])
  {
    var s := [J.QUOTATION] + name + [J.QUOTATION];
    assert s[1..1 + |name|] == name;
    InnerSkipped(s, 1, 1 + |name|);
  }

  lemma LastField(fields: seq<GeoSidecar.Field>)
    requires fields != []
    ensures var front, last := fields[..|fields| - 1], fields[|fields| - 1];
            && FieldMembers(fields) == FieldMembers(front) + [FieldMember(last)]
            && GeoSidecar.FieldsText(fields) == GeoSidecar.FieldsText(front) + (if |fields| > 1 then [COMMA] else []) + last.Wire()
  {
    hide FieldMember, GoQuoted;
  }

  lemma Grouped(a: seq<Byte>, b: seq<Byte>, c: seq<Byte>, d: seq<Byte>, e: seq<Byte>)
    ensures a + b + (c + d + e) == a + b + c + d + e
  {
  }

  lemma {:induction false} FieldsWire(fields: seq<GeoSidecar.Field>)
    requires GeoSidecar.Encodable(fields) && PlainKeys(fields)
    ensures WellFormed(GeoSidecar.FieldsText(fields)) && Utf8(GeoSidecar.FieldsText(fields)) == J.PrintMembers(FieldMembers(fields), false)
    ensures forall k :: 0 <= k < |fields| ==> J.StringToken(FieldMembers(fields)[k].name) && J.Lexical(FieldMembers(fields)[k].value)
    decreases |fields|
  {
    hide Utf8, WellFormed, J.Print, J.PrintMembers, J.StringToken, J.Lexical, FieldMember, PlainKey, GeoSidecar.FieldsText, GoQuoted;
    if fields == [] {
      NoText();
      assert FieldMembers(fields) == [];
    } else {
      var front, last := fields[..|fields| - 1], fields[|fields| - 1];
      FieldsWire(front);
      FieldWires(last);
      LastField(fields);
      MembersSnoc(FieldMembers(front), FieldMember(last), false);
      var comma := if |fields| > 1 then [COMMA] else [];
      CommaBytes(|fields| > 1);
      Utf8Append(GeoSidecar.FieldsText(front), comma);
      Utf8Append(GeoSidecar.FieldsText(front) + comma, last.Wire());
      Grouped(J.PrintMembers(FieldMembers(front), false), if |fields| > 1 then [J.COMMA] else [], FieldMember(last).name, [J.COLON], J.Print(FieldMember(last).value));
    }
  }

  lemma NoText()
    ensures WellFormed([]) && Utf8([]) == [] && GeoSidecar.FieldsText([]) == [] && J.PrintMembers([], false) == []
  {
  }

  lemma CommaBytes(after: bool)
    ensures var comma := if after then [COMMA] else []; WellFormed(comma) && Utf8(comma) == if after then [J.COMMA] else []
  {
    Bytes(if after then [COMMA] else []);
  }

  lemma EntryWires(entry: GeoSidecar.Entry)
    requires GeoSidecar.Encodable(entry) && PlainKeys(entry)
    ensures WellFormed(GeoSidecar.EntryText(entry)) && Utf8(GeoSidecar.EntryText(entry)) == J.Print(J.Members(FieldMembers(entry)))
    ensures J.Lexical(J.Members(FieldMembers(entry)))
  {
    hide Utf8, J.PrintMembers, J.StringToken;
    FieldsWire(entry);
    Bytes([0x7b]);
    Bytes([0x7d]);
    Utf8Append([0x7b], GeoSidecar.FieldsText(entry));
    Utf8Append([0x7b] + GeoSidecar.FieldsText(entry), [0x7d]);
  }

  lemma {:induction false} EntriesWire(entries: seq<GeoSidecar.Entry>)
    requires GeoSidecar.AllEncodable(entries) && forall k :: 0 <= k < |entries| ==> PlainKeys(entries[k])
    ensures WellFormed(GeoSidecar.EntriesText(entries)) && Utf8(GeoSidecar.EntriesText(entries)) == J.PrintItems(EntryItems(entries), false)
    ensures forall k :: 0 <= k < |entries| ==> J.Lexical(EntryItems(entries)[k])
    decreases |entries|
  {
    hide Utf8, J.Print, J.PrintItems, J.Lexical, GeoSidecar.EntryText;
    if entries == [] {
      NoEntries();
      assert EntryItems(entries) == [];
    } else {
      var front, last := entries[..|entries| - 1], entries[|entries| - 1];
      EntriesWire(front);
      EntryWires(last);
      assert EntryItems(entries) == EntryItems(front) + [J.Members(FieldMembers(last))];
      ItemsSnoc(EntryItems(front), J.Members(FieldMembers(last)), false);
      var comma := if |entries| > 1 then [COMMA] else [];
      CommaBytes(|entries| > 1);
      Utf8Append(GeoSidecar.EntriesText(front), comma);
      Utf8Append(GeoSidecar.EntriesText(front) + comma, GeoSidecar.EntryText(last));
    }
  }

  lemma NoEntries()
    ensures Utf8([]) == [] && GeoSidecar.EntriesText([]) == [] && J.PrintItems([], false) == []
  {
  }

  lemma DecimalBytes(n: nat)
    ensures WellFormed(Decimal(n)) && Utf8(Decimal(n)) == Digits(n) && J.Lexical(NumberLeaf(n))
  {
    hide Decimal;
    Bytes(Decimal(n));
    BareDigits(Digits(n), 0);
  }

  lemma {:induction false} BareDigits(s: seq<Byte>, i: nat)
    requires i <= |s| && forall k :: 0 <= k < |s| ==> 0x30 <= s[k] <= 0x39
    ensures J.BareEnd(s, i) == |s|
    decreases |s| - i
  {
    if i < |s| {
      BareDigits(s, i + 1);
    }
  }

  function Piece(m: J.Member): seq<Byte> { m.name + [J.COLON] + J.Print(m.value) }

  lemma PieceSnoc(ms: seq<J.Member>, m: J.Member)
    ensures J.PrintMembers(ms + [m], false) == J.PrintMembers(ms, false) + (if ms != [] then [J.COMMA] else []) + Piece(m)
  {
    hide J.Print, J.PrintMembers;
    MembersSnoc(ms, m, false);
    var front, comma := J.PrintMembers(ms, false), if ms != [] then [J.COMMA] else [];
    Grouped(front, comma, m.name, [J.COLON], J.Print(m.value));
  }

  lemma FourMembers(a: J.Member, b: J.Member, c: J.Member, d: J.Member)
    ensures J.Print(J.Members([a, b, c, d])) ==
            [0x7b] + (Piece(a) + [J.COMMA] + Piece(b) + [J.COMMA] + Piece(c) + [J.COMMA] + Piece(d)) + [0x7d]
  {
    hide J.Print, J.PrintMembers, Piece;
    NoText();
    PieceSnoc([], a);
    PieceSnoc([a], b);
    PieceSnoc([a, b], c);
    PieceSnoc([a, b, c], d);
    assert [] + [a] == [a] && [a] + [b] == [a, b] && [a, b] + [c] == [a, b, c] && [a, b, c] + [d] == [a, b, c, d];
    assert [] + [] + Piece(a) == Piece(a);
    PrintsAround([a, b, c, d]);
  }

  lemma PrintsAround(ms: seq<J.Member>)
    ensures J.Print(J.Members(ms)) == [0x7b] + J.PrintMembers(ms, false) + [0x7d]
  {
  }

  const OPENING: seq<Unit> := GeoSidecar.Ascii("{\"schema_version\":1,\"total\":")
  const OMITTED: seq<Unit> := GeoSidecar.Ascii(",\"omitted\":")
  const ENTRIES: seq<Unit> := GeoSidecar.Ascii(",\"entries\":[")
  const CLOSING: seq<Unit> := GeoSidecar.Ascii("]}")

  lemma Punctuation()
    ensures AsBytes(OPENING) == [0x7b] + (SCHEMA_VERSION_NAME + [J.COLON] + [0x31]) + [J.COMMA] + TOTAL_NAME + [J.COLON]
    ensures AsBytes(OMITTED) == [J.COMMA] + OMITTED_NAME + [J.COLON]
    ensures AsBytes(ENTRIES) == [J.COMMA] + ENTRIES_NAME + [J.COLON] + [0x5b]
    ensures AsBytes(CLOSING) == [0x5d, 0x7d]
  {
  }

  lemma NamesAreTokens()
    ensures J.StringToken(SCHEMA_VERSION_NAME) && J.StringToken(TOTAL_NAME) && J.StringToken(OMITTED_NAME) && J.StringToken(ENTRIES_NAME)
  {
    hide J.StringToken;
    NameIsToken(BytesOf("schema_version"));
    NameIsToken(BytesOf("total"));
    NameIsToken(BytesOf("omitted"));
    NameIsToken(BytesOf("entries"));
  }

  lemma SidecarBytes(s: GeoSidecar.Sidecar)
    requires GeoSidecar.AllEncodable(s.entries) && forall k :: 0 <= k < |s.entries| ==> PlainKeys(s.entries[k])
    ensures WellFormed(GeoSidecar.SidecarText(s))
    ensures Utf8(GeoSidecar.SidecarText(s)) ==
            AsBytes(OPENING) + Digits(s.total) + AsBytes(OMITTED) + Digits(s.omitted) + AsBytes(ENTRIES)
            + J.PrintItems(EntryItems(s.entries), false) + AsBytes(CLOSING)
  {
    hide Utf8, WellFormed, Decimal, AsBytes, J.PrintItems, GeoSidecar.EntriesText, PlainKeys;
    EntriesWire(s.entries);
    DecimalBytes(s.total);
    DecimalBytes(s.omitted);
    Bytes(OPENING);
    Bytes(OMITTED);
    Bytes(ENTRIES);
    Bytes(CLOSING);
    var a, b, c, d := OPENING, Decimal(s.total), OMITTED, Decimal(s.omitted);
    Utf8Append(a, b);
    Utf8Append(a + b, c);
    Utf8Append(a + b + c, d);
    Utf8Append(a + b + c + d, ENTRIES);
    assert GeoSidecar.Head(s) == a + b + c + d + ENTRIES;
    Utf8Append(GeoSidecar.Head(s), GeoSidecar.EntriesText(s.entries));
    Utf8Append(GeoSidecar.Head(s) + GeoSidecar.EntriesText(s.entries), CLOSING);
  }

  /** The sidecar reads back as its version, its counts and each entry with its members in order. */
  lemma SidecarReadsBack(s: GeoSidecar.Sidecar)
    requires GeoSidecar.AllEncodable(s.entries) && forall k :: 0 <= k < |s.entries| ==> PlainKeys(s.entries[k])
    ensures WellFormed(GeoSidecar.SidecarText(s)) && J.ReadValue(Utf8(GeoSidecar.SidecarText(s))) == Some((SidecarTree(s), []))
  {
    hide *;
    SidecarBytes(s);
    SidecarPrints(s);
    NothingFollows();
    J.ReaderUndoesPrinter(SidecarTree(s), []);
    assert J.Print(SidecarTree(s)) + [] == J.Print(SidecarTree(s));
  }

  lemma NothingFollows()
    ensures J.Follows([])
  {
  }

  lemma Pieces(s: GeoSidecar.Sidecar)
    ensures Piece(J.Member(SCHEMA_VERSION_NAME, J.Leaf([0x31]))) == SCHEMA_VERSION_NAME + [J.COLON] + [0x31]
    ensures Piece(J.Member(TOTAL_NAME, NumberLeaf(s.total))) == TOTAL_NAME + [J.COLON] + Digits(s.total)
    ensures Piece(J.Member(OMITTED_NAME, NumberLeaf(s.omitted))) == OMITTED_NAME + [J.COLON] + Digits(s.omitted)
    ensures Piece(J.Member(ENTRIES_NAME, J.Items(EntryItems(s.entries)))) ==
            ENTRIES_NAME + [J.COLON] + ([0x5b] + J.PrintItems(EntryItems(s.entries), false) + [0x5d])
  {
    hide J.PrintItems, NameOf, AsBytes, Decimal, EntryItems;
  }

  lemma Laid(a: seq<Byte>, b: seq<Byte>, total: seq<Byte>, c: seq<Byte>, omitted: seq<Byte>, d: seq<Byte>, items: seq<Byte>)
    ensures [0x7b] + (a + [J.COMMA] + (b + [J.COLON] + total) + [J.COMMA] + (c + [J.COLON] + omitted) + [J.COMMA]
                      + (d + [J.COLON] + ([0x5b] + items + [0x5d]))) + [0x7d] ==
            ([0x7b] + a + [J.COMMA] + b + [J.COLON]) + total + ([J.COMMA] + c + [J.COLON]) + omitted + ([J.COMMA] + d + [J.COLON] + [0x5b])
            + items + [0x5d, 0x7d]
  {
  }

  lemma LexicalTree(s: GeoSidecar.Sidecar, a: J.Member, b: J.Member, c: J.Member, d: J.Member)
    requires SidecarTree(s) == J.Members([a, b, c, d])
    requires J.StringToken(a.name) && J.StringToken(b.name) && J.StringToken(c.name) && J.StringToken(d.name)
    requires a.value == J.Leaf([0x31]) && J.Lexical(b.value) && J.Lexical(c.value)
    requires d.value == J.Items(EntryItems(s.entries)) && forall k :: 0 <= k < |s.entries| ==> J.Lexical(EntryItems(s.entries)[k])
    ensures J.Lexical(SidecarTree(s))
  {
    hide J.StringToken, EntryItems, SidecarTree;
    BareDigits([0x31], 0);
  }

  lemma SidecarPrints(s: GeoSidecar.Sidecar)
    requires GeoSidecar.AllEncodable(s.entries) && forall k :: 0 <= k < |s.entries| ==> PlainKeys(s.entries[k])
    ensures J.Lexical(SidecarTree(s))
    ensures J.Print(SidecarTree(s)) ==
            AsBytes(OPENING) + Digits(s.total) + AsBytes(OMITTED) + Digits(s.omitted) + AsBytes(ENTRIES)
            + J.PrintItems(EntryItems(s.entries), false) + AsBytes(CLOSING)
  {
    hide J.Print, J.PrintMembers, J.PrintItems, J.StringToken, J.Lexical, AsBytes, NameOf, Decimal, PlainKeys, EntryItems, Piece, GeoSidecar.Encodable;
    var version, total := J.Member(SCHEMA_VERSION_NAME, J.Leaf([0x31])), J.Member(TOTAL_NAME, NumberLeaf(s.total));
    var omitted, entries := J.Member(OMITTED_NAME, NumberLeaf(s.omitted)), J.Member(ENTRIES_NAME, J.Items(EntryItems(s.entries)));
    EntriesWire(s.entries);
    FourMembers(version, total, omitted, entries);
    NamesAreTokens();
    DecimalBytes(s.total);
    DecimalBytes(s.omitted);
    Pieces(s);
    Punctuation();
    Laid(SCHEMA_VERSION_NAME + [J.COLON] + [0x31], TOTAL_NAME, Digits(s.total), OMITTED_NAME, Digits(s.omitted),
         ENTRIES_NAME, J.PrintItems(EntryItems(s.entries), false));
    LexicalTree(s, version, total, omitted, entries);
  }

  // ----- Geo bundles -----

  /** A string member that is left out when it is empty. */
  function Given(name: string, value: seq<Unit>): seq<J.Member>
    requires forall i :: 0 <= i < |name| ==> name[i] as int < 0x80
  {
    if value == [] then [] else [J.Member(NameOf(name), TextLeaf(value))]
  }

  function GeoNames(g: R.Geolocation): seq<J.Member> {
    Given("city", g.city) + Given("region", g.region) + Given("country", g.country) + Given("country_code", g.countryCode)
  }

  function GeoTree(g: R.Geolocation): J.Json {
    J.Members(GeoNames(g) + [J.Member(LATITUDE_NAME, J.Leaf(AsBytes(g.latitude)))] + [J.Member(LONGITUDE_NAME, J.Leaf(AsBytes(g.longitude)))])
  }

  function AsnMembers(a: R.Asn): seq<J.Member> {
    (if a.number == 0 then [] else [J.Member(NUMBER_NAME, NumberLeaf(a.number))]) + Given("organization", a.organization)
  }

  /** What a bundle adds to its node. */
  function BundleMembers(b: R.Bundle): seq<J.Member> {
    (if b.geolocation.Some? then [J.Member(GEOLOCATION_NAME, GeoTree(b.geolocation.value))] else [])
    + (if b.asn.Some? then [J.Member(ASN_NAME, J.Members(AsnMembers(b.asn.value)))] else [])
  }

  /** The coordinates are bare words such as numbers. */
  predicate Numbered(b: R.Bundle) {
    b.geolocation.Some? ==> J.BareToken(AsBytes(b.geolocation.value.latitude)) && J.BareToken(AsBytes(b.geolocation.value.longitude))
  }

  lemma OneGiven(name: string, value: seq<Unit>)
    requires (forall i :: 0 <= i < |name| ==> name[i] as int < 0x80) && PlainKey(GeoSidecar.Ascii(name))
    ensures FieldMembers(R.Optional(name, value)) == Given(name, value) && PlainKeys(R.Optional(name, value))
  {
    if value != [] {
      assert AsBytes(GeoSidecar.Ascii(name)) == BytesOf(name);
    }
  }

  lemma FieldMembersAppend(a: seq<GeoSidecar.Field>, b: seq<GeoSidecar.Field>)
    ensures FieldMembers(a + b) == FieldMembers(a) + FieldMembers(b) && (PlainKeys(a) && PlainKeys(b) ==> PlainKeys(a + b))
  {
    hide FieldMember, PlainKey;
  }

  lemma GeoNamesAre(g: R.Geolocation)
    ensures FieldMembers(R.GeoStrings(g)) == GeoNames(g) && PlainKeys(R.GeoStrings(g))
  {
    hide FieldMembers, Given, R.Optional, PlainKeys;
    OneGiven("city", g.city);
    OneGiven("region", g.region);
    OneGiven("country", g.country);
    OneGiven("country_code", g.countryCode);
    var a, b, c, d := R.Optional("city", g.city), R.Optional("region", g.region), R.Optional("country", g.country), R.Optional("country_code", g.countryCode);
    FieldMembersAppend(a, b);
    FieldMembersAppend(a + b, c);
    FieldMembersAppend(a + b + c, d);
  }

  const GEO: seq<Unit> := GeoSidecar.Ascii(",\"geolocation\":{")
  const ASN: seq<Unit> := GeoSidecar.Ascii(",\"asn\":{")
  const NUMBER: seq<Unit> := GeoSidecar.Ascii("\"number\":")

  lemma GeoPunctuation()
    ensures AsBytes(GEO) == [J.COMMA] + GEOLOCATION_NAME + [J.COLON] + [0x7b]
    ensures AsBytes(R.LATITUDE) == LATITUDE_NAME + [J.COLON]
    ensures AsBytes(R.LONGITUDE) == [J.COMMA] + LONGITUDE_NAME + [J.COLON]
    ensures AsBytes(ASN) == [J.COMMA] + ASN_NAME + [J.COLON] + [0x7b]
    ensures AsBytes(NUMBER) == NUMBER_NAME + [J.COLON]
  {
  }

  lemma GeoTokens()
    ensures J.StringToken(GEOLOCATION_NAME) && J.StringToken(LATITUDE_NAME) && J.StringToken(LONGITUDE_NAME)
    ensures J.StringToken(ASN_NAME) && J.StringToken(NUMBER_NAME)
  {
    hide J.StringToken;
    NameIsToken(BytesOf("geolocation"));
    NameIsToken(BytesOf("latitude"));
    NameIsToken(BytesOf("longitude"));
    NameIsToken(BytesOf("asn"));
    NameIsToken(BytesOf("number"));
  }

  lemma AsBytesAppend(a: seq<Unit>, b: seq<Unit>)
    requires (forall i :: 0 <= i < |a| ==> a[i] < 0x80) && (forall i :: 0 <= i < |b| ==> b[i] < 0x80)
    ensures (forall i :: 0 <= i < |a + b| ==> (a + b)[i] < 0x80) && AsBytes(a + b) == AsBytes(a) + AsBytes(b)
  {
  }

  lemma CoordinateBytes(g: R.Geolocation)
    ensures WellFormed(R.Coordinates(g))
    ensures Utf8(R.Coordinates(g)) ==
            (if GeoNames(g) != [] then [J.COMMA] else []) + (LATITUDE_NAME + [J.COLON]) + AsBytes(g.latitude)
            + ([J.COMMA] + LONGITUDE_NAME + [J.COLON]) + AsBytes(g.longitude) + [0x7d]
  {
    hide AsBytes, NameOf, Utf8, WellFormed, R.GeoStrings, GeoNames;
    GeoNamesAre(g);
    assert |FieldMembers(R.GeoStrings(g))| == |R.GeoStrings(g)|;
    var comma := R.Comma(R.GeoStrings(g) != []);
    GeoPunctuation();
    Bytes(R.Coordinates(g));
    AsBytesAppend(comma, R.LATITUDE);
    AsBytesAppend(comma + R.LATITUDE, g.latitude);
    AsBytesAppend(comma + R.LATITUDE + g.latitude, R.LONGITUDE);
    AsBytesAppend(comma + R.LATITUDE + g.latitude + R.LONGITUDE, g.longitude);
    AsBytesAppend(comma + R.LATITUDE + g.latitude + R.LONGITUDE + g.longitude, [0x7d]);
    Short(R.GeoStrings(g) != []);
  }

  lemma Short(after: bool)
    ensures AsBytes(R.Comma(after)) == (if after then [J.COMMA] else []) && AsBytes([0x7d]) == [0x7d] && AsBytes([0x7b]) == [0x7b]
  {
  }

  lemma GeoBytes(g: R.Geolocation)
    requires GeoSidecar.Encodable(R.GeoStrings(g))
    ensures WellFormed(R.GeoText(g))
    ensures Utf8(R.GeoText(g)) ==
            ([J.COMMA] + GEOLOCATION_NAME + [J.COLON] + [0x7b]) + J.PrintMembers(GeoNames(g), false)
            + ((if GeoNames(g) != [] then [J.COMMA] else []) + (LATITUDE_NAME + [J.COLON]) + AsBytes(g.latitude)
               + ([J.COMMA] + LONGITUDE_NAME + [J.COLON]) + AsBytes(g.longitude) + [0x7d])
  {
    hide AsBytes, NameOf, Utf8, WellFormed, R.GeoStrings, GeoNames, R.Coordinates, GeoSidecar.FieldsText, GeoSidecar.Encodable, PlainKeys,
         FieldMembers, J.PrintMembers, J.StringToken, J.Lexical;
    var strings := R.GeoStrings(g);
    GeoNamesAre(g);
    FieldsWire(strings);
    CoordinateBytes(g);
    Bytes(GEO);
    Utf8Append(GEO, GeoSidecar.FieldsText(strings));
    Utf8Append(GEO + GeoSidecar.FieldsText(strings), R.Coordinates(g));
    GeoPunctuation();
  }

  lemma GeoPrints(g: R.Geolocation)
    requires GeoSidecar.Encodable(R.GeoStrings(g)) && J.BareToken(AsBytes(g.latitude)) && J.BareToken(AsBytes(g.longitude))
    ensures Piece(J.Member(GEOLOCATION_NAME, GeoTree(g))) ==
            GEOLOCATION_NAME + [J.COLON]
            + ([0x7b] + (J.PrintMembers(GeoNames(g), false) + (if GeoNames(g) != [] then [J.COMMA] else []) + (LATITUDE_NAME + [J.COLON] + AsBytes(g.latitude))
                         + [J.COMMA] + (LONGITUDE_NAME + [J.COLON] + AsBytes(g.longitude))) + [0x7d])
    ensures J.Lexical(GeoTree(g))
  {
    hide AsBytes, NameOf, R.GeoStrings, GeoNames, GeoSidecar.Encodable, PlainKeys, FieldMembers, Piece, J.Print, J.PrintMembers, J.StringToken, J.Lexical, J.BareToken;
    GeoNamesAre(g);
    FieldsWire(R.GeoStrings(g));
    GeoTokens();
    var lat, long := J.Member(LATITUDE_NAME, J.Leaf(AsBytes(g.latitude))), J.Member(LONGITUDE_NAME, J.Leaf(AsBytes(g.longitude)));
    PieceSnoc(GeoNames(g), lat);
    PieceSnoc(GeoNames(g) + [lat], long);
    PrintsAround(GeoNames(g) + [lat] + [long]);
    PieceIs(J.Member(GEOLOCATION_NAME, GeoTree(g)));
    LeafPieces(lat, AsBytes(g.latitude));
    LeafPieces(long, AsBytes(g.longitude));
    AllLexical(GeoNames(g), lat, long);
  }

  lemma PieceIs(m: J.Member)
    ensures Piece(m) == m.name + [J.COLON] + J.Print(m.value)
  {
  }

  lemma GeoWires(g: R.Geolocation)
    requires GeoSidecar.Encodable(R.GeoStrings(g)) && J.BareToken(AsBytes(g.latitude)) && J.BareToken(AsBytes(g.longitude))
    ensures WellFormed(R.GeoText(g)) && Utf8(R.GeoText(g)) == [J.COMMA] + Piece(J.Member(GEOLOCATION_NAME, GeoTree(g)))
    ensures J.Lexical(GeoTree(g))
  {
    hide *;
    GeoBytes(g);
    GeoPrints(g);
    GeoLaid(GEOLOCATION_NAME, J.PrintMembers(GeoNames(g), false), if GeoNames(g) != [] then [J.COMMA] else [],
            LATITUDE_NAME, AsBytes(g.latitude), LONGITUDE_NAME, AsBytes(g.longitude));
  }

  lemma LeafPieces(m: J.Member, token: seq<Byte>)
    requires m.value == J.Leaf(token)
    ensures Piece(m) == m.name + [J.COLON] + token
  {
  }

  lemma GeoLaid(geo: seq<Byte>, names: seq<Byte>, comma: seq<Byte>, a: seq<Byte>, lat: seq<Byte>, b: seq<Byte>, long: seq<Byte>)
    ensures [J.COMMA] + (geo + [J.COLON] + ([0x7b] + (names + comma + (a + [J.COLON] + lat) + [J.COMMA] + (b + [J.COLON] + long)) + [0x7d])) ==
            ([J.COMMA] + geo + [J.COLON] + [0x7b]) + names + (comma + (a + [J.COLON]) + lat + ([J.COMMA] + b + [J.COLON]) + long + [0x7d])
  {
  }

  lemma AllLexical(ms: seq<J.Member>, a: J.Member, b: J.Member)
    requires forall k :: 0 <= k < |ms| ==> J.StringToken(ms[k].name) && J.Lexical(ms[k].value)
    requires J.StringToken(a.name) && J.StringToken(b.name) && a.value.Leaf? && b.value.Leaf? && J.BareToken(a.value.token) && J.BareToken(b.value.token)
    ensures J.Lexical(J.Members(ms + [a] + [b]))
  {
    hide J.StringToken, J.BareToken;
  }

  lemma AsnNamesAre(a: R.Asn)
    ensures FieldMembers(R.AsnStrings(a)) == Given("organization", a.organization) && PlainKeys(R.AsnStrings(a))
    ensures |R.AsnStrings(a)| == if a.organization != [] then 1 else 0
  {
    OneGiven("organization", a.organization);
  }

  lemma NumberBytes(a: R.Asn)
    ensures var text := if a.number == 0 then [] else NUMBER + Decimal(a.number);
            && (forall i :: 0 <= i < |text| ==> text[i] < 0x80)
            && AsBytes(text) == if a.number == 0 then [] else NUMBER_NAME + [J.COLON] + Digits(a.number)
  {
    hide Decimal, NameOf, AsBytes;
    GeoPunctuation();
    if a.number != 0 {
      AsBytesAppend(NUMBER, Decimal(a.number));
    } else {
      EmptyBytes();
    }
  }

  lemma EmptyBytes()
    ensures AsBytes([]) == []
  {
  }

  lemma AsnBytes(a: R.Asn)
    requires GeoSidecar.Encodable(R.AsnStrings(a))
    ensures WellFormed(R.AsnText(a))
    ensures Utf8(R.AsnText(a)) ==
            ([J.COMMA] + ASN_NAME + [J.COLON] + [0x7b]) + (if a.number == 0 then [] else NUMBER_NAME + [J.COLON] + Digits(a.number))
            + (if a.number != 0 && a.organization != [] then [J.COMMA] else []) + J.PrintMembers(Given("organization", a.organization), false) + [0x7d]
  {
    hide AsBytes, NameOf, Utf8, WellFormed, R.AsnStrings, Given, GeoSidecar.FieldsText, GeoSidecar.Encodable, PlainKeys, FieldMembers, Decimal,
         J.PrintMembers, J.StringToken, J.Lexical;
    var strings := R.AsnStrings(a);
    var number := if a.number == 0 then [] else NUMBER + Decimal(a.number);
    var comma := R.Comma(a.number != 0 && a.organization != []);
    AsnNamesAre(a);
    FieldsWire(strings);
    NumberBytes(a);
    GeoPunctuation();
    Short(a.number != 0 && a.organization != []);
    Bytes(ASN);
    Bytes(number);
    Bytes(comma);
    Bytes([0x7d]);
    Utf8Append(ASN, number);
    Utf8Append(ASN + number, comma);
    Utf8Append(ASN + number + comma, GeoSidecar.FieldsText(strings));
    Utf8Append(ASN + number + comma + GeoSidecar.FieldsText(strings), [0x7d]);
    assert R.AsnText(a) == ASN + number + comma + GeoSidecar.FieldsText(strings) + [0x7d];
  }

  lemma {:induction false} MembersAppend(ms: seq<J.Member>, more: seq<J.Member>, after: bool)
    ensures J.PrintMembers(ms + more, after) == J.PrintMembers(ms, after) + J.PrintMembers(more, after || ms != [])
    decreases |ms|
  {
    hide J.Print;
    if ms == [] {
      assert ms + more == more;
    } else {
      MembersAppend(ms[1..], more, true);
      assert (ms + more)[1..] == ms[1..] + more && (ms + more)[0] == ms[0];
    }
  }

  lemma OneMember(m: J.Member, after: bool)
    ensures J.PrintMembers([m], after) == (if after then [J.COMMA] else []) + Piece(m)
  {
    hide J.Print;
    assert [m][1..] == [];
  }

  lemma MembersLexical(ms: seq<J.Member>)
    requires forall k :: 0 <= k < |ms| ==> J.StringToken(ms[k].name) && J.Lexical(ms[k].value)
    ensures J.Lexical(J.Members(ms))
  {
    hide J.StringToken;
  }

  lemma AsnPrints(a: R.Asn)
    requires GeoSidecar.Encodable(R.AsnStrings(a))
    ensures Piece(J.Member(ASN_NAME, J.Members(AsnMembers(a)))) ==
            ASN_NAME + [J.COLON]
            + ([0x7b] + ((if a.number == 0 then [] else NUMBER_NAME + [J.COLON] + Digits(a.number))
                         + ((if a.number != 0 && a.organization != [] then [J.COMMA] else []) + J.PrintMembers(Given("organization", a.organization), false))) + [0x7d])
    ensures J.Lexical(J.Members(AsnMembers(a)))
  {
    hide Digits, NameOf, R.AsnStrings, Given, GeoSidecar.Encodable, PlainKeys, FieldMembers, Piece, J.Print, J.PrintMembers, J.StringToken, J.Lexical;
    AsnNamesAre(a);
    FieldsWire(R.AsnStrings(a));
    GeoTokens();
    DecimalBytes(a.number);
    var org := Given("organization", a.organization);
    var number := J.Member(NUMBER_NAME, NumberLeaf(a.number));
    PieceIs(J.Member(ASN_NAME, J.Members(AsnMembers(a))));
    PrintsAround(AsnMembers(a));
    GivenPrints(a.organization);
    NoMore();
    if a.number == 0 {
      assert AsnMembers(a) == [] + org == org;
      assert [] + ([] + J.PrintMembers(org, false)) == J.PrintMembers(org, false);
    } else {
      MembersAppend([number], org, false);
      OneMember(number, false);
      assert [] + Piece(number) == Piece(number);
      LeafPieces(number, Digits(a.number));
    }
    MembersLexical(AsnMembers(a));
  }

  lemma GivenPrints(organization: seq<Unit>)
    ensures var org := Given("organization", organization);
            J.PrintMembers(org, true) == (if organization != [] then [J.COMMA] else []) + J.PrintMembers(org, false)
  {
    hide NameOf, TextLeaf, Piece, J.Print, J.PrintMembers;
    NoMore();
    if organization != [] {
      OneMember(J.Member(NameOf("organization"), TextLeaf(organization)), true);
      OneMember(J.Member(NameOf("organization"), TextLeaf(organization)), false);
    }
  }

  lemma NoMore()
    ensures J.PrintMembers([], true) == [] && J.PrintMembers([], false) == []
  {
  }

  lemma AsnWires(a: R.Asn)
    requires GeoSidecar.Encodable(R.AsnStrings(a))
    ensures WellFormed(R.AsnText(a)) && Utf8(R.AsnText(a)) == [J.COMMA] + Piece(J.Member(ASN_NAME, J.Members(AsnMembers(a))))
    ensures J.Lexical(J.Members(AsnMembers(a)))
  {
    hide *;
    AsnBytes(a);
    AsnPrints(a);
    AsnLaid(ASN_NAME, if a.number == 0 then [] else NUMBER_NAME + [J.COLON] + Digits(a.number),
            if a.number != 0 && a.organization != [] then [J.COMMA] else [], J.PrintMembers(Given("organization", a.organization), false));
  }

  lemma AsnLaid(asn: seq<Byte>, number: seq<Byte>, comma: seq<Byte>, org: seq<Byte>)
    ensures [J.COMMA] + (asn + [J.COLON] + ([0x7b] + (number + (comma + org)) + [0x7d])) ==
            ([J.COMMA] + asn + [J.COLON] + [0x7b]) + number + comma + org + [0x7d]
  {
  }

  lemma BundleWires(b: R.Bundle)
    requires b.Valid() && Numbered(b)
    ensures WellFormed(R.BundleText(b)) && Utf8(R.BundleText(b)) == J.PrintMembers(BundleMembers(b), true)
    ensures forall k :: 0 <= k < |BundleMembers(b)| ==> J.StringToken(BundleMembers(b)[k].name) && J.Lexical(BundleMembers(b)[k].value)
  {
    hide R.GeoText, R.AsnText, Utf8, NameOf, GeoTree, AsnMembers, Piece, J.PrintMembers, J.StringToken, J.Lexical;
    var geo, asn := if b.geolocation.Some? then R.GeoText(b.geolocation.value) else [], if b.asn.Some? then R.AsnText(b.asn.value) else [];
    var first := if b.geolocation.Some? then [J.Member(GEOLOCATION_NAME, GeoTree(b.geolocation.value))] else [];
    var second := if b.asn.Some? then [J.Member(ASN_NAME, J.Members(AsnMembers(b.asn.value)))] else [];
    GeoTokens();
    NoMore();
    EmptyBody();
    if b.geolocation.Some? {
      GeoWires(b.geolocation.value);
      OneMember(first[0], true);
    }
    if b.asn.Some? {
      AsnWires(b.asn.value);
      OneMember(second[0], true);
    }
    Utf8Append(geo, asn);
    MembersAppend(first, second, true);
  }

  /** A node whose own members are followed by its bundle's text reads back with the bundle's members after its own. */
  lemma BundleReadsBack(b: R.Bundle, own: seq<J.Member>)
    requires b.Valid() && Numbered(b) && own != [] && J.Lexical(J.Members(own))
    ensures WellFormed(R.BundleText(b))
    ensures J.ReadValue([0x7b] + J.PrintMembers(own, false) + Utf8(R.BundleText(b)) + [0x7d]) == Some((J.Members(own + BundleMembers(b)), []))
  {
    hide Utf8, R.BundleText, R.Bundle.Valid, Numbered, BundleMembers, J.Print, J.PrintMembers, J.StringToken, J.ReadValue;
    BundleWires(b);
    MembersAppend(own, BundleMembers(b), false);
    PrintsAround(own + BundleMembers(b));
    NothingFollows();
    J.ReaderUndoesPrinter(J.Members(own + BundleMembers(b)), []);
    assert J.Print(J.Members(own + BundleMembers(b))) + [] == J.Print(J.Members(own + BundleMembers(b)));
    assert [0x7b] + (J.PrintMembers(own, false) + Utf8(R.BundleText(b))) + [0x7d] == [0x7b] + J.PrintMembers(own, false) + Utf8(R.BundleText(b)) + [0x7d];
  }
}
