/** The opt-in Geo sidecar: its canonical Go encoding, and the browser's running byte count of it. */
module GeoSidecar {
  import opened Text

  type AsciiText = s: seq<Unit> | forall i :: 0 <= i < |s| ==> s[i] < 0x80

  /** One string member of an entry, in wire order. */
  datatype Field = Field(key: AsciiText, value: seq<Unit>) {
    predicate Encodable() { WellFormed(value) && |Utf8(value)| <= 4096 }

    /** The member as Go writes it: the quoted key, a colon, the quoted value. */
    function Wire(): seq<Unit> { [QUOTE] + key + [QUOTE, COLON] + GoQuoted(value) }
  }

  type Entry = seq<Field>

  datatype Sidecar = Sidecar(total: nat, omitted: nat, entries: seq<Entry>)

  const MAX_BYTES: nat := 131072

  predicate Encodable(entry: Entry) { forall i :: 0 <= i < |entry| ==> entry[i].Encodable() }

  predicate AllEncodable(entries: seq<Entry>) { forall i :: 0 <= i < |entries| ==> Encodable(entries[i]) }

  function Ascii(s: string): (r: AsciiText)
    requires forall i :: 0 <= i < |s| ==> s[i] as int < 0x80
    ensures |r| == |s|
  {
    seq(|s|, i requires 0 <= i < |s| => s[i] as int)
  }

  function FieldsText(fields: seq<Field>): seq<Unit> {
    if fields == [] then []
    else FieldsText(fields[..|fields| - 1]) + (if |fields| > 1 then [COMMA] else []) + fields[|fields| - 1].Wire()
  }

  function EntryText(entry: Entry): seq<Unit> {
    [0x7b] + FieldsText(entry) + [0x7d]
  }

  function EntriesText(entries: seq<Entry>): seq<Unit> {
    if entries == [] then []
    else
      EntriesText(entries[..|entries| - 1]) + (if |entries| > 1 then [COMMA] else [])
      + EntryText(entries[|entries| - 1])
  }

  function Head(s: Sidecar): seq<Unit> {
    Ascii("{\"schema_version\":1,\"total\":") + Decimal(s.total) + Ascii(",\"omitted\":") + Decimal(s.omitted)
    + Ascii(",\"entries\":[")
  }

  function SidecarText(s: Sidecar): seq<Unit> {
    Head(s) + EntriesText(s.entries) + Ascii("]}")
  }

  // ----- Byte lengths -----

  /** The UTF-8 length of text known to be well formed. */
  function Size(text: seq<Unit>): nat { if WellFormed(text) then |Utf8(text)| else 0 }

  lemma SizeAppend(a: seq<Unit>, b: seq<Unit>)
    requires WellFormed(a) && WellFormed(b)
    ensures WellFormed(a + b) && Size(a + b) == Size(a) + Size(b)
  {
    Utf8Append(a, b);
  }

  lemma AsciiSize(a: seq<Unit>)
    requires forall i :: 0 <= i < |a| ==> a[i] < 0x80
    ensures WellFormed(a) && Size(a) == |a|
  {
    AsciiUtf8(a);
  }

  lemma WireSize(f: Field)
    requires f.Encodable()
    ensures WellFormed(f.Wire()) && Size(f.Wire()) == |f.key| + 3 + Size(GoQuoted(f.value))
  {
    GoQuotedBytes(f.value);
    var key := [QUOTE] + f.key + [QUOTE, COLON];
    AsciiSize(key);
    SizeAppend(key, GoQuoted(f.value));
  }

  lemma FieldsStep(fields: seq<Field>, n: nat)
    requires n < |fields| && fields[n].Encodable() && WellFormed(FieldsText(fields[..n]))
    ensures WellFormed(FieldsText(fields[..n + 1]))
    ensures Size(FieldsText(fields[..n + 1])) ==
            Size(FieldsText(fields[..n])) + (if n > 0 then 1 else 0) + |fields[n].key| + 3 + Size(GoQuoted(fields[n].value))
  {
    var comma := if n > 0 then [COMMA] else [];
    assert fields[..n + 1][..n] == fields[..n] && fields[..n + 1][n] == fields[n];
    assert FieldsText(fields[..n + 1]) == FieldsText(fields[..n]) + comma + fields[n].Wire();
    AsciiSize(comma);
    WireSize(fields[n]);
    SizeAppend(FieldsText(fields[..n]), comma);
    SizeAppend(FieldsText(fields[..n]) + comma, fields[n].Wire());
  }

  /** Byte length of the first n members, commas included. */
  function FieldsSize(fields: seq<Field>, n: nat): nat
    requires n <= |fields|
  {
    if n == 0 then 0
    else FieldsSize(fields, n - 1) + (if n > 1 then 1 else 0) + |fields[n - 1].key| + 3 + Size(GoQuoted(fields[n - 1].value))
  }

  lemma {:induction false} FieldsSized(fields: seq<Field>, n: nat)
    requires n <= |fields| && Encodable(fields)
    ensures WellFormed(FieldsText(fields[..n])) && Size(FieldsText(fields[..n])) == FieldsSize(fields, n)
  {
    if n > 0 {
      FieldsSized(fields, n - 1);
      FieldsStep(fields, n - 1);
    }
  }

  lemma EntrySized(entry: Entry)
    requires Encodable(entry)
    ensures WellFormed(EntryText(entry)) && Size(EntryText(entry)) == 2 + FieldsSize(entry, |entry|)
  {
    hide FieldsText, FieldsSize, WellFormed, Size;
    FieldsSized(entry, |entry|);
    assert entry[..|entry|] == entry;
    AsciiSize([0x7b]);
    AsciiSize([0x7d]);
    SizeAppend([0x7b], FieldsText(entry));
    SizeAppend([0x7b] + FieldsText(entry), [0x7d]);
  }

  /** Byte length of the first n entries, commas included. */
  function EntriesSize(entries: seq<Entry>, n: nat): (r: nat)
    requires n <= |entries|
    ensures r >= 2 * n
  {
    if n == 0 then 0
    else EntriesSize(entries, n - 1) + (if n > 1 then 1 else 0) + 2 + FieldsSize(entries[n - 1], |entries[n - 1]|)
  }

  lemma {:induction false} EntriesSized(entries: seq<Entry>, n: nat)
    requires n <= |entries| && AllEncodable(entries)
    ensures WellFormed(EntriesText(entries[..n])) && Size(EntriesText(entries[..n])) == EntriesSize(entries, n)
  {
    if n > 0 {
      EntriesSized(entries, n - 1);
      EntrySized(entries[n - 1]);
      EntriesStep(entries, n - 1);
    }
  }

  lemma EntriesStep(entries: seq<Entry>, n: nat)
    requires n < |entries| && WellFormed(EntryText(entries[n])) && WellFormed(EntriesText(entries[..n]))
    ensures WellFormed(EntriesText(entries[..n + 1]))
    ensures Size(EntriesText(entries[..n + 1])) ==
            Size(EntriesText(entries[..n])) + (if n > 0 then 1 else 0) + Size(EntryText(entries[n]))
  {
    var comma := if n > 0 then [COMMA] else [];
    assert entries[..n + 1][..n] == entries[..n] && entries[..n + 1][n] == entries[n];
    assert EntriesText(entries[..n + 1]) == EntriesText(entries[..n]) + comma + EntryText(entries[n]);
    AsciiSize(comma);
    SizeAppend(EntriesText(entries[..n]), comma);
    SizeAppend(EntriesText(entries[..n]) + comma, EntryText(entries[n]));
  }

  /** The bytes around the entries: fixed punctuation and two numerals. */
  function Frame(total: nat, omitted: nat): nat { |Decimal(total)| + |Decimal(omitted)| + 53 }

  lemma SidecarSized(s: Sidecar)
    requires AllEncodable(s.entries)
    ensures WellFormed(SidecarText(s))
    ensures Size(SidecarText(s)) == Frame(s.total, s.omitted) + EntriesSize(s.entries, |s.entries|)
  {
    EntriesSized(s.entries, |s.entries|);
    assert s.entries[..|s.entries|] == s.entries;
    AsciiSize(Head(s));
    AsciiSize(Ascii("]}"));
    SizeAppend(Head(s), EntriesText(s.entries));
    SizeAppend(Head(s) + EntriesText(s.entries), Ascii("]}"));
  }

  /** A prefix of the collected entries, the rest counted as omitted. */
  function Prefix(all: seq<Entry>, total: nat, n: nat): (s: Sidecar)
    requires n <= |all| <= total
  {
    Sidecar(total, total - n, all[..n])
  }

  lemma {:induction false} PrefixSize(all: seq<Entry>, n: nat, m: nat)
    requires m <= n <= |all|
    ensures EntriesSize(all[..n], m) == EntriesSize(all, m)
  {
    if m > 0 {
      PrefixSize(all, n, m - 1);
    }
  }

  /** Adding the next entry makes the sidecar strictly longer, even when the omitted count loses a digit. */
  lemma EntryGrows(all: seq<Entry>, total: nat, n: nat)
    requires n < |all| <= total && AllEncodable(all)
    ensures Size(SidecarText(Prefix(all, total, n))) < Size(SidecarText(Prefix(all, total, n + 1)))
  {
    SidecarSized(Prefix(all, total, n));
    SidecarSized(Prefix(all, total, n + 1));
    PrefixSize(all, n, n);
    PrefixSize(all, n + 1, n + 1);
    DecimalWidth(total - (n + 1));
  }

  lemma {:induction false} MoreEntriesLonger(all: seq<Entry>, total: nat, m: nat, n: nat)
    requires m <= n <= |all| <= total && AllEncodable(all)
    ensures Size(SidecarText(Prefix(all, total, m))) + (n - m) <= Size(SidecarText(Prefix(all, total, n)))
    decreases n - m
  {
    if m < n {
      EntryGrows(all, total, m);
      MoreEntriesLonger(all, total, m + 1, n);
    }
  }

  // ----- The browser's count -----

  method FieldBytes(entry: Entry) returns (r: Option<nat>)
    ensures r.Some? <==> Encodable(entry)
    ensures r.Some? ==> r.value == FieldsSize(entry, |entry|)
  {
    var bytes := 0;
    for i := 0 to |entry|
      invariant forall j :: 0 <= j < i ==> entry[j].Encodable()
      invariant bytes == FieldsSize(entry, i)
    {
      var quoted := GoJSONStringBytes(entry[i].value, 4096);
      if quoted == None {
        return None;
      }
      bytes := bytes + (if i > 0 then 1 else 0) + |entry[i].key| + 3 + quoted.value;
    }
    return Some(bytes);
  }

  /** The running total is the canonical length of the entries so far, so the sidecar is accepted exactly
      when its strings are sound and its canonical encoding is within the budget. */
  method CountSidecar(s: Sidecar) returns (r: Option<nat>)
    requires s.total == |s.entries| + s.omitted && s.total <= 6200
    ensures r.Some? <==> AllEncodable(s.entries) && Size(SidecarText(s)) <= MAX_BYTES
    ensures r.Some? ==> r.value == Size(SidecarText(s))
  {
    var bytes := Frame(s.total, s.omitted);
    FrameSmall(s.total, s.omitted);
    for i := 0 to |s.entries|
      invariant forall j :: 0 <= j < i ==> Encodable(s.entries[j])
      invariant bytes == Frame(s.total, s.omitted) + EntriesSize(s.entries, i) <= MAX_BYTES
    {
      var fields := FieldBytes(s.entries[i]);
      if fields == None {
        return None;
      }
      bytes := bytes + (if i > 0 then 1 else 0) + 2 + fields.value;
      if bytes > MAX_BYTES {
        EntriesLonger(s.entries, i + 1, |s.entries|);
        if AllEncodable(s.entries) {
          SidecarSized(s);
        }
        return None;
      }
    }
    SidecarSized(s);
    return Some(bytes);
  }

  lemma FrameSmall(total: nat, omitted: nat)
    requires omitted <= total <= 6200
    ensures Frame(total, omitted) <= 61
  {
    DecimalWidthMonotone(total, 6200);
    DecimalWidthMonotone(omitted, 6200);
    assert |Decimal(62)| == 2;
    assert |Decimal(620)| == 3;
  }

  lemma {:induction false} EntriesLonger(all: seq<Entry>, m: nat, n: nat)
    requires m <= n <= |all|
    ensures EntriesSize(all, m) <= EntriesSize(all, n)
  {
    if m < n {
      EntriesLonger(all, m, n - 1);
    }
  }
}
