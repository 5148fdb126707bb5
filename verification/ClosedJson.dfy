/** What the closed encoder's bytes mean (backend/api/report_payload.go:436-587): read as JSON they are the value's tree, with
    every visited field under its name and in order, a map's entries in ascending byte order of their keys, and every element. */
module ClosedJson {
  import opened Text
  import opened ClosedTransport

  // ----- Trees -----

  /** A leaf is its JSON text; names are JSON texts too. */
  datatype Json = Leaf(token: seq<Byte>) | Members(members: seq<Member>) | Items(items: seq<Json>)

  datatype Member = Member(name: seq<Byte>, value: Json)

  /** a comes before b in byte order. */
  ghost predicate ByteBefore(a: seq<Byte>, b: seq<Byte>) { exists n: nat :: DiffersAt(a, b, n) }

  ghost predicate DiffersAt(a: seq<Byte>, b: seq<Byte>, n: nat) {
    n <= |a| && n < |b| && a[..n] == b[..n] && (n == |a| || a[n] < b[n])
  }

  ghost predicate Ascending(entries: seq<Entry>) {
    forall i, j :: 0 <= i < j < |entries| ==> entries[i].key == entries[j].key || ByteBefore(entries[i].key, entries[j].key)
  }

  function Texts(groups: seq<Group>): seq<Byte> {
    if groups == [] then [] else Texts(groups[..|groups| - 1]) + groups[|groups| - 1].text
  }

  /** j is the tree of v, read through the references of h at most n levels down. */
  ghost predicate IsTree(h: Heap, v: Value, j: Json, n: nat)
    decreases n, 0, v
  {
    match v
    case Interface(inner) => IsTree(h, inner, j, n)
    case Custom(plain) => IsTree(h, plain, j, n)
    case NilInterface | NilReference => j == Leaf([0x6e, 0x75, 0x6c, 0x6c])
    case Number(_, token) => j == Leaf(token)
    case Float(_, _, leaf) => leaf.Some? && j == Leaf(leaf.value)
    case Str(_, leaf) => leaf.Some? && j == Leaf(leaf.value)
    case Time(leaf) => leaf.Some? && j == Leaf(leaf.value)
    case Opaque => false
    case Pointer(id, _, _) => n > 0 && IsTree(h, TargetOf(h, id), j, n - 1)
    case Struct(_, _, _, fields) =>
      n > 0 && j.Members? && exists at: seq<nat> :: VisitedAt(h, fields, at) && FieldsRead(h, fields, at, j.members, n - 1)
    case Map(id, _, _) =>
      n > 0 && j.Members?
      && exists entries: seq<Entry> ::
           multiset(entries) == multiset(EntriesOf(h, id)) && Ascending(entries) && EntriesRead(h, entries, j.members, n - 1)
    case Slice(id) =>
      n > 0 && if GroupsOf(h, id).Some? then j == Leaf([0x22] + Texts(GroupsOf(h, id).value) + [0x22])
               else j.Items? && ElementsRead(h, ElementsOf(h, id), j.items, n - 1)
    case Array(es) => n > 0 && j.Items? && ElementsRead(h, es, j.items, n - 1)
  }

  /** The visited fields, in order. */
  ghost predicate VisitedAt(h: Heap, fields: seq<Field>, at: seq<nat>) {
    && (forall i: nat :: i in at <==> i < |fields| && Visited(h, fields[i]))
    && forall k, m :: 0 <= k < m < |at| ==> at[k] < at[m]
  }

  ghost predicate FieldsRead(h: Heap, fields: seq<Field>, at: seq<nat>, members: seq<Member>, n: nat)
    decreases n, 1
  {
    |at| == |members|
    && forall k :: 0 <= k < |at| ==>
         at[k] < |fields| && members[k].name == fields[at[k]].name && IsTree(h, fields[at[k]].value, members[k].value, n)
  }

  ghost predicate EntriesRead(h: Heap, entries: seq<Entry>, members: seq<Member>, n: nat)
    decreases n, 1
  {
    |entries| == |members|
    && forall k :: 0 <= k < |entries| ==> members[k].name == entries[k].token && IsTree(h, entries[k].value, members[k].value, n)
  }

  ghost predicate ElementsRead(h: Heap, es: seq<Value>, items: seq<Json>, n: nat)
    decreases n, 1
  {
    |es| == |items| && forall k :: 0 <= k < |es| ==> IsTree(h, es[k], items[k], n)
  }

  // ----- A reader of JSON -----

  const COMMA: Byte := 0x2c
  const COLON: Byte := 0x3a
  const QUOTATION: Byte := 0x22
  const ESCAPE: Byte := 0x5c

  /** Punctuation and white space, where a bare word ends. */
  predicate Structural(b: Byte) { b in {0x2c, 0x3a, 0x5b, 0x5d, 0x7b, 0x7d, 0x20, 0x0a, 0x0d, 0x09} }

  /** Where the string that is open at i is closed. */
  function ClosedAt(s: seq<Byte>, i: nat): (r: Option<nat>)
    ensures r.Some? ==> i <= r.value < |s| && s[r.value] == QUOTATION
    decreases |s| - i
  {
    if i >= |s| then None
    else if s[i] == QUOTATION then Some(i)
    else if s[i] == ESCAPE then (if i + 1 < |s| then ClosedAt(s, i + 2) else None)
    else ClosedAt(s, i + 1)
  }

  /** Where the bare token at i ends. */
  function BareEnd(s: seq<Byte>, i: nat): (r: nat)
    requires i <= |s|
    ensures i <= r <= |s|
    decreases |s| - i
  {
    if i == |s| || Structural(s[i]) || s[i] == QUOTATION then i else BareEnd(s, i + 1)
  }

  function TokenEnd(s: seq<Byte>): (r: nat)
    ensures r <= |s|
  {
    if s == [] then 0
    else if s[0] == QUOTATION then (if ClosedAt(s, 1).Some? then ClosedAt(s, 1).value + 1 else 0)
    else BareEnd(s, 0)
  }

  /** The value at the head of s, and what follows it. */
  function ReadValue(s: seq<Byte>): (r: Option<(Json, seq<Byte>)>)
    ensures r.Some? ==> |r.value.1| < |s|
    decreases |s|, 0
  {
    if s == [] then None
    else if s[0] == 0x7b then
      if |s| > 1 && s[1] == 0x7d then Some((Members([]), s[2..]))
      else match ReadMembers(s[1..])
        case None => None
        case Some((members, rest)) => Some((Members(members), rest))
    else if s[0] == 0x5b then
      if |s| > 1 && s[1] == 0x5d then Some((Items([]), s[2..]))
      else match ReadItems(s[1..])
        case None => None
        case Some((items, rest)) => Some((Items(items), rest))
    else
      var end := TokenEnd(s);
      if end == 0 then None else Some((Leaf(s[..end]), s[end..]))
  }

  /** At least one member, up to the closing brace. */
  function ReadMembers(s: seq<Byte>): (r: Option<(seq<Member>, seq<Byte>)>)
    ensures r.Some? ==> |r.value.1| < |s|
    decreases |s|, 1
  {
    var end := TokenEnd(s);
    if end == 0 || s[0] != QUOTATION || end == |s| || s[end] != COLON then None
    else match ReadValue(s[end + 1..])
      case None => None
      case Some((value, rest)) =>
        var first := Member(s[..end], value);
        if rest == [] then None
        else if rest[0] == 0x7d then Some(([first], rest[1..]))
        else if rest[0] != COMMA then None
        else match ReadMembers(rest[1..])
          case None => None
          case Some((more, after)) => Some(([first] + more, after))
  }

  function ReadItems(s: seq<Byte>): (r: Option<(seq<Json>, seq<Byte>)>)
    ensures r.Some? ==> |r.value.1| < |s|
    decreases |s|, 1
  {
    match ReadValue(s)
    case None => None
    case Some((first, rest)) =>
      if rest == [] then None
      else if rest[0] == 0x5d then Some(([first], rest[1..]))
      else if rest[0] != COMMA then None
      else match ReadItems(rest[1..])
        case None => None
        case Some((more, after)) => Some(([first] + more, after))
  }

  // ----- Texts of leaves -----

  predicate StringToken(t: seq<Byte>) { |t| >= 2 && t[0] == QUOTATION && ClosedAt(t, 1) == Some(|t| - 1) }

  predicate BareToken(t: seq<Byte>) { t != [] && BareEnd(t, 0) == |t| }

  /** Leaves are JSON strings or bare words such as numbers, names are JSON strings. */
  ghost predicate Lexical(j: Json) {
    match j
    case Leaf(token) => StringToken(token) || BareToken(token)
    case Members(members) => forall k :: 0 <= k < |members| ==> StringToken(members[k].name) && Lexical(members[k].value)
    case Items(items) => forall k :: 0 <= k < |items| ==> Lexical(items[k])
  }

  /** What may follow a value. */
  predicate Follows(rest: seq<Byte>) { rest == [] || Structural(rest[0]) }

  // ----- A compact printer, and that the reader undoes it -----

  function Print(j: Json): seq<Byte> {
    match j
    case Leaf(token) => token
    case Members(members) => [0x7b] + PrintMembers(members, false) + [0x7d]
    case Items(items) => [0x5b] + PrintItems(items, false) + [0x5d]
  }

  function PrintMembers(members: seq<Member>, after: bool): seq<Byte> {
    if members == [] then []
    else (if after then [COMMA] else []) + members[0].name + [COLON] + Print(members[0].value) + PrintMembers(members[1..], true)
  }

  function PrintItems(items: seq<Json>, after: bool): seq<Byte> {
    if items == [] then [] else (if after then [COMMA] else []) + Print(items[0]) + PrintItems(items[1..], true)
  }

  lemma {:induction false} ClosedMore(s: seq<Byte>, i: nat, rest: seq<Byte>)
    requires ClosedAt(s, i).Some?
    ensures ClosedAt(s + rest, i) == ClosedAt(s, i)
    decreases |s| - i
  {
    if s[i] == ESCAPE {
      ClosedMore(s, i + 2, rest);
    } else if s[i] != QUOTATION {
      ClosedMore(s, i + 1, rest);
    }
  }

  lemma {:induction false} BareMore(s: seq<Byte>, i: nat, rest: seq<Byte>)
    requires i <= |s| && BareEnd(s, i) == |s| && Follows(rest)
    ensures BareEnd(s + rest, i) == |s|
    decreases |s| - i
  {
    if i < |s| {
      BareMore(s, i + 1, rest);
    }
  }

  lemma TokenReads(t: seq<Byte>, rest: seq<Byte>)
    requires StringToken(t) || (BareToken(t) && Follows(rest))
    ensures TokenEnd(t + rest) == |t| > 0 && (t + rest)[..|t|] == t && (t + rest)[|t|..] == rest
    ensures !Structural(t[0]) && (t[0] == QUOTATION <==> StringToken(t))
  {
    if StringToken(t) {
      ClosedMore(t, 1, rest);
    } else {
      BareMore(t, 0, rest);
    }
  }

  lemma LeafUndone(token: seq<Byte>, rest: seq<Byte>)
    requires StringToken(token) || BareToken(token)
    requires Follows(rest)
    ensures ReadValue(token + rest) == Some((Leaf(token), rest))
    ensures token != [] && token[0] != 0x7d && token[0] != 0x5d
  {
    TokenReads(token, rest);
    assert Structural(0x7b) && Structural(0x5b) && Structural(0x7d) && Structural(0x5d);
    assert (token + rest)[0] == token[0];
    hide TokenEnd, StringToken, BareToken, Structural, ReadMembers, ReadItems;
  }

  lemma NoMembers()
    ensures PrintMembers([], false) == [] && PrintItems([], false) == []
  {
  }

  lemma {:induction false} ReaderUndoesPrinter(j: Json, rest: seq<Byte>)
    requires Lexical(j) && Follows(rest)
    ensures ReadValue(Print(j) + rest) == Some((j, rest))
    ensures |Print(j)| > 0 && Print(j)[0] != 0x7d && Print(j)[0] != 0x5d
    decreases j, 0
  {
    hide TokenEnd, StringToken, BareToken, Structural, PrintMembers, PrintItems, ReadMembers, ReadItems;
    match j
    case Leaf(token) => LeafUndone(token, rest);
    case Members(members) =>
      var inner := PrintMembers(members, false);
      Moved([0x7b], inner, [0x7d], rest);
      var s := Print(j) + rest;
      assert s[1..] == inner + [0x7d] + rest;
      if members == [] {
        NoMembers();
        assert s[2..] == rest;
      } else {
        MembersUndone(members, rest);
        NameFirst(members);
      }
    case Items(items) =>
      var inner := PrintItems(items, false);
      Moved([0x5b], inner, [0x5d], rest);
      var s := Print(j) + rest;
      assert s[1..] == inner + [0x5d] + rest;
      if items == [] {
        NoMembers();
        assert s[2..] == rest;
      } else {
        ItemsUndone(items, rest);
      }
  }

  lemma NameFirst(members: seq<Member>)
    requires members != [] && StringToken(members[0].name)
    ensures |PrintMembers(members, false)| > 0 && PrintMembers(members, false)[0] == QUOTATION
  {
  }

  lemma Regroup(a: seq<Byte>, b: seq<Byte>, c: seq<Byte>, d: seq<Byte>, x: seq<Byte>, y: seq<Byte>)
    ensures a + b + c + d + x + y == a + (b + (c + (d + x + y)))
  {
  }

  lemma Moved(a: seq<Byte>, b: seq<Byte>, c: seq<Byte>, d: seq<Byte>)
    ensures (a + b) + c + d == a + (b + c + d)
  {
  }

  lemma Nothing(a: seq<Byte>, b: seq<Byte>)
    ensures [] + a + b == a + b
  {
  }

  lemma FirstMember(members: seq<Member>)
    requires members != []
    ensures PrintMembers(members, false) == members[0].name + [COLON] + Print(members[0].value) + PrintMembers(members[1..], true)
  {
    assert [] + members[0].name == members[0].name;
  }

  lemma FirstItem(items: seq<Json>)
    requires items != []
    ensures PrintItems(items, false) == Print(items[0]) + PrintItems(items[1..], true)
  {
    assert [] + Print(items[0]) == Print(items[0]);
  }

  lemma MembersCons(members: seq<Member>, rest: seq<Byte>)
    requires members != []
    ensures PrintMembers(members, false) + [0x7d] + rest ==
            members[0].name + ([COLON] + (Print(members[0].value) +
              if |members| == 1 then [0x7d] + rest else [COMMA] + (PrintMembers(members[1..], false) + [0x7d] + rest)))
  {
    hide *;
    var tail := members[1..];
    var more := PrintMembers(tail, true);
    FirstMember(members);
    MoreMembers(tail);
    Regroup(members[0].name, [COLON], Print(members[0].value), more, [0x7d], rest);
    if |members| == 1 {
      Nothing([0x7d], rest);
    } else {
      Moved([COMMA], PrintMembers(tail, false), [0x7d], rest);
    }
  }

  lemma MoreMembers(tail: seq<Member>)
    ensures PrintMembers(tail, true) == if tail == [] then [] else [COMMA] + PrintMembers(tail, false)
  {
    if tail != [] {
      var name, value, more := tail[0].name, Print(tail[0].value), PrintMembers(tail[1..], true);
      assert [] + name == name;
      assert [COMMA] + name + [COLON] + value + more == [COMMA] + (name + [COLON] + value + more);
    }
  }

  lemma {:induction false} MembersUndone(members: seq<Member>, rest: seq<Byte>)
    requires members != [] && forall k :: 0 <= k < |members| ==> StringToken(members[k].name) && Lexical(members[k].value)
    ensures ReadMembers(PrintMembers(members, false) + [0x7d] + rest) == Some((members, rest))
    decreases members, 1
  {
    hide Print, PrintMembers, TokenEnd, StringToken, BareToken, ReadValue;
    var first, tail := members[0], members[1..];
    var s := PrintMembers(members, false) + [0x7d] + rest;
    var after := if |members| == 1 then [0x7d] + rest else [COMMA] + (PrintMembers(tail, false) + [0x7d] + rest);
    MembersCons(members, rest);
    TokenReads(first.name, [COLON] + (Print(first.value) + after));
    assert s[|first.name| + 1..] == Print(first.value) + after;
    ReaderUndoesPrinter(first.value, after);
    if |members| == 1 {
      assert after[1..] == rest && members == [first];
    } else {
      assert after[1..] == PrintMembers(tail, false) + [0x7d] + rest;
      MembersUndone(tail, rest);
      assert members == [first] + tail;
    }
  }

  lemma MoreItems(tail: seq<Json>)
    ensures PrintItems(tail, true) == if tail == [] then [] else [COMMA] + PrintItems(tail, false)
  {
    if tail != [] {
      var value, more := Print(tail[0]), PrintItems(tail[1..], true);
      assert [] + value == value;
      assert [COMMA] + value + more == [COMMA] + (value + more);
    }
  }

  lemma ItemsCons(items: seq<Json>, rest: seq<Byte>)
    requires items != []
    ensures PrintItems(items, false) + [0x5d] + rest ==
            Print(items[0]) + if |items| == 1 then [0x5d] + rest else [COMMA] + (PrintItems(items[1..], false) + [0x5d] + rest)
  {
    hide *;
    var tail := items[1..];
    var more := PrintItems(tail, true);
    FirstItem(items);
    MoreItems(tail);
    Moved(Print(items[0]), more, [0x5d], rest);
    if |items| == 1 {
      Nothing([0x5d], rest);
    } else {
      Moved([COMMA], PrintItems(tail, false), [0x5d], rest);
    }
  }

  lemma {:induction false} ItemsUndone(items: seq<Json>, rest: seq<Byte>)
    requires items != [] && forall k :: 0 <= k < |items| ==> Lexical(items[k])
    ensures ReadItems(PrintItems(items, false) + [0x5d] + rest) == Some((items, rest))
    ensures |PrintItems(items, false)| > 0 && PrintItems(items, false)[0] != 0x5d
    decreases items, 1
  {
    hide Print, PrintItems, TokenEnd, StringToken, BareToken, ReadValue;
    var first, tail := items[0], items[1..];
    var after := if |items| == 1 then [0x5d] + rest else [COMMA] + (PrintItems(tail, false) + [0x5d] + rest);
    ItemsCons(items, rest);
    ReaderUndoesPrinter(first, after);
    FirstItem(items);
    if |items| == 1 {
      assert after[1..] == rest && items == [first];
    } else {
      assert after[1..] == PrintItems(tail, false) + [0x5d] + rest;
      ItemsUndone(tail, rest);
      assert items == [first] + tail;
    }
  }

  // ----- The encoder prints the tree -----

  ghost function TreeOf(h: Heap, v: Value, fuel: nat): Json
    decreases fuel, 0, v
  {
    match v
    case Interface(inner) => TreeOf(h, inner, fuel)
    case Custom(plain) => TreeOf(h, plain, fuel)
    case NilInterface | NilReference => Leaf(NULL)
    case Number(_, token) => Leaf(token)
    case Float(_, _, leaf) => Leaf(if leaf.Some? then leaf.value else [])
    case Str(_, leaf) => Leaf(if leaf.Some? then leaf.value else [])
    case Time(leaf) => Leaf(if leaf.Some? then leaf.value else [])
    case Opaque => Leaf([])
    case Pointer(id, _, _) => if fuel == 0 then Leaf([]) else TreeOf(h, TargetOf(h, id), fuel - 1)
    case Struct(_, _, _, fields) => if fuel == 0 then Leaf([]) else Members(FieldTrees(h, fields, 0, fuel - 1))
    case Map(id, _, _) => if fuel == 0 then Leaf([]) else Members(EntryTrees(h, Sorted(EntriesOf(h, id)), 0, fuel - 1))
    case Slice(id) =>
      if fuel == 0 then Leaf([])
      else if GroupsOf(h, id).Some? then Leaf(MARK + Joined(GroupsOf(h, id).value, 0) + MARK)
      else Items(ElementTrees(h, ElementsOf(h, id), 0, fuel - 1))
    case Array(es) => if fuel == 0 then Leaf([]) else Items(ElementTrees(h, es, 0, fuel - 1))
  }

  ghost function FieldTrees(h: Heap, fields: seq<Field>, i: nat, fuel: nat): seq<Member>
    requires i <= |fields|
    decreases fuel, 1, |fields| - i
  {
    if i == |fields| then []
    else (if Visited(h, fields[i]) then [Member(fields[i].name, TreeOf(h, fields[i].value, fuel))] else []) + FieldTrees(h, fields, i + 1, fuel)
  }

  ghost function EntryTrees(h: Heap, entries: seq<Entry>, i: nat, fuel: nat): (r: seq<Member>)
    requires i <= |entries|
    ensures |r| == |entries| - i
    ensures forall k :: 0 <= k < |r| ==> r[k] == Member(entries[i + k].token, TreeOf(h, entries[i + k].value, fuel))
    decreases fuel, 1, |entries| - i
  {
    if i == |entries| then [] else [Member(entries[i].token, TreeOf(h, entries[i].value, fuel))] + EntryTrees(h, entries, i + 1, fuel)
  }

  ghost function ElementTrees(h: Heap, es: seq<Value>, i: nat, fuel: nat): (r: seq<Json>)
    requires i <= |es|
    ensures |r| == |es| - i && forall k :: 0 <= k < |r| ==> r[k] == TreeOf(h, es[i + k], fuel)
    decreases fuel, 1, |es| - i
  {
    if i == |es| then [] else [TreeOf(h, es[i], fuel)] + ElementTrees(h, es, i + 1, fuel)
  }

  /** Two outputs one after the other are done only when both are. */
  lemma ThenDone(a: Output, b: Output)
    ensures a.Then(b).stop == Done <==> a.stop == Done && b.stop == Done
    ensures a.stop == Done ==> a.Then(b).bytes == a.bytes + b.bytes
  {
  }

  /** One member and what follows it are done only when both values are. */
  lemma NamedThen(after: bool, name: seq<Byte>, value: Output, rest: Output)
    ensures var all := Lead(after).Then(Write(name + [0x3a])).Then(value).Then(rest);
            all.stop == Done ==>
              value.stop == Done && rest.stop == Done
              && all.bytes == (if after then [COMMA] else []) + name + [COLON] + value.bytes + rest.bytes
  {
    var lead := if after then [COMMA] else [];
    assert lead + (name + [0x3a]) + value.bytes + rest.bytes == lead + name + [COLON] + value.bytes + rest.bytes;
  }

  lemma PrintsFirst(m: Member, more: seq<Member>, after: bool)
    ensures PrintMembers([m] + more, after) == (if after then [COMMA] else []) + m.name + [COLON] + Print(m.value) + PrintMembers(more, true)
  {
    hide Print;
    assert ([m] + more)[1..] == more;
  }

  lemma {:induction false} EmitPrints(h: Heap, v: Value, fuel: nat)
    requires Emit(h, v, fuel).stop == Done
    ensures Emit(h, v, fuel).bytes == Print(TreeOf(h, v, fuel))
    decreases fuel, 0, v
  {
    hide Sorted, EmitFields, EmitEntries, EmitElements, FieldTrees, EntryTrees, ElementTrees, PrintMembers, PrintItems;
    match v
    case Interface(inner) => EmitPrints(h, inner, fuel);
    case Custom(plain) => EmitPrints(h, plain, fuel);
    case Pointer(id, _, _) =>
      EmitPrints(h, TargetOf(h, id), fuel - 1);
      assert [] + Emit(h, TargetOf(h, id), fuel - 1).bytes == Emit(h, TargetOf(h, id), fuel - 1).bytes;
    case Struct(_, _, _, fields) => FieldsPrint(h, fields, 0, false, fuel - 1);
    case Map(id, _, _) => EntriesPrint(h, Sorted(EntriesOf(h, id)), 0, fuel - 1);
    case Slice(id) =>
      if GroupsOf(h, id).None? {
        ElementsPrint(h, ElementsOf(h, id), 0, fuel - 1);
      }
    case Array(es) => ElementsPrint(h, es, 0, fuel - 1);
    case _ =>
  }

  lemma NoFields(h: Heap, fields: seq<Field>, i: nat, wrote: bool, fuel: nat)
    requires i == |fields|
    ensures EmitFields(h, fields, i, wrote, fuel).bytes == PrintMembers(FieldTrees(h, fields, i, fuel), wrote)
  {
  }

  lemma NoEntries(h: Heap, entries: seq<Entry>, i: nat, fuel: nat)
    requires i == |entries|
    ensures EmitEntries(h, entries, i, fuel).bytes == PrintMembers(EntryTrees(h, entries, i, fuel), i > 0)
  {
  }

  lemma {:induction false} FieldsPrint(h: Heap, fields: seq<Field>, i: nat, wrote: bool, fuel: nat)
    requires i <= |fields| && EmitFields(h, fields, i, wrote, fuel).stop == Done
    ensures EmitFields(h, fields, i, wrote, fuel).bytes == PrintMembers(FieldTrees(h, fields, i, fuel), wrote)
    decreases fuel, 1, |fields| - i
  {
    hide Visited, Emit, TreeOf, Print, PrintMembers, Lead, Write;
    if i == |fields| {
      NoFields(h, fields, i, wrote, fuel);
    } else if Visited(h, fields[i]) {
      NamedThen(wrote, fields[i].name, Emit(h, fields[i].value, fuel), EmitFields(h, fields, i + 1, true, fuel));
      EmitPrints(h, fields[i].value, fuel);
      FieldsPrint(h, fields, i + 1, true, fuel);
      PrintsFirst(Member(fields[i].name, TreeOf(h, fields[i].value, fuel)), FieldTrees(h, fields, i + 1, fuel), wrote);
    } else {
      FieldsPrint(h, fields, i + 1, wrote, fuel);
      assert [] + FieldTrees(h, fields, i + 1, fuel) == FieldTrees(h, fields, i + 1, fuel);
    }
  }

  lemma {:induction false} EntriesPrint(h: Heap, entries: seq<Entry>, i: nat, fuel: nat)
    requires i <= |entries| && EmitEntries(h, entries, i, fuel).stop == Done
    ensures EmitEntries(h, entries, i, fuel).bytes == PrintMembers(EntryTrees(h, entries, i, fuel), i > 0)
    decreases fuel, 1, |entries| - i
  {
    hide Emit, TreeOf, Print, PrintMembers, Lead, Write;
    if i == |entries| {
      NoEntries(h, entries, i, fuel);
    } else {
      NamedThen(i > 0, entries[i].token, Emit(h, entries[i].value, fuel), EmitEntries(h, entries, i + 1, fuel));
      EmitPrints(h, entries[i].value, fuel);
      EntriesPrint(h, entries, i + 1, fuel);
      PrintsFirst(Member(entries[i].token, TreeOf(h, entries[i].value, fuel)), EntryTrees(h, entries, i + 1, fuel), i > 0);
    }
  }

  lemma {:induction false} ElementsPrint(h: Heap, es: seq<Value>, i: nat, fuel: nat)
    requires i <= |es| && EmitElements(h, es, i, fuel).stop == Done
    ensures EmitElements(h, es, i, fuel).bytes == PrintItems(ElementTrees(h, es, i, fuel), i > 0)
    decreases fuel, 1, |es| - i
  {
    hide Emit, TreeOf, Print;
    if i < |es| {
      EmitPrints(h, es[i], fuel);
      ElementsPrint(h, es, i + 1, fuel);
      assert ElementTrees(h, es, i, fuel)[1..] == ElementTrees(h, es, i + 1, fuel);
    }
  }

  // ----- The tree is the value's -----

  lemma {:induction false} JoinedTexts(groups: seq<Group>, i: nat)
    requires i <= |groups|
    ensures Texts(groups) == Texts(groups[..i]) + Joined(groups, i)
    decreases |groups| - i
  {
    if i == |groups| {
      assert groups[..i] == groups;
    } else {
      JoinedTexts(groups, i + 1);
      assert groups[..i + 1][..i] == groups[..i];
    }
  }

  lemma {:induction false} KeyBeforeIsByteBefore(a: seq<Byte>, b: seq<Byte>)
    ensures KeyBefore(a, b) <==> ByteBefore(a, b)
  {
    if b == [] {
    } else if a == [] || a[0] < b[0] {
      assert DiffersAt(a, b, 0);
    } else if a[0] == b[0] {
      KeyBeforeIsByteBefore(a[1..], b[1..]);
      if ByteBefore(a[1..], b[1..]) {
        var n: nat :| DiffersAt(a[1..], b[1..], n);
        assert a[..n + 1] == [a[0]] + a[1..][..n] && b[..n + 1] == [b[0]] + b[1..][..n];
        assert DiffersAt(a, b, n + 1);
      }
      if n: nat :| DiffersAt(a, b, n) {
        assert a[..n][1..] == a[1..][..n - 1] && b[..n][1..] == b[1..][..n - 1];
        assert DiffersAt(a[1..], b[1..], n - 1);
      }
    } else {
      forall n: nat ensures !DiffersAt(a, b, n) {
        if 0 < n <= |a| && n < |b| {
          assert a[..n][0] == a[0] && b[..n][0] == b[0];
        }
      }
    }
  }

  lemma Comparable(a: seq<Byte>, b: seq<Byte>)
    ensures KeyBefore(a, b) || KeyBefore(b, a) || a == b
  {
    if a != [] && b != [] && a[0] == b[0] {
      Comparable(a[1..], b[1..]);
      assert a == [a[0]] + a[1..] && b == [b[0]] + b[1..];
    }
  }

  lemma Transitive(a: seq<Byte>, b: seq<Byte>, c: seq<Byte>)
    requires a == b || KeyBefore(a, b)
    requires b == c || KeyBefore(b, c)
    ensures a == c || KeyBefore(a, c)
  {
    if a != b && b != c && a != [] && b != [] && c != [] && a[0] == b[0] == c[0] {
      Transitive(a[1..], b[1..], c[1..]);
      assert a == [a[0]] + a[1..] && c == [c[0]] + c[1..];
    }
  }

  ghost predicate Ordered(entries: seq<Entry>) {
    forall i, j :: 0 <= i < j < |entries| ==> entries[i].key == entries[j].key || KeyBefore(entries[i].key, entries[j].key)
  }

  lemma {:induction false} InsertOrders(e: Entry, sorted: seq<Entry>)
    requires Ordered(sorted)
    ensures Ordered(Insert(e, sorted)) && multiset(Insert(e, sorted)) == multiset{e} + multiset(sorted)
    ensures forall x :: x in Insert(e, sorted) <==> x == e || x in sorted
  {
    if sorted == [] || !KeyBefore(sorted[0].key, e.key) {
      forall j | 0 <= j < |sorted| ensures e.key == sorted[j].key || KeyBefore(e.key, sorted[j].key) {
        Comparable(e.key, sorted[0].key);
        Transitive(e.key, sorted[0].key, sorted[j].key);
      }
    } else {
      InsertOrders(e, sorted[1..]);
      var rest := Insert(e, sorted[1..]);
      assert sorted == [sorted[0]] + sorted[1..];
      forall j | 0 <= j < |rest| ensures sorted[0].key == rest[j].key || KeyBefore(sorted[0].key, rest[j].key) {
        assert rest[j] in rest;
        if rest[j] != e {
          var m :| 0 <= m < |sorted[1..]| && sorted[1..][m] == rest[j];
          assert sorted[m + 1] == rest[j];
        }
      }
    }
  }

  lemma {:induction false} SortedOrders(entries: seq<Entry>)
    ensures Ordered(Sorted(entries)) && multiset(Sorted(entries)) == multiset(entries)
  {
    if entries != [] {
      SortedOrders(entries[1..]);
      InsertOrders(entries[0], Sorted(entries[1..]));
      assert entries == [entries[0]] + entries[1..];
    }
  }

  /** Writing a map's entries sorted keeps every entry and puts the keys in byte order. */
  lemma SortedIsAscending(entries: seq<Entry>)
    ensures Ascending(Sorted(entries)) && multiset(Sorted(entries)) == multiset(entries)
  {
    SortedOrders(entries);
    var s := Sorted(entries);
    forall i, j | 0 <= i < j < |s| ensures s[i].key == s[j].key || ByteBefore(s[i].key, s[j].key) {
      KeyBeforeIsByteBefore(s[i].key, s[j].key);
    }
  }

  ghost function VisitedFrom(h: Heap, fields: seq<Field>, i: nat): (r: seq<nat>)
    requires i <= |fields|
    ensures forall x :: x in r <==> i <= x < |fields| && Visited(h, fields[x])
    ensures forall k, m :: 0 <= k < m < |r| ==> r[k] < r[m]
    decreases |fields| - i
  {
    if i == |fields| then []
    else
      var rest := VisitedFrom(h, fields, i + 1);
      assert forall k :: 0 <= k < |rest| ==> rest[k] in rest;
      (if Visited(h, fields[i]) then [i] else []) + rest
  }

  lemma {:induction false} FieldTreesAre(h: Heap, fields: seq<Field>, i: nat, fuel: nat)
    requires i <= |fields|
    ensures var at, members := VisitedFrom(h, fields, i), FieldTrees(h, fields, i, fuel);
            && |at| == |members|
            && forall k :: 0 <= k < |at| ==> at[k] < |fields| && members[k] == Member(fields[at[k]].name, TreeOf(h, fields[at[k]].value, fuel))
    decreases |fields| - i
  {
    if i < |fields| {
      FieldTreesAre(h, fields, i + 1, fuel);
    }
  }

  lemma {:induction false} EmittedTree(h: Heap, v: Value, fuel: nat)
    requires Emit(h, v, fuel).stop == Done
    ensures IsTree(h, v, TreeOf(h, v, fuel), fuel)
    decreases fuel, 0, v
  {
    hide Visited, IsEmpty, Sorted, KeyBefore, Joined, Ascending, VisitedAt, EmitFields, EmitEntries, EmitElements, FieldTrees;
    match v
    case Interface(inner) => EmittedTree(h, inner, fuel);
    case Custom(plain) => EmittedTree(h, plain, fuel);
    case Pointer(id, _, _) => EmittedTree(h, TargetOf(h, id), fuel - 1);
    case Struct(_, _, _, fields) => FieldsAreTrees(h, fields, fuel - 1);
    case Map(id, _, _) => EntriesAreTrees(h, EntriesOf(h, id), fuel - 1);
    case Slice(id) =>
      if GroupsOf(h, id).Some? {
        JoinedTexts(GroupsOf(h, id).value, 0);
        assert GroupsOf(h, id).value[..0] == [];
      } else {
        ElementsDone(h, ElementsOf(h, id), 0, fuel - 1);
        ElementsAreTrees(h, ElementsOf(h, id), fuel - 1);
      }
    case Array(es) =>
      ElementsDone(h, es, 0, fuel - 1);
      ElementsAreTrees(h, es, fuel - 1);
    case _ =>
  }

  lemma {:induction false} FieldsAreTrees(h: Heap, fields: seq<Field>, fuel: nat)
    requires EmitFields(h, fields, 0, false, fuel).stop == Done
    ensures exists at: seq<nat> :: VisitedAt(h, fields, at) && FieldsRead(h, fields, at, FieldTrees(h, fields, 0, fuel), fuel)
    decreases fuel, 1
  {
    hide Visited, Emit, IsTree, FieldTrees, EmitFields;
    var at, members := VisitedFrom(h, fields, 0), FieldTrees(h, fields, 0, fuel);
    FieldTreesAre(h, fields, 0, fuel);
    FieldsDone(h, fields, 0, false, fuel);
    forall k | 0 <= k < |at| ensures IsTree(h, fields[at[k]].value, members[k].value, fuel) {
      assert at[k] in at;
      EmittedTree(h, fields[at[k]].value, fuel);
    }
    assert VisitedAt(h, fields, at) && FieldsRead(h, fields, at, members, fuel);
  }

  lemma {:induction false} EntriesAreTrees(h: Heap, entries: seq<Entry>, fuel: nat)
    requires EmitEntries(h, Sorted(entries), 0, fuel).stop == Done
    ensures exists order: seq<Entry> ::
              multiset(order) == multiset(entries) && Ascending(order) && EntriesRead(h, order, EntryTrees(h, Sorted(entries), 0, fuel), fuel)
    decreases fuel, 1
  {
    hide Emit, IsTree, Sorted, EmitEntries, Ascending;
    var order := Sorted(entries);
    SortedIsAscending(entries);
    EntriesDone(h, order, 0, fuel);
    forall k | 0 <= k < |order| ensures IsTree(h, order[k].value, EntryTrees(h, order, 0, fuel)[k].value, fuel) {
      EmittedTree(h, order[k].value, fuel);
    }
    assert EntriesRead(h, order, EntryTrees(h, order, 0, fuel), fuel);
  }

  lemma {:induction false} ElementsAreTrees(h: Heap, es: seq<Value>, fuel: nat)
    requires forall k :: 0 <= k < |es| ==> Emit(h, es[k], fuel).stop == Done
    ensures ElementsRead(h, es, ElementTrees(h, es, 0, fuel), fuel)
    decreases fuel, 1
  {
    forall k | 0 <= k < |es| ensures IsTree(h, es[k], ElementTrees(h, es, 0, fuel)[k], fuel) {
      EmittedTree(h, es[k], fuel);
    }
  }

  lemma {:induction false} FieldsDone(h: Heap, fields: seq<Field>, i: nat, wrote: bool, fuel: nat)
    requires i <= |fields| && EmitFields(h, fields, i, wrote, fuel).stop == Done
    ensures forall k :: i <= k < |fields| && Visited(h, fields[k]) ==> Emit(h, fields[k].value, fuel).stop == Done
    decreases |fields| - i
  {
    if i < |fields| {
      FieldsDone(h, fields, i + 1, wrote || Visited(h, fields[i]), fuel);
    }
  }

  lemma {:induction false} EntriesDone(h: Heap, entries: seq<Entry>, i: nat, fuel: nat)
    requires i <= |entries| && EmitEntries(h, entries, i, fuel).stop == Done
    ensures forall k :: i <= k < |entries| ==> Emit(h, entries[k].value, fuel).stop == Done
    decreases |entries| - i
  {
    if i < |entries| {
      EntriesDone(h, entries, i + 1, fuel);
    }
  }

  lemma {:induction false} ElementsDone(h: Heap, es: seq<Value>, i: nat, fuel: nat)
    requires i <= |es| && EmitElements(h, es, i, fuel).stop == Done
    ensures forall k :: i <= k < |es| ==> Emit(h, es[k], fuel).stop == Done
    decreases |es| - i
  {
    if i < |es| {
      ElementsDone(h, es, i + 1, fuel);
    }
  }

  /** Read as JSON, what a finished encoding wrote is the tree of the value, and nothing is left over. */
  lemma EncodingReadsBack(h: Heap, v: Value, fuel: nat, rest: seq<Byte>)
    requires Emit(h, v, fuel).stop == Done && Follows(rest)
    ensures exists j :: IsTree(h, v, j, fuel) && (Lexical(j) ==> ReadValue(Emit(h, v, fuel).bytes + rest) == Some((j, rest)))
  {
    var j := TreeOf(h, v, fuel);
    EmittedTree(h, v, fuel);
    EmitPrints(h, v, fuel);
    if Lexical(j) {
      ReaderUndoesPrinter(j, rest);
    }
  }
}
