/** Exactly which value graphs the closed validator accepts (backend/api/report_payload.go:115-315): the good ones, in which no
    reference comes round on a path, whose whole use of every budget is within its limit. */
module ClosedBudget {
  import opened Text
  import opened ClosedTransport

  // ----- What a graph uses, in whatever order it is walked -----

  /** A key counts once, however often it occurs. */
  datatype Use = Use(nodes: nat, containers: nat, strings: nat, keys: set<seq<Byte>>, topologyNodes: nat, topologyLinks: nat) {
    function Plus(u: Use): Use {
      Use(nodes + u.nodes, containers + u.containers, strings + u.strings, keys + u.keys,
          topologyNodes + u.topologyNodes, topologyLinks + u.topologyLinks)
    }
  }

  const NOTHING := Use(0, 0, 0, {}, 0, 0)

  ghost function KeyBytes(keys: set<seq<Byte>>): nat {
    if keys == {} then 0 else var k :| k in keys; |k| + KeyBytes(keys - {k})
  }

  /** How many places a container has, and None for what is no container. */
  function Places(h: Heap, v: Value): Option<nat> {
    match v
    case Struct(_, _, _, fields) => Some(|fields|)
    case Map(id, _, _) => Some(|EntriesOf(h, id)|)
    case Slice(id) => Some(|ElementsOf(h, id)|)
    case Array(es) => Some(|es|)
    case _ => None
  }

  function KeysOf(entries: seq<Entry>): set<seq<Byte>> { set e | e in entries :: e.key }

  /** What one value uses by itself. */
  function Own(h: Heap, v: Value): Use {
    Use(1, if Places(h, v).Some? then 1 else 0, if v.Str? then v.length else 0, if v.Map? then KeysOf(EntriesOf(h, v.id)) else {},
        if v.Struct? && v.role == TopologyNode then 1 else 0, if v.Struct? && v.role == TopologyLink then 1 else 0)
  }

  ghost function Used(h: Heap, v: Value, depth: nat, details: bool): Use
    requires depth <= MAX_DEPTH + 1
    decreases MAX_DEPTH + 1 - depth, 1, v
  {
    match v
    case Interface(inner) => Used(h, inner, depth, details)
    case NilInterface => NOTHING.(nodes := 1)
    case _ => if depth > MAX_DEPTH then NOTHING.(nodes := 1) else Own(h, v).Plus(UsedAll(h, Parts(h, v, details), depth + 1))
  }

  ghost function UsedAll(h: Heap, parts: seq<Part>, depth: nat): Use
    requires depth <= MAX_DEPTH + 1
    decreases MAX_DEPTH + 1 - depth, 2, parts
  {
    if parts == [] then NOTHING else Used(h, parts[0].value, depth, parts[0].details).Plus(UsedAll(h, parts[1..], depth))
  }

  /** The reference that is walked through; an empty slice is not. */
  function Through(h: Heap, v: Value): Option<Id> {
    match v
    case Pointer(id, _, _) => Some(id)
    case Map(id, _, _) => Some(id)
    case Slice(id) => if ElementsOf(h, id) == [] then None else Some(id)
    case _ => None
  }

  /** No reference comes round on a path, and no container is too large. */
  ghost predicate Clear(h: Heap, v: Value, depth: nat, details: bool, active: set<Id>)
    requires depth <= MAX_DEPTH + 1
    decreases MAX_DEPTH + 1 - depth, 1, v
  {
    match v
    case Interface(inner) => Clear(h, inner, depth, details, active)
    case NilInterface => true
    case _ =>
      depth <= MAX_DEPTH ==>
        && (Places(h, v).Some? ==> Places(h, v).value <= MAX_ELEMENTS)
        && (Through(h, v).Some? ==> Through(h, v).value !in active)
        && AllClear(h, Parts(h, v, details), depth + 1, if Through(h, v).Some? then active + {Through(h, v).value} else active)
  }

  ghost predicate AllClear(h: Heap, parts: seq<Part>, depth: nat, active: set<Id>)
    requires depth <= MAX_DEPTH + 1
    decreases MAX_DEPTH + 1 - depth, 2
  {
    forall i :: 0 <= i < |parts| ==> Clear(h, parts[i].value, depth, parts[i].details, active)
  }

  /** The counters after all of a use has been charged. */
  ghost function After(b: Budget, u: Use): Budget {
    b.(nodes := b.nodes + u.nodes, containers := b.containers + u.containers, keys := b.keys + u.keys,
       stringBytes := b.stringBytes + u.strings + KeyBytes(u.keys - b.keys),
       topologyNodes := b.topologyNodes + u.topologyNodes, topologyLinks := b.topologyLinks + u.topologyLinks)
  }

  lemma {:induction false} KeyBytesOneMore(keys: set<seq<Byte>>, k: seq<Byte>)
    requires k in keys
    ensures KeyBytes(keys) == |k| + KeyBytes(keys - {k})
  {
    var x :| x in keys && KeyBytes(keys) == |x| + KeyBytes(keys - {x});
    if x != k {
      KeyBytesOneMore(keys - {x}, k);
      assert keys - {x} - {k} == keys - {k} - {x};
      KeyBytesOneMore(keys - {k}, x);
    }
  }

  lemma {:induction false} KeyBytesSplit(a: set<seq<Byte>>, b: set<seq<Byte>>)
    requires a !! b
    ensures KeyBytes(a + b) == KeyBytes(a) + KeyBytes(b)
    decreases |a|
  {
    if a == {} {
      assert a + b == b;
    } else {
      var k :| k in a;
      KeyBytesOneMore(a, k);
      KeyBytesOneMore(a + b, k);
      assert a + b - {k} == (a - {k}) + b;
      KeyBytesSplit(a - {k}, b);
    }
  }

  /** Charging two uses one after the other is charging their sum. */
  lemma AfterPlus(b: Budget, u: Use, w: Use)
    ensures After(After(b, u), w) == After(b, u.Plus(w))
  {
    var first, second := u.keys - b.keys, w.keys - (b.keys + u.keys);
    assert (u.keys + w.keys) - b.keys == first + second;
    KeyBytesSplit(first, second);
    assert b.keys + u.keys + w.keys == b.keys + (u.keys + w.keys);
  }

  lemma AfterNothing(b: Budget)
    ensures After(b, NOTHING) == b
  {
    assert {} - b.keys == {} && b.keys + {} == b.keys;
  }

  lemma WithinLess(b: Budget, u: Use)
    requires Within(After(b, u))
    ensures Within(b)
  {
  }

  // ----- One charge -----

  predicate OverBudget(e: Error, b: Budget) {
    match e
    case NodeLimit => b.nodes > MAX_NODES || b.topologyNodes > MAX_TOPOLOGY_NODES || b.topologyLinks > MAX_TOPOLOGY_LINKS
    case ContainerLimit => b.containers > MAX_CONTAINERS
    case StringLimit => b.stringBytes > MAX_STRING_BYTES
    case _ => false
  }

  /** r charges u to b when the sum is within the limits and there is no flaw; a rejection names a flaw or an exceeded limit. */
  ghost predicate Charges(r: Verdict, b: Budget, u: Use, flaws: set<Error>) {
    && (r.Accept? <==> flaws == {} && Within(After(b, u)))
    && (r.Accept? ==> r.budget == After(b, u))
    && (r.Reject? ==> r.error in flaws || OverBudget(r.error, After(b, u)))
  }

  lemma NodeCharged(b: Budget)
    requires Within(b)
    ensures Charges(AddNode(b), b, NOTHING.(nodes := 1), {})
  {
    AfterNothing(b);
  }

  function TooMany(elements: nat): set<Error> { if elements > MAX_ELEMENTS then {ContainerLimit} else {} }

  lemma ContainerCharged(b: Budget, elements: nat)
    requires Within(b)
    ensures Charges(AddContainer(b, elements), b, NOTHING.(containers := 1), TooMany(elements))
  {
    AfterNothing(b);
  }

  lemma StringCharged(b: Budget, length: nat)
    requires Within(b)
    ensures Charges(AddString(b, length), b, NOTHING.(strings := length), {})
  {
    AfterNothing(b);
  }

  lemma KeyCharged(b: Budget, key: seq<Byte>)
    requires Within(b)
    ensures Charges(AddKey(b, key), b, NOTHING.(keys := {key}), {})
  {
    if key in b.keys {
      assert {key} - b.keys == {} && b.keys + {key} == b.keys;
    } else {
      assert {key} - b.keys == {key} && {key} - {key} == {};
      KeyBytesOneMore({key}, key);
    }
  }

  function RoleUse(role: Role): Use {
    NOTHING.(topologyNodes := if role == TopologyNode then 1 else 0, topologyLinks := if role == TopologyLink then 1 else 0)
  }

  lemma RoleCharged(b: Budget, role: Role)
    requires Within(b)
    ensures Charges(AddRole(b, role), b, RoleUse(role), {})
  {
    AfterNothing(b);
  }

  /** A charge followed by another is the charge of the sum. */
  lemma ChargesThen(b: Budget, first: Verdict, u: Use, flaws: set<Error>, whole: Verdict, w: Use, more: set<Error>)
    requires Charges(first, b, u, flaws)
    requires first.Reject? ==> whole == first
    requires first.Accept? ==> Charges(whole, first.budget, w, more)
    ensures Charges(whole, b, u.Plus(w), flaws + more)
  {
    AfterPlus(b, u, w);
    if Within(After(b, u.Plus(w))) {
      WithinLess(After(b, u), w);
    }
  }

  // ----- The walk -----

  /** What is wrong with one value on a path through the active references. */
  function Here(h: Heap, v: Value, details: bool, active: set<Id>): set<Error> {
    (if Plain(v, details) then {} else if v.Float? then {NonFinite} else {Unsupported})
    + (if Places(h, v).Some? then TooMany(Places(h, v).value) else {})
    + (if Through(h, v).Some? && Through(h, v).value in active then {Cycle} else {})
  }

  function Inside(h: Heap, v: Value, active: set<Id>): set<Id> {
    if Through(h, v).Some? then active + {Through(h, v).value} else active
  }

  /** The flaws at one value and below it. */
  ghost function Flaws(h: Heap, v: Value, depth: nat, details: bool, active: set<Id>): set<Error>
    requires depth <= MAX_DEPTH + 1
    decreases MAX_DEPTH + 1 - depth, 1, v
  {
    match v
    case Interface(inner) => Flaws(h, inner, depth, details, active)
    case NilInterface => {}
    case _ =>
      if depth > MAX_DEPTH then {DepthLimit}
      else Here(h, v, details, active) + FlawsAll(h, Parts(h, v, details), depth + 1, Inside(h, v, active))
  }

  ghost function FlawsAll(h: Heap, parts: seq<Part>, depth: nat, active: set<Id>): set<Error>
    requires depth <= MAX_DEPTH + 1
    decreases MAX_DEPTH + 1 - depth, 2, parts
  {
    if parts == [] then {} else Flaws(h, parts[0].value, depth, parts[0].details, active) + FlawsAll(h, parts[1..], depth, active)
  }

  lemma FlawsAre(h: Heap, v: Value, depth: nat, details: bool, active: set<Id>)
    requires depth <= MAX_DEPTH && !v.Interface? && !v.NilInterface?
    ensures Flaws(h, v, depth, details, active) ==
            Here(h, v, details, active) + FlawsAll(h, Parts(h, v, details), depth + 1, Inside(h, v, active))
  {
    hide FlawsAll, Parts, Plain, Places, Through, Here, Inside;
  }

  lemma FlawlessHere(h: Heap, v: Value, details: bool, active: set<Id>)
    ensures Here(h, v, details, active) == {} <==>
            && Plain(v, details) && (Places(h, v).Some? ==> Places(h, v).value <= MAX_ELEMENTS)
            && (Through(h, v).Some? ==> Through(h, v).value !in active)
  {
  }

  lemma GoodAndClear(h: Heap, v: Value, depth: nat, details: bool, active: set<Id>)
    requires depth <= MAX_DEPTH && !v.Interface? && !v.NilInterface?
    ensures Good(h, v, depth, details) <==> Plain(v, details) && AllGood(h, Parts(h, v, details), depth + 1)
    ensures Clear(h, v, depth, details, active) <==>
            && (Places(h, v).Some? ==> Places(h, v).value <= MAX_ELEMENTS) && (Through(h, v).Some? ==> Through(h, v).value !in active)
            && AllClear(h, Parts(h, v, details), depth + 1, Inside(h, v, active))
  {
    hide AllGood, AllClear, Parts, Plain, Places, Through;
  }

  lemma FlawlessEdges(h: Heap, v: Value, depth: nat, details: bool, active: set<Id>)
    requires depth <= MAX_DEPTH + 1
    ensures v.NilInterface? ==> Flaws(h, v, depth, details, active) == {} && Good(h, v, depth, details) && Clear(h, v, depth, details, active)
    ensures v.Interface? ==>
              && Flaws(h, v, depth, details, active) == Flaws(h, v.inner, depth, details, active)
              && (Good(h, v, depth, details) <==> Good(h, v.inner, depth, details))
              && (Clear(h, v, depth, details, active) <==> Clear(h, v.inner, depth, details, active))
    ensures !v.Interface? && !v.NilInterface? && depth > MAX_DEPTH ==> Flaws(h, v, depth, details, active) != {} && !Good(h, v, depth, details)
  {
    hide AllGood, AllClear, FlawsAll, Parts, Here;
  }

  /** A graph without flaws is a good one in which no reference comes round and no container is too large. */
  lemma {:induction false} Flawless(h: Heap, v: Value, depth: nat, details: bool, active: set<Id>)
    requires depth <= MAX_DEPTH + 1
    ensures Flaws(h, v, depth, details, active) == {} <==> Good(h, v, depth, details) && Clear(h, v, depth, details, active)
    decreases MAX_DEPTH + 1 - depth, 1, v
  {
    hide AllGood, AllClear, FlawsAll, Parts, Good, Clear, Flaws, Here;
    FlawlessEdges(h, v, depth, details, active);
    match v
    case Interface(inner) => Flawless(h, inner, depth, details, active);
    case NilInterface =>
    case _ =>
      if depth <= MAX_DEPTH {
        FlawlessAll(h, Parts(h, v, details), depth + 1, Inside(h, v, active));
        FlawlessHere(h, v, details, active);
        FlawsAre(h, v, depth, details, active);
        GoodAndClear(h, v, depth, details, active);
      }
  }

  lemma {:induction false} FlawlessAll(h: Heap, parts: seq<Part>, depth: nat, active: set<Id>)
    requires depth <= MAX_DEPTH + 1
    ensures FlawsAll(h, parts, depth, active) == {} <==> AllGood(h, parts, depth) && AllClear(h, parts, depth, active)
    decreases MAX_DEPTH + 1 - depth, 2, parts
  {
    if parts != [] {
      hide Good, Clear, Flaws;
      Flawless(h, parts[0].value, depth, parts[0].details, active);
      FlawlessAll(h, parts[1..], depth, active);
      forall i | 0 <= i < |parts| ensures i > 0 ==> parts[i] == parts[1..][i - 1] {
      }
      SplitAll(h, parts, depth, active);
      hide AllGood, AllClear;
    }
  }

  lemma SplitAll(h: Heap, parts: seq<Part>, depth: nat, active: set<Id>)
    requires depth <= MAX_DEPTH + 1 && parts != []
    ensures AllGood(h, parts, depth) <==> Good(h, parts[0].value, depth, parts[0].details) && AllGood(h, parts[1..], depth)
    ensures AllClear(h, parts, depth, active) <==> Clear(h, parts[0].value, depth, parts[0].details, active) && AllClear(h, parts[1..], depth, active)
  {
    hide Good, Clear;
    var rest := parts[1..];
    forall i | 0 < i < |parts| ensures parts[i] == rest[i - 1] {
    }
    forall i | 0 <= i < |rest| ensures rest[i] == parts[i + 1] {
    }
  }

  lemma PartsCons(h: Heap, first: Part, rest: seq<Part>, depth: nat, active: set<Id>)
    requires depth <= MAX_DEPTH + 1
    ensures FlawsAll(h, [first] + rest, depth, active) == Flaws(h, first.value, depth, first.details, active) + FlawsAll(h, rest, depth, active)
    ensures UsedAll(h, [first] + rest, depth) == Used(h, first.value, depth, first.details).Plus(UsedAll(h, rest, depth))
  {
    hide Flaws, Used;
    assert ([first] + rest)[1..] == rest && ([first] + rest)[0] == first;
  }

  lemma NoneFlaws(h: Heap, depth: nat, active: set<Id>, b: Budget)
    requires depth <= MAX_DEPTH + 1 && Within(b)
    ensures FlawsAll(h, [], depth, active) == {} && UsedAll(h, [], depth) == NOTHING
    ensures Charges(Accept(b), b, NOTHING, {})
  {
    AfterNothing(b);
  }

  lemma {:induction false} FieldsExact(h: Heap, fields: seq<Field>, i: nat, depth: nat, b: Budget)
    requires i <= |fields| && depth <= MAX_DEPTH && Within(b)
    ensures Charges(ValidateFields(h, fields, i, depth, b), b, UsedAll(h, FieldParts(h, fields, i), depth + 1),
                    FlawsAll(h, FieldParts(h, fields, i), depth + 1, b.active))
    decreases MAX_DEPTH - depth, 2, |fields| - i
  {
    hide Charges, FlawsAll, Flaws, UsedAll, Visited;
    if i == |fields| {
      NoneFlaws(h, depth + 1, b.active, b);
    } else if !Visited(h, fields[i]) {
      FieldsExact(h, fields, i + 1, depth, b);
      assert FieldParts(h, fields, i) == FieldParts(h, fields, i + 1);
    } else {
      var v, details := fields[i].value, fields[i].details;
      var first := Validate(h, v, depth + 1, details, b);
      WalkExact(h, v, depth + 1, details, b);
      if first.Accept? {
        FieldsExact(h, fields, i + 1, depth, first.budget);
      }
      PartsCons(h, Part(v, details), FieldParts(h, fields, i + 1), depth + 1, b.active);
      ChargesThen(b, first, Used(h, v, depth + 1, details), Flaws(h, v, depth + 1, details, b.active),
                  ValidateFields(h, fields, i, depth, b), UsedAll(h, FieldParts(h, fields, i + 1), depth + 1),
                  FlawsAll(h, FieldParts(h, fields, i + 1), depth + 1, b.active));
    }
  }

  lemma {:induction false} ElementsExact(h: Heap, es: seq<Value>, i: nat, depth: nat, details: bool, b: Budget)
    requires i <= |es| && depth <= MAX_DEPTH && Within(b)
    ensures Charges(ValidateElements(h, es, i, depth, details, b), b, UsedAll(h, ElementParts(es, i, details), depth + 1),
                    FlawsAll(h, ElementParts(es, i, details), depth + 1, b.active))
    decreases MAX_DEPTH - depth, 2, |es| - i
  {
    hide Charges, FlawsAll, Flaws, UsedAll;
    if i == |es| {
      NoneFlaws(h, depth + 1, b.active, b);
    } else {
      var first := Validate(h, es[i], depth + 1, details, b);
      WalkExact(h, es[i], depth + 1, details, b);
      if first.Accept? {
        ElementsExact(h, es, i + 1, depth, details, first.budget);
      }
      PartsCons(h, Part(es[i], details), ElementParts(es, i + 1, details), depth + 1, b.active);
      assert ElementParts(es, i, details) == [Part(es[i], details)] + ElementParts(es, i + 1, details);
      ChargesThen(b, first, Used(h, es[i], depth + 1, details), Flaws(h, es[i], depth + 1, details, b.active),
                  ValidateElements(h, es, i, depth, details, b), UsedAll(h, ElementParts(es, i + 1, details), depth + 1),
                  FlawsAll(h, ElementParts(es, i + 1, details), depth + 1, b.active));
    }
  }

  /** What the entries from the i-th on use, keys included. */
  ghost function EntriesUse(h: Heap, entries: seq<Entry>, i: nat, depth: nat, details: bool): Use
    requires i <= |entries| && depth <= MAX_DEPTH + 1
  {
    NOTHING.(keys := KeysOf(entries[i..])).Plus(UsedAll(h, EntryParts(entries, i, details), depth))
  }

  lemma EntriesUseStep(h: Heap, entries: seq<Entry>, i: nat, depth: nat, details: bool)
    requires i < |entries| && depth <= MAX_DEPTH + 1
    ensures EntriesUse(h, entries, i, depth, details) ==
            NOTHING.(keys := {entries[i].key}).Plus(Used(h, entries[i].value, depth, details).Plus(EntriesUse(h, entries, i + 1, depth, details)))
  {
    hide Used, UsedAll;
    PartsCons(h, Part(entries[i].value, details), EntryParts(entries, i + 1, details), depth, {});
    assert EntryParts(entries, i, details) == [Part(entries[i].value, details)] + EntryParts(entries, i + 1, details);
    assert entries[i..] == [entries[i]] + entries[i + 1..];
    assert KeysOf(entries[i..]) == {entries[i].key} + KeysOf(entries[i + 1..]);
    var u, w, keys := Used(h, entries[i].value, depth, details), UsedAll(h, EntryParts(entries, i + 1, details), depth), KeysOf(entries[i + 1..]);
    assert ({entries[i].key} + keys) + (u.keys + w.keys) == {entries[i].key} + (u.keys + (keys + w.keys));
  }

  lemma {:induction false} EntriesExact(h: Heap, entries: seq<Entry>, i: nat, depth: nat, details: bool, b: Budget)
    requires i <= |entries| && depth <= MAX_DEPTH && Within(b)
    ensures Charges(ValidateEntries(h, entries, i, depth, details, b), b, EntriesUse(h, entries, i, depth + 1, details),
                    FlawsAll(h, EntryParts(entries, i, details), depth + 1, b.active))
    decreases MAX_DEPTH - depth, 2, |entries| - i
  {
    hide Charges, FlawsAll, Flaws, UsedAll, AddKey, EntriesUse;
    if i == |entries| {
      NoEntries(h, entries, depth + 1, details);
      NoneFlaws(h, depth + 1, b.active, b);
    } else {
      var v, rest := entries[i].value, EntryParts(entries, i + 1, details);
      var whole, key := ValidateEntries(h, entries, i, depth, details, b), AddKey(b, entries[i].key);
      var flaws := Flaws(h, v, depth + 1, details, b.active);
      KeyCharged(b, entries[i].key);
      KeyKeeps(b, entries[i].key);
      EntriesUseStep(h, entries, i, depth + 1, details);
      PartsCons(h, Part(v, details), rest, depth + 1, b.active);
      assert EntryParts(entries, i, details) == [Part(v, details)] + rest;
      if key.Accept? {
        var first := Validate(h, v, depth + 1, details, key.budget);
        WalkExact(h, v, depth + 1, details, key.budget);
        if first.Accept? {
          EntriesExact(h, entries, i + 1, depth, details, first.budget);
        }
        ChargesThen(key.budget, first, Used(h, v, depth + 1, details), flaws, whole,
                    EntriesUse(h, entries, i + 1, depth + 1, details), FlawsAll(h, rest, depth + 1, b.active));
      }
      ChargesThen(b, key, NOTHING.(keys := {entries[i].key}), {}, whole,
                  Used(h, v, depth + 1, details).Plus(EntriesUse(h, entries, i + 1, depth + 1, details)),
                  flaws + FlawsAll(h, rest, depth + 1, b.active));
      assert {} + (flaws + FlawsAll(h, rest, depth + 1, b.active)) == flaws + FlawsAll(h, rest, depth + 1, b.active);
    }
  }

  lemma NoEntries(h: Heap, entries: seq<Entry>, depth: nat, details: bool)
    requires depth <= MAX_DEPTH + 1
    ensures EntriesUse(h, entries, |entries|, depth, details) == NOTHING && EntryParts(entries, |entries|, details) == []
  {
    assert entries[|entries|..] == [] && EntryParts(entries, |entries|, details) == [];
  }

  lemma KeyKeeps(b: Budget, key: seq<Byte>)
    requires Within(b)
    ensures AddKey(b, key).Accept? ==> AddKey(b, key).budget.active == b.active && Within(AddKey(b, key).budget)
  {
  }

  /** Going through a reference charges nothing by itself. */
  lemma LeaveCharges(r: Verdict, b: Budget, u: Use, flaws: set<Error>, id: Id)
    requires Charges(r, b.(active := b.active + {id}), u, flaws)
    ensures Charges(Leave(r, b.active), b, u, flaws)
  {
  }

  lemma InterfaceFlaws(h: Heap, v: Value, depth: nat, details: bool, active: set<Id>)
    requires depth <= MAX_DEPTH + 1 && v.Interface?
    ensures Flaws(h, v, depth, details, active) == Flaws(h, v.inner, depth, details, active)
    ensures Used(h, v, depth, details) == Used(h, v.inner, depth, details)
  {
  }

  lemma NilFlaws(h: Heap, depth: nat, details: bool, active: set<Id>)
    requires depth <= MAX_DEPTH + 1
    ensures Flaws(h, NilInterface, depth, details, active) == {} && Used(h, NilInterface, depth, details) == NOTHING.(nodes := 1)
  {
  }

  lemma TooDeep(h: Heap, v: Value, depth: nat, details: bool, b: Budget)
    requires depth == MAX_DEPTH + 1 && !v.Interface? && !v.NilInterface? && Within(b)
    ensures Charges(Validate(h, v, depth, details, b), b, Used(h, v, depth, details), Flaws(h, v, depth, details, b.active))
  {
  }

  lemma NodeKeeps(b: Budget)
    requires Within(b)
    ensures AddNode(b).Accept? ==> AddNode(b).budget.active == b.active && Within(AddNode(b).budget)
  {
  }

  lemma UsedIs(h: Heap, v: Value, depth: nat, details: bool)
    requires depth <= MAX_DEPTH && !v.Interface? && !v.NilInterface?
    ensures Used(h, v, depth, details) == NOTHING.(nodes := 1).Plus(Beyond(h, v, depth, details))
  {
    hide UsedAll, Parts;
    var o, u := Own(h, v), UsedAll(h, Parts(h, v, details), depth + 1);
    assert {} + (o.keys + u.keys) == o.keys + u.keys;
  }

  lemma {:induction false} WalkExact(h: Heap, v: Value, depth: nat, details: bool, b: Budget)
    requires depth <= MAX_DEPTH + 1 && Within(b)
    ensures Charges(Validate(h, v, depth, details, b), b, Used(h, v, depth, details), Flaws(h, v, depth, details, b.active))
    ensures Validate(h, v, depth, details, b).Accept? ==> Within(Validate(h, v, depth, details, b).budget)
    decreases MAX_DEPTH + 1 - depth, 1, v
  {
    hide Charges, Flaws, ValidateKind, AddNode, UsedAll, Beyond;
    match v
    case Interface(inner) =>
      WalkExact(h, inner, depth, details, b);
      InterfaceFlaws(h, v, depth, details, b.active);
    case NilInterface =>
      NodeCharged(b);
      NilFlaws(h, depth, details, b.active);
    case _ =>
      NodeCharged(b);
      if depth > MAX_DEPTH {
        TooDeep(h, v, depth, details, b);
      } else {
        NodeKeeps(b);
        if AddNode(b).Accept? {
          KindExact(h, v, depth, details, AddNode(b).budget);
        }
        assert {} + Flaws(h, v, depth, details, b.active) == Flaws(h, v, depth, details, b.active);
        ChargesThen(b, AddNode(b), NOTHING.(nodes := 1), {}, Validate(h, v, depth, details, b),
                    Beyond(h, v, depth, details), Flaws(h, v, depth, details, b.active));
        UsedIs(h, v, depth, details);
      }
  }

  /** What a value uses beside its node. */
  ghost function Beyond(h: Heap, v: Value, depth: nat, details: bool): Use
    requires depth <= MAX_DEPTH
  {
    Own(h, v).(nodes := 0).Plus(UsedAll(h, Parts(h, v, details), depth + 1))
  }

  lemma Refused(e: Error, b: Budget, u: Use, flaws: set<Error>)
    requires e in flaws
    ensures Charges(Reject(e), b, u, flaws)
  {
  }

  lemma UseIsSame(u: Use)
    ensures NOTHING.Plus(u) == u && u.Plus(NOTHING) == u
  {
    assert {} + u.keys == u.keys && u.keys + {} == u.keys;
  }

  lemma NoUse(h: Heap, depth: nat)
    requires depth <= MAX_DEPTH + 1
    ensures UsedAll(h, [], depth) == NOTHING
  {
  }

  lemma LeafParts(h: Heap, v: Value, details: bool)
    requires !v.Interface? && !v.NilInterface? && !v.Pointer? && !v.Struct? && !v.Map? && !v.Slice? && !v.Array?
    ensures Parts(h, v, details) == [] && Through(h, v) == None && Places(h, v) == None
    ensures Own(h, v).(nodes := 0) == NOTHING.(strings := if v.Str? then v.length else 0)
  {
  }

  lemma LeafUse(h: Heap, v: Value, depth: nat, details: bool)
    requires depth <= MAX_DEPTH && !v.Interface? && !v.NilInterface?
    requires !v.Pointer? && !v.Struct? && !v.Map? && !v.Slice? && !v.Array?
    ensures Parts(h, v, details) == [] && Through(h, v) == None && Places(h, v) == None
    ensures Beyond(h, v, depth, details) == NOTHING.(strings := if v.Str? then v.length else 0)
  {
    hide Own, Parts, Through, Places, UsedAll;
    LeafParts(h, v, details);
    NoUse(h, depth + 1);
    UseIsSame(Own(h, v).(nodes := 0));
  }

  lemma PointerUse(h: Heap, v: Value, depth: nat, details: bool)
    requires depth <= MAX_DEPTH && v.Pointer?
    ensures Beyond(h, v, depth, details) == Used(h, TargetOf(h, v.id), depth + 1, details)
    ensures Parts(h, v, details) == [Part(TargetOf(h, v.id), details)] && Through(h, v) == Some(v.id) && Places(h, v) == None
  {
    hide Used, UsedAll;
    var p := Part(TargetOf(h, v.id), details);
    UseIsSame(Used(h, p.value, depth + 1, details));
    NoUse(h, depth + 1);
    PartsCons(h, p, [], depth + 1, {});
    assert [p] + [] == [p] && Parts(h, v, details) == [p];
    assert Own(h, v).(nodes := 0) == NOTHING;
  }

  lemma LeafExact(h: Heap, v: Value, depth: nat, details: bool, b: Budget)
    requires depth <= MAX_DEPTH && !v.Interface? && !v.NilInterface? && Within(b)
    requires !v.Pointer? && !v.Struct? && !v.Map? && !v.Slice? && !v.Array?
    ensures Charges(ValidateKind(h, v, depth, details, b), b, Beyond(h, v, depth, details), Flaws(h, v, depth, details, b.active))
  {
    hide Charges, Flaws, FlawsAll, UsedAll, Beyond, Parts, After, AddString, Within;
    FlawsAre(h, v, depth, details, b.active);
    NoneFlaws(h, depth + 1, b.active, b);
    LeafUse(h, v, depth, details);
    if !Plain(v, details) {
      Refused(ValidateKind(h, v, depth, details, b).error, b, Beyond(h, v, depth, details), Flaws(h, v, depth, details, b.active));
    } else if v.Str? {
      StringCharged(b, v.length);
    }
  }

  lemma {:induction false} PointerExact(h: Heap, v: Value, depth: nat, details: bool, b: Budget)
    requires depth <= MAX_DEPTH && v.Pointer? && Within(b)
    ensures Charges(ValidateKind(h, v, depth, details, b), b, Beyond(h, v, depth, details), Flaws(h, v, depth, details, b.active))
    decreases MAX_DEPTH + 1 - depth, 0, v, 0
  {
    hide Charges, Flaws, FlawsAll, UsedAll, Validate, Used, Within, Beyond, Parts;
    var inside, target := b.active + {v.id}, TargetOf(h, v.id);
    var u, flaws := Used(h, target, depth + 1, details), Flaws(h, v, depth, details, b.active);
    FlawsAre(h, v, depth, details, b.active);
    PointerUse(h, v, depth, details);
    PartsCons(h, Part(target, details), [], depth + 1, inside);
    NoneFlaws(h, depth + 1, inside, b);
    assert [Part(target, details)] + [] == [Part(target, details)];
    if !Plain(v, details) {
      Refused(Unsupported, b, u, flaws);
    } else if v.id in b.active {
      Refused(Cycle, b, u, flaws);
    } else {
      ActiveKeeps(b, inside);
      WalkExact(h, target, depth + 1, details, b.(active := inside));
      assert flaws == Flaws(h, target, depth + 1, details, inside);
      LeaveCharges(Validate(h, target, depth + 1, details, b.(active := inside)), b, u, flaws, v.id);
    }
  }

  lemma ActiveKeeps(b: Budget, active: set<Id>)
    requires Within(b)
    ensures Within(b.(active := active))
  {
  }

  lemma ContainerKeeps(b: Budget, elements: nat)
    requires Within(b)
    ensures AddContainer(b, elements).Accept? ==>
              AddContainer(b, elements).budget.active == b.active && Within(AddContainer(b, elements).budget) && elements <= MAX_ELEMENTS
  {
  }

  lemma RoleKeeps(b: Budget, role: Role)
    requires Within(b)
    ensures AddRole(b, role).Accept? ==> AddRole(b, role).budget.active == b.active && Within(AddRole(b, role).budget)
  {
  }

  lemma {:induction false} StructExact(h: Heap, v: Value, depth: nat, details: bool, b: Budget)
    requires depth <= MAX_DEPTH && v.Struct? && Within(b)
    ensures Charges(ValidateKind(h, v, depth, details, b), b, Beyond(h, v, depth, details), Flaws(h, v, depth, details, b.active))
    decreases MAX_DEPTH + 1 - depth, 0, v, 0
  {
    hide Charges, Flaws, FlawsAll, UsedAll, ValidateFields, AddRole, AddContainer, Within, FieldParts;
    var parts, whole := FieldParts(h, v.fields, 0), ValidateKind(h, v, depth, details, b);
    var inner, flaws := UsedAll(h, parts, depth + 1), TooMany(|v.fields|) + FlawsAll(h, parts, depth + 1, b.active);
    FlawsAre(h, v, depth, details, b.active);
    if !Plain(v, details) {
      Refused(Unsupported, b, Beyond(h, v, depth, details), Flaws(h, v, depth, details, b.active));
    } else {
      var first := AddRole(b, v.role);
      RoleCharged(b, v.role);
      RoleKeeps(b, v.role);
      if first.Accept? {
        ContainerThenFields(h, v.fields, depth, first.budget, whole);
      }
      ChargesThen(b, first, RoleUse(v.role), {}, whole, NOTHING.(containers := 1).Plus(inner), flaws);
      assert Flaws(h, v, depth, details, b.active) == {} + flaws;
      assert Beyond(h, v, depth, details) == RoleUse(v.role).Plus(NOTHING.(containers := 1).Plus(inner)) by {
        assert {} + inner.keys == inner.keys;
        assert {} + ({} + inner.keys) == inner.keys;
      }
    }
  }

  lemma {:induction false} ContainerThenFields(h: Heap, fields: seq<Field>, depth: nat, b: Budget, whole: Verdict)
    requires depth <= MAX_DEPTH && Within(b)
    requires whole == match AddContainer(b, |fields|) case Reject(e) => Reject(e) case Accept(b2) => ValidateFields(h, fields, 0, depth, b2)
    ensures Charges(whole, b, NOTHING.(containers := 1).Plus(UsedAll(h, FieldParts(h, fields, 0), depth + 1)),
                    TooMany(|fields|) + FlawsAll(h, FieldParts(h, fields, 0), depth + 1, b.active))
    decreases MAX_DEPTH - depth, 3
  {
    hide Charges, Flaws, FlawsAll, UsedAll, ValidateFields, AddContainer, Within;
    var first, parts := AddContainer(b, |fields|), FieldParts(h, fields, 0);
    ContainerCharged(b, |fields|);
    ContainerKeeps(b, |fields|);
    if first.Accept? {
      FieldsExact(h, fields, 0, depth, first.budget);
    }
    ChargesThen(b, first, NOTHING.(containers := 1), TooMany(|fields|), whole, UsedAll(h, parts, depth + 1),
                FlawsAll(h, parts, depth + 1, b.active));
  }

  lemma {:induction false} MapExact(h: Heap, v: Value, depth: nat, details: bool, b: Budget)
    requires depth <= MAX_DEPTH && v.Map? && Within(b)
    ensures Charges(ValidateKind(h, v, depth, details, b), b, Beyond(h, v, depth, details), Flaws(h, v, depth, details, b.active))
    decreases MAX_DEPTH + 1 - depth, 0, v, 0
  {
    hide Charges, Flaws, FlawsAll, UsedAll, ValidateEntries, AddContainer, Within;
    var entries, inside, whole := EntriesOf(h, v.id), b.active + {v.id}, ValidateKind(h, v, depth, details, b);
    var parts, n := EntryParts(entries, 0, details), |entries|;
    var below := FlawsAll(h, parts, depth + 1, inside);
    FlawsAre(h, v, depth, details, b.active);
    MapUse(h, v, depth, details);
    var u := EntriesUse(h, entries, 0, depth + 1, details);
    if !Plain(v, details) || n > MAX_ELEMENTS {
      Refused(whole.error, b, Beyond(h, v, depth, details), Flaws(h, v, depth, details, b.active));
    } else {
      var first, more := AddContainer(b, n), (if v.id in b.active then {Cycle} else {}) + below;
      ContainerCharged(b, n);
      ContainerKeeps(b, n);
      if first.Accept? {
        if v.id in b.active {
          Refused(Cycle, first.budget, u, more);
        } else {
          ActiveKeeps(first.budget, inside);
          EntriesExact(h, entries, 0, depth, details, first.budget.(active := inside));
          LeaveCharges(ValidateEntries(h, entries, 0, depth, details, first.budget.(active := inside)), first.budget, u, below, v.id);
          assert more == below;
        }
      }
      ChargesThen(b, first, NOTHING.(containers := 1), TooMany(n), whole, u, more);
      assert Flaws(h, v, depth, details, b.active) == TooMany(n) + more;
    }
  }

  lemma MapUse(h: Heap, v: Value, depth: nat, details: bool)
    requires depth <= MAX_DEPTH && v.Map?
    ensures Beyond(h, v, depth, details) == NOTHING.(containers := 1).Plus(EntriesUse(h, EntriesOf(h, v.id), 0, depth + 1, details))
  {
    hide UsedAll;
    var entries := EntriesOf(h, v.id);
    var keys, u := KeysOf(entries), UsedAll(h, EntryParts(entries, 0, details), depth + 1);
    assert entries[0..] == entries;
    assert {} + (keys + u.keys) == keys + u.keys;
  }

  lemma NothingThere(h: Heap, v: Value, details: bool, active: set<Id>)
    requires v.Slice? && ElementsOf(h, v.id) == []
    ensures Parts(h, v, details) == [] && Here(h, v, details, active) == {} && Inside(h, v, active) == active
  {
  }

  lemma SmallEnough()
    ensures TooMany(0) == {}
  {
  }

  lemma EmptySlice(h: Heap, v: Value, depth: nat, details: bool, b: Budget)
    requires depth <= MAX_DEPTH && v.Slice? && ElementsOf(h, v.id) == []
    ensures ValidateKind(h, v, depth, details, b) == AddContainer(b, 0)
  {
    hide AddContainer;
  }

  lemma EmptySliceExact(h: Heap, v: Value, depth: nat, details: bool, b: Budget)
    requires depth <= MAX_DEPTH && v.Slice? && Within(b) && ElementsOf(h, v.id) == []
    ensures Charges(ValidateKind(h, v, depth, details, b), b, Beyond(h, v, depth, details), Flaws(h, v, depth, details, b.active))
  {
    hide *;
    FlawsAre(h, v, depth, details, b.active);
    ContainerUse(h, v, depth, details);
    NothingThere(h, v, details, b.active);
    NoneFlaws(h, depth + 1, b.active, b);
    UseIsSame(NOTHING.(containers := 1));
    ContainerCharged(b, 0);
    SmallEnough();
    assert Flaws(h, v, depth, details, b.active) == {};
    EmptySlice(h, v, depth, details, b);
  }

  lemma {:induction false} SliceExact(h: Heap, v: Value, depth: nat, details: bool, b: Budget)
    requires depth <= MAX_DEPTH && v.Slice? && Within(b) && ElementsOf(h, v.id) != []
    ensures Charges(ValidateKind(h, v, depth, details, b), b, Beyond(h, v, depth, details), Flaws(h, v, depth, details, b.active))
    decreases MAX_DEPTH + 1 - depth, 0, v, 0
  {
    hide Charges, Flaws, FlawsAll, UsedAll, ValidateElements, AddContainer, Within, Beyond, ElementsOf;
    var es, inside, whole := ElementsOf(h, v.id), b.active + {v.id}, ValidateKind(h, v, depth, details, b);
    var parts, n := ElementParts(es, 0, details), |es|;
    var u, below := UsedAll(h, parts, depth + 1), FlawsAll(h, parts, depth + 1, inside);
    FlawsAre(h, v, depth, details, b.active);
    ContainerUse(h, v, depth, details);
    if n > MAX_ELEMENTS {
      Refused(whole.error, b, Beyond(h, v, depth, details), Flaws(h, v, depth, details, b.active));
    } else {
      var first, more := AddContainer(b, n), (if v.id in b.active then {Cycle} else {}) + below;
      ContainerCharged(b, n);
      ContainerKeeps(b, n);
      if first.Accept? {
        if v.id in b.active {
          Refused(Cycle, first.budget, u, more);
        } else {
          ActiveKeeps(first.budget, inside);
          ElementsExact(h, es, 0, depth, details, first.budget.(active := inside));
          LeaveCharges(ValidateElements(h, es, 0, depth, details, first.budget.(active := inside)), first.budget, u, below, v.id);
          assert more == below;
        }
      }
      ChargesThen(b, first, NOTHING.(containers := 1), TooMany(n), whole, u, more);
      assert Flaws(h, v, depth, details, b.active) == TooMany(n) + more;
    }
  }

  lemma ContainerUse(h: Heap, v: Value, depth: nat, details: bool)
    requires depth <= MAX_DEPTH && (v.Slice? || v.Array?)
    ensures Beyond(h, v, depth, details) == NOTHING.(containers := 1).Plus(UsedAll(h, Parts(h, v, details), depth + 1))
  {
    hide UsedAll;
  }

  lemma {:induction false} ArrayExact(h: Heap, v: Value, depth: nat, details: bool, b: Budget)
    requires depth <= MAX_DEPTH && v.Array? && Within(b)
    ensures Charges(ValidateKind(h, v, depth, details, b), b, Beyond(h, v, depth, details), Flaws(h, v, depth, details, b.active))
    decreases MAX_DEPTH + 1 - depth, 0, v, 0
  {
    hide Charges, Flaws, FlawsAll, UsedAll, ValidateElements, AddContainer, Within;
    var es, whole := v.elements, ValidateKind(h, v, depth, details, b);
    var parts, n := ElementParts(es, 0, details), |es|;
    FlawsAre(h, v, depth, details, b.active);
    ContainerUse(h, v, depth, details);
    if n > MAX_ELEMENTS {
      Refused(whole.error, b, Beyond(h, v, depth, details), Flaws(h, v, depth, details, b.active));
    } else {
      var first := AddContainer(b, n);
      ContainerCharged(b, n);
      ContainerKeeps(b, n);
      if first.Accept? {
        ElementsExact(h, es, 0, depth, details, first.budget);
      }
      ChargesThen(b, first, NOTHING.(containers := 1), TooMany(n), whole, UsedAll(h, parts, depth + 1), FlawsAll(h, parts, depth + 1, b.active));
      assert Flaws(h, v, depth, details, b.active) == TooMany(n) + FlawsAll(h, parts, depth + 1, b.active);
    }
  }

  lemma {:induction false} KindExact(h: Heap, v: Value, depth: nat, details: bool, b: Budget)
    requires depth <= MAX_DEPTH && !v.Interface? && !v.NilInterface? && Within(b)
    ensures Charges(ValidateKind(h, v, depth, details, b), b, Beyond(h, v, depth, details), Flaws(h, v, depth, details, b.active))
    decreases MAX_DEPTH + 1 - depth, 0, v, 1
  {
    hide *;
    match v
    case Pointer(_, _, _) => PointerExact(h, v, depth, details, b);
    case Struct(_, _, _, _) => StructExact(h, v, depth, details, b);
    case Map(_, _, _) => MapExact(h, v, depth, details, b);
    case Slice(id) =>
      if ElementsOf(h, id) == [] {
        EmptySliceExact(h, v, depth, details, b);
      } else {
        SliceExact(h, v, depth, details, b);
      }
    case Array(_) => ArrayExact(h, v, depth, details, b);
    case _ => LeafExact(h, v, depth, details, b);
  }

  /** The validator accepts exactly the graphs that are good, walk through no reference twice on a path and keep every budget,
      and charges exactly what they use; a rejection names something that is wrong. */
  lemma AcceptedExactly(h: Heap, v: Value, details: bool)
    ensures var r, whole := Validate(h, v, 0, details, EMPTY), After(EMPTY, Used(h, v, 0, details));
            && (r.Accept? <==> Good(h, v, 0, details) && Clear(h, v, 0, details, {}) && Within(whole))
            && (r.Accept? ==> r.budget == whole)
            && (r.Reject? ==> r.error in Flaws(h, v, 0, details, {}) || OverBudget(r.error, whole))
  {
    WalkExact(h, v, 0, details, EMPTY);
    Flawless(h, v, 0, details, {});
  }
}
