/** The closed JSON transport of backend/api/report_payload.go: a budgeted, cycle-detecting validator in front of
    an encoder that checks neither depth nor cycles and writes into a hard-capped buffer. */
module ClosedTransport {
  import opened Text

  const MAX_DEPTH: nat := 64
  const MAX_CONTAINERS: nat := 32768
  const MAX_NODES: nat := 262144
  const MAX_STRING_BYTES: nat := 1000000
  const MAX_TOPOLOGY_NODES: nat := 8192
  const MAX_TOPOLOGY_LINKS: nat := 16384
  const MAX_ELEMENTS: nat := 32768

  // ----- Values and the heap -----

  /** The identity of a pointer, map or slice: its kind, type, address and length. */
  type Id = nat

  datatype Role = PlainStruct | TopologyNode | TopologyLink

  /** A struct field as reflection shows it; skipped covers unexported fields and the tag "-". */
  datatype Field = Field(name: seq<Byte>, skipped: bool, omitEmpty: bool, details: bool, value: Value)

  datatype Entry = Entry(key: seq<Byte>, token: seq<Byte>, value: Value)

  /** A reflect.Value; token is the JSON the standard library writes for a leaf, None when it refuses to. */
  datatype Value =
    | NilInterface
    | Interface(inner: Value)
    | Number(zero: bool, token: seq<Byte>)
    | Float(finite: bool, zero: bool, leaf: Option<seq<Byte>>)
    | Str(length: nat, leaf: Option<seq<Byte>>)
    | Time(leaf: Option<seq<Byte>>)
    | Custom(plain: Value)
    | Opaque
    | NilReference
    | Pointer(id: Id, allowed: bool, allowedInDetails: bool)
    | Map(id: Id, stringKeys: bool, customKeys: bool)
    | Slice(id: Id)
    | Struct(role: Role, allowed: bool, allowedInDetails: bool, fields: seq<Field>)
    | Array(elements: seq<Value>)

  /** The base64 text of at most three bytes. */
  datatype Group = Group(text: seq<Byte>)

  datatype Object = Target(value: Value) | Entries(entries: seq<Entry>) | Elements(elements: seq<Value>) | Octets(octets: seq<Byte>, groups: seq<Group>)

  /** Octets also carries the base64 text of each of its three-byte groups, which the standard library supplies. */
  type Heap = map<Id, Object>

  function TargetOf(h: Heap, id: Id): Value { if id in h && h[id].Target? then h[id].value else NilInterface }

  function EntriesOf(h: Heap, id: Id): seq<Entry> { if id in h && h[id].Entries? then h[id].entries else [] }

  function GroupsOf(h: Heap, id: Id): Option<seq<Group>> { if id in h && h[id].Octets? then Some(h[id].groups) else None }

  /** A slice's elements; bytes are numbers like any other. */
  function ElementsOf(h: Heap, id: Id): seq<Value> {
    if id !in h then []
    else match h[id]
      case Elements(es) => es
      case Octets(os, _) => seq(|os|, i requires 0 <= i < |os| => Number(os[i] == 0, Decimal(os[i])))
      case _ => []
  }

  predicate IsEmpty(h: Heap, v: Value) {
    match v
    case NilInterface | NilReference => true
    case Number(zero, _) => zero
    case Float(_, zero, _) => zero
    case Str(length, _) => length == 0
    case Map(id, _, _) => EntriesOf(h, id) == []
    case Slice(id) => ElementsOf(h, id) == []
    case Array(es) => es == []
    case Custom(plain) => IsEmpty(h, plain)
    case _ => false
  }

  predicate Visited(h: Heap, f: Field) { !f.skipped && !(f.omitEmpty && IsEmpty(h, f.value)) }

  // ----- The validator -----

  datatype Error = NodeLimit | DepthLimit | Unsupported | NonFinite | StringLimit | ContainerLimit | Cycle

  datatype Budget = Budget(active: set<Id>, keys: set<seq<Byte>>, containers: nat, nodes: nat, stringBytes: nat,
                           topologyNodes: nat, topologyLinks: nat)

  const EMPTY := Budget({}, {}, 0, 0, 0, 0, 0)

  datatype Verdict = Accept(budget: Budget) | Reject(error: Error)

  predicate Within(b: Budget) {
    && b.nodes <= MAX_NODES && b.containers <= MAX_CONTAINERS && b.stringBytes <= MAX_STRING_BYTES
    && b.topologyNodes <= MAX_TOPOLOGY_NODES && b.topologyLinks <= MAX_TOPOLOGY_LINKS
  }

  function AddNode(b: Budget): Verdict {
    if b.nodes + 1 > MAX_NODES then Reject(NodeLimit) else Accept(b.(nodes := b.nodes + 1))
  }

  function AddContainer(b: Budget, elements: nat): Verdict {
    if elements > MAX_ELEMENTS || b.containers + 1 > MAX_CONTAINERS then Reject(ContainerLimit)
    else Accept(b.(containers := b.containers + 1))
  }

  function AddString(b: Budget, length: nat): Verdict {
    if length > MAX_STRING_BYTES || b.stringBytes > MAX_STRING_BYTES - length then Reject(StringLimit)
    else Accept(b.(stringBytes := b.stringBytes + length))
  }

  function AddKey(b: Budget, key: seq<Byte>): Verdict {
    if key in b.keys then Accept(b)
    else match AddString(b, |key|)
      case Accept(b') => Accept(b'.(keys := b'.keys + {key}))
      case Reject(e) => Reject(e)
  }

  function AddRole(b: Budget, role: Role): Verdict {
    match role
    case PlainStruct => Accept(b)
    case TopologyNode =>
      if b.topologyNodes + 1 > MAX_TOPOLOGY_NODES then Reject(NodeLimit) else Accept(b.(topologyNodes := b.topologyNodes + 1))
    case TopologyLink =>
      if b.topologyLinks + 1 > MAX_TOPOLOGY_LINKS then Reject(NodeLimit) else Accept(b.(topologyLinks := b.topologyLinks + 1))
  }

  /** The walk. Every step into a part goes one level deeper, so it ends on every graph, cyclic or not. */
  function Validate(h: Heap, v: Value, depth: nat, details: bool, b: Budget): (r: Verdict)
    requires depth <= MAX_DEPTH + 1
    ensures r.Accept? ==> r.budget.active == b.active && (Within(b) ==> Within(r.budget))
    decreases MAX_DEPTH + 1 - depth, 1, v
  {
    match v
    case Interface(inner) => Validate(h, inner, depth, details, b)
    case NilInterface => AddNode(b)
    case _ =>
      match AddNode(b)
      case Reject(e) => Reject(e)
      case Accept(b1) => if depth > MAX_DEPTH then Reject(DepthLimit) else ValidateKind(h, v, depth, details, b1)
  }

  function ValidateKind(h: Heap, v: Value, depth: nat, details: bool, b: Budget): (r: Verdict)
    requires depth <= MAX_DEPTH
    ensures r.Accept? ==> r.budget.active == b.active && (Within(b) ==> Within(r.budget))
    decreases MAX_DEPTH + 1 - depth, 0, v
  {
    match v
    case Interface(_) | NilInterface => Accept(b)
    case Custom(_) | Opaque => Reject(Unsupported)
    case Number(_, _) | Time(_) | NilReference => Accept(b)
    case Float(finite, _, _) => if finite then Accept(b) else Reject(NonFinite)
    case Str(length, _) => AddString(b, length)
    case Pointer(id, allowed, allowedInDetails) =>
      if !(if details then allowedInDetails else allowed) then Reject(Unsupported)
      else if id in b.active then Reject(Cycle)
      else Leave(Validate(h, TargetOf(h, id), depth + 1, details, b.(active := b.active + {id})), b.active)
    case Struct(role, allowed, allowedInDetails, fields) =>
      if !(if details then allowedInDetails else allowed) then Reject(Unsupported)
      else (match AddRole(b, role)
            case Reject(e) => Reject(e)
            case Accept(b1) =>
              match AddContainer(b1, |fields|)
              case Reject(e) => Reject(e)
              case Accept(b2) => ValidateFields(h, fields, 0, depth, b2))
    case Map(id, stringKeys, customKeys) =>
      if !stringKeys then Reject(Unsupported)
      else if |EntriesOf(h, id)| > MAX_ELEMENTS then Reject(ContainerLimit)
      else if customKeys then Reject(Unsupported)
      else (match AddContainer(b, |EntriesOf(h, id)|)
            case Reject(e) => Reject(e)
            case Accept(b1) =>
              if id in b1.active then Reject(Cycle)
              else Leave(ValidateEntries(h, EntriesOf(h, id), 0, depth, details, b1.(active := b1.active + {id})), b.active))
    case Slice(id) =>
      var es := ElementsOf(h, id);
      if |es| > MAX_ELEMENTS then Reject(ContainerLimit)
      else (match AddContainer(b, |es|)
            case Reject(e) => Reject(e)
            case Accept(b1) =>
              if |es| == 0 then Accept(b1)
              else if id in b1.active then Reject(Cycle)
              else Leave(ValidateElements(h, es, 0, depth, details, b1.(active := b1.active + {id})), b.active))
    case Array(es) =>
      if |es| > MAX_ELEMENTS then Reject(ContainerLimit)
      else (match AddContainer(b, |es|)
            case Reject(e) => Reject(e)
            case Accept(b1) => ValidateElements(h, es, 0, depth, details, b1))
  }

  /** Leaving a reference takes it off the active path. */
  function Leave(r: Verdict, active: set<Id>): Verdict {
    match r
    case Accept(b) => Accept(b.(active := active))
    case Reject(e) => Reject(e)
  }

  function ValidateFields(h: Heap, fields: seq<Field>, i: nat, depth: nat, b: Budget): (r: Verdict)
    requires i <= |fields| && depth <= MAX_DEPTH
    ensures r.Accept? ==> r.budget.active == b.active && (Within(b) ==> Within(r.budget))
    decreases MAX_DEPTH - depth, 2, |fields| - i
  {
    if i == |fields| then Accept(b)
    else if !Visited(h, fields[i]) then ValidateFields(h, fields, i + 1, depth, b)
    else match Validate(h, fields[i].value, depth + 1, fields[i].details, b)
      case Reject(e) => Reject(e)
      case Accept(b1) => ValidateFields(h, fields, i + 1, depth, b1)
  }

  function ValidateEntries(h: Heap, entries: seq<Entry>, i: nat, depth: nat, details: bool, b: Budget): (r: Verdict)
    requires i <= |entries| && depth <= MAX_DEPTH
    ensures r.Accept? ==> r.budget.active == b.active && (Within(b) ==> Within(r.budget))
    decreases MAX_DEPTH - depth, 2, |entries| - i
  {
    if i == |entries| then Accept(b)
    else match AddKey(b, entries[i].key)
      case Reject(e) => Reject(e)
      case Accept(b1) =>
        match Validate(h, entries[i].value, depth + 1, details, b1)
        case Reject(e) => Reject(e)
        case Accept(b2) => ValidateEntries(h, entries, i + 1, depth, details, b2)
  }

  function ValidateElements(h: Heap, es: seq<Value>, i: nat, depth: nat, details: bool, b: Budget): (r: Verdict)
    requires i <= |es| && depth <= MAX_DEPTH
    ensures r.Accept? ==> r.budget.active == b.active && (Within(b) ==> Within(r.budget))
    decreases MAX_DEPTH - depth, 2, |es| - i
  {
    if i == |es| then Accept(b)
    else match Validate(h, es[i], depth + 1, details, b)
      case Reject(e) => Reject(e)
      case Accept(b1) => ValidateElements(h, es, i + 1, depth, details, b1)
  }

  // ----- The encoder, which recurses without any check of its own -----

  /** Runaway marks a recursion deeper than the fuel of the specification. */
  datatype Stop = Done | LeafFailure | UnsupportedValue | Runaway

  /** The bytes produced before the encoder stops, why it stops, and how many values it has entered. */
  datatype Output = Output(bytes: seq<Byte>, stop: Stop, visits: nat) {
    function Then(next: Output): Output {
      if stop == Done then Output(bytes + next.bytes, next.stop, visits + next.visits) else this
    }
  }

  const NULL: seq<Byte> := [0x6e, 0x75, 0x6c, 0x6c]
  const OPEN_BRACE: seq<Byte> := [0x7b]
  const CLOSE_BRACE: seq<Byte> := [0x7d]
  const OPEN_BRACKET: seq<Byte> := [0x5b]
  const CLOSE_BRACKET: seq<Byte> := [0x5d]
  const MARK: seq<Byte> := [0x22]

  function Write(bytes: seq<Byte>): Output { Output(bytes, Done, 0) }

  function Enter(bytes: seq<Byte>): Output { Output(bytes, Done, 1) }

  function Leaf(leaf: Option<seq<Byte>>): Output {
    match leaf
    case Some(token) => Output(token, Done, 1)
    case None => Output([], LeafFailure, 1)
  }

  function Lead(after: bool): Output { Write(if after then [0x2c] else []) }

  /** Byte order of strings, as sort.Slice compares map keys. */
  predicate KeyBefore(a: seq<Byte>, b: seq<Byte>) {
    if b == [] then false
    else if a == [] then true
    else a[0] < b[0] || (a[0] == b[0] && KeyBefore(a[1..], b[1..]))
  }

  function Insert(e: Entry, sorted: seq<Entry>): seq<Entry> {
    if sorted == [] || !KeyBefore(sorted[0].key, e.key) then [e] + sorted else [sorted[0]] + Insert(e, sorted[1..])
  }

  function Sorted(entries: seq<Entry>): seq<Entry> {
    if entries == [] then [] else Insert(entries[0], Sorted(entries[1..]))
  }

  /** The groups from the i-th on. */
  function Joined(groups: seq<Group>, i: nat): seq<Byte>
    requires i <= |groups|
    decreases |groups| - i
  {
    if i == |groups| then [] else groups[i].text + Joined(groups, i + 1)
  }

  function Emit(h: Heap, v: Value, fuel: nat): Output
    decreases fuel, 0, v
  {
    match v
    case Interface(inner) => Emit(h, inner, fuel)
    case Custom(plain) => Emit(h, plain, fuel)
    case NilInterface | NilReference => Enter(NULL)
    case Number(_, token) => Enter(token)
    case Float(_, _, leaf) => Leaf(leaf)
    case Str(_, leaf) => Leaf(leaf)
    case Time(leaf) => Leaf(leaf)
    case Opaque => Output([], UnsupportedValue, 1)
    case Pointer(id, _, _) =>
      if fuel == 0 then Output([], Runaway, 1) else Enter([]).Then(Emit(h, TargetOf(h, id), fuel - 1))
    case Struct(_, _, _, fields) =>
      if fuel == 0 then Output([], Runaway, 1)
      else Enter(OPEN_BRACE).Then(EmitFields(h, fields, 0, false, fuel - 1)).Then(Write(CLOSE_BRACE))
    case Map(id, _, _) =>
      if fuel == 0 then Output([], Runaway, 1)
      else Enter(OPEN_BRACE).Then(EmitEntries(h, Sorted(EntriesOf(h, id)), 0, fuel - 1)).Then(Write(CLOSE_BRACE))
    case Slice(id) =>
      if fuel == 0 then Output([], Runaway, 1)
      else if GroupsOf(h, id).Some? then Enter(MARK + Joined(GroupsOf(h, id).value, 0) + MARK)
      else Enter(OPEN_BRACKET).Then(EmitElements(h, ElementsOf(h, id), 0, fuel - 1)).Then(Write(CLOSE_BRACKET))
    case Array(es) =>
      if fuel == 0 then Output([], Runaway, 1)
      else Enter(OPEN_BRACKET).Then(EmitElements(h, es, 0, fuel - 1)).Then(Write(CLOSE_BRACKET))
  }

  function EmitFields(h: Heap, fields: seq<Field>, i: nat, wrote: bool, fuel: nat): Output
    requires i <= |fields|
    decreases fuel, 1, |fields| - i
  {
    if i == |fields| then Write([])
    else if !Visited(h, fields[i]) then EmitFields(h, fields, i + 1, wrote, fuel)
    else
      Lead(wrote).Then(Write(fields[i].name + [0x3a])).Then(Emit(h, fields[i].value, fuel))
      .Then(EmitFields(h, fields, i + 1, true, fuel))
  }

  function EmitEntries(h: Heap, entries: seq<Entry>, i: nat, fuel: nat): Output
    requires i <= |entries|
    decreases fuel, 1, |entries| - i
  {
    if i == |entries| then Write([])
    else
      Lead(i > 0).Then(Write(entries[i].token + [0x3a])).Then(Emit(h, entries[i].value, fuel))
      .Then(EmitEntries(h, entries, i + 1, fuel))
  }

  function EmitElements(h: Heap, es: seq<Value>, i: nat, fuel: nat): Output
    requires i <= |es|
    decreases fuel, 1, |es| - i
  {
    if i == |es| then Write([])
    else Lead(i > 0).Then(Emit(h, es[i], fuel)).Then(EmitElements(h, es, i + 1, fuel))
  }

  // ----- What acceptance means, without budgets -----

  /** The kind checks at one value. */
  predicate Plain(v: Value, details: bool) {
    match v
    case Custom(_) | Opaque => false
    case Float(finite, _, _) => finite
    case Pointer(_, allowed, allowedInDetails) => if details then allowedInDetails else allowed
    case Struct(_, allowed, allowedInDetails, _) => if details then allowedInDetails else allowed
    case Map(_, stringKeys, customKeys) => stringKeys && !customKeys
    case _ => true
  }

  datatype Part = Part(value: Value, details: bool)

  function FieldParts(h: Heap, fields: seq<Field>, i: nat): seq<Part>
    requires i <= |fields|
    decreases |fields| - i
  {
    if i == |fields| then []
    else (if Visited(h, fields[i]) then [Part(fields[i].value, fields[i].details)] else []) + FieldParts(h, fields, i + 1)
  }

  function EntryParts(entries: seq<Entry>, i: nat, details: bool): (r: seq<Part>)
    requires i <= |entries|
    ensures |r| == |entries| - i
  {
    seq(|entries| - i, k requires 0 <= k < |entries| - i => Part(entries[i + k].value, details))
  }

  function ElementParts(es: seq<Value>, i: nat, details: bool): (r: seq<Part>)
    requires i <= |es|
    ensures |r| == |es| - i
  {
    seq(|es| - i, k requires 0 <= k < |es| - i => Part(es[i + k], details))
  }

  /** The values one step below v. */
  function Parts(h: Heap, v: Value, details: bool): seq<Part> {
    match v
    case Pointer(id, _, _) => [Part(TargetOf(h, id), details)]
    case Struct(_, _, _, fields) => FieldParts(h, fields, 0)
    case Map(id, _, _) => EntryParts(EntriesOf(h, id), 0, details)
    case Slice(id) => ElementParts(ElementsOf(h, id), 0, details)
    case Array(es) => ElementParts(es, 0, details)
    case _ => []
  }

  /** No forbidden kind and no part below the depth limit anywhere under v. */
  ghost predicate Good(h: Heap, v: Value, depth: nat, details: bool)
    requires depth <= MAX_DEPTH + 1
    decreases MAX_DEPTH + 1 - depth, 1, v
  {
    match v
    case Interface(inner) => Good(h, inner, depth, details)
    case NilInterface => true
    case _ => depth <= MAX_DEPTH && Plain(v, details) && AllGood(h, Parts(h, v, details), depth + 1)
  }

  ghost predicate AllGood(h: Heap, parts: seq<Part>, depth: nat)
    requires depth <= MAX_DEPTH + 1
    decreases MAX_DEPTH + 1 - depth, 2
  {
    forall i :: 0 <= i < |parts| ==> Good(h, parts[i].value, depth, parts[i].details)
  }

  /** How many values the validator charges under v. */
  ghost function Weight(h: Heap, v: Value, depth: nat, details: bool): (w: nat)
    requires depth <= MAX_DEPTH + 1
    ensures w >= 1
    decreases MAX_DEPTH + 1 - depth, 1, v
  {
    match v
    case Interface(inner) => Weight(h, inner, depth, details)
    case NilInterface => 1
    case _ => if depth > MAX_DEPTH then 1 else 1 + WeightAll(h, Parts(h, v, details), depth + 1)
  }

  ghost function WeightAll(h: Heap, parts: seq<Part>, depth: nat): nat
    requires depth <= MAX_DEPTH + 1
    decreases MAX_DEPTH + 1 - depth, 2, parts
  {
    if parts == [] then 0 else Weight(h, parts[0].value, depth, parts[0].details) + WeightAll(h, parts[1..], depth)
  }

  // ----- Acceptance is goodness, charged exactly -----

  lemma {:induction false} AcceptedIsGood(h: Heap, v: Value, depth: nat, details: bool, b: Budget)
    requires depth <= MAX_DEPTH + 1
    requires Validate(h, v, depth, details, b).Accept?
    ensures Good(h, v, depth, details)
    ensures Validate(h, v, depth, details, b).budget.nodes == b.nodes + Weight(h, v, depth, details)
    decreases MAX_DEPTH + 1 - depth, 1, v
  {
    if v.Interface? {
      AcceptedIsGood(h, v.inner, depth, details, b);
    } else if !v.NilInterface? {
      AcceptedKind(h, v, depth, details, AddNode(b).budget);
    }
  }

  lemma {:induction false} AcceptedKind(h: Heap, v: Value, depth: nat, details: bool, b: Budget)
    requires depth <= MAX_DEPTH && !v.Interface? && !v.NilInterface?
    requires ValidateKind(h, v, depth, details, b).Accept?
    ensures Plain(v, details) && AllGood(h, Parts(h, v, details), depth + 1)
    ensures ValidateKind(h, v, depth, details, b).budget.nodes == b.nodes + WeightAll(h, Parts(h, v, details), depth + 1)
    decreases MAX_DEPTH + 1 - depth, 0, v
  {
    hide IsEmpty, Visited, ValidateFields, ValidateEntries, ValidateElements;
    match v
    case Pointer(id, _, _) =>
      AcceptedIsGood(h, TargetOf(h, id), depth + 1, details, b.(active := b.active + {id}));
      assert Parts(h, v, details)[1..] == [];
    case Struct(role, _, _, fields) =>
      AcceptedFields(h, fields, 0, depth, AddContainer(AddRole(b, role).budget, |fields|).budget);
    case Map(id, _, _) =>
      var b1 := AddContainer(b, |EntriesOf(h, id)|).budget;
      AcceptedEntries(h, EntriesOf(h, id), 0, depth, details, b1.(active := b1.active + {id}));
    case Slice(id) =>
      var b1 := AddContainer(b, |ElementsOf(h, id)|).budget;
      if |ElementsOf(h, id)| > 0 {
        AcceptedElements(h, ElementsOf(h, id), 0, depth, details, b1.(active := b1.active + {id}));
      }
    case Array(es) =>
      AcceptedElements(h, es, 0, depth, details, AddContainer(b, |es|).budget);
    case _ =>
  }

  lemma AllGoodCons(h: Heap, first: Part, rest: seq<Part>, depth: nat)
    requires depth <= MAX_DEPTH + 1
    requires Good(h, first.value, depth, first.details) && AllGood(h, rest, depth)
    ensures AllGood(h, [first] + rest, depth)
    ensures WeightAll(h, [first] + rest, depth) == Weight(h, first.value, depth, first.details) + WeightAll(h, rest, depth)
  {
    assert ([first] + rest)[1..] == rest;
  }

  lemma {:induction false} AcceptedFields(h: Heap, fields: seq<Field>, i: nat, depth: nat, b: Budget)
    requires i <= |fields| && depth <= MAX_DEPTH
    requires ValidateFields(h, fields, i, depth, b).Accept?
    ensures AllGood(h, FieldParts(h, fields, i), depth + 1)
    ensures ValidateFields(h, fields, i, depth, b).budget.nodes == b.nodes + WeightAll(h, FieldParts(h, fields, i), depth + 1)
    decreases MAX_DEPTH - depth, 2, |fields| - i
  {
    if i < |fields| {
      if Visited(h, fields[i]) {
        AcceptedIsGood(h, fields[i].value, depth + 1, fields[i].details, b);
        AcceptedFields(h, fields, i + 1, depth, Validate(h, fields[i].value, depth + 1, fields[i].details, b).budget);
        AllGoodCons(h, Part(fields[i].value, fields[i].details), FieldParts(h, fields, i + 1), depth + 1);
      } else {
        AcceptedFields(h, fields, i + 1, depth, b);
        assert FieldParts(h, fields, i) == FieldParts(h, fields, i + 1);
      }
    }
  }

  lemma {:induction false} AcceptedEntries(h: Heap, entries: seq<Entry>, i: nat, depth: nat, details: bool, b: Budget)
    requires i <= |entries| && depth <= MAX_DEPTH
    requires ValidateEntries(h, entries, i, depth, details, b).Accept?
    ensures AllGood(h, EntryParts(entries, i, details), depth + 1)
    ensures ValidateEntries(h, entries, i, depth, details, b).budget.nodes ==
            b.nodes + WeightAll(h, EntryParts(entries, i, details), depth + 1)
    decreases MAX_DEPTH - depth, 2, |entries| - i
  {
    if i < |entries| {
      var b1 := AddKey(b, entries[i].key).budget;
      AcceptedIsGood(h, entries[i].value, depth + 1, details, b1);
      AcceptedEntries(h, entries, i + 1, depth, details, Validate(h, entries[i].value, depth + 1, details, b1).budget);
      AllGoodCons(h, Part(entries[i].value, details), EntryParts(entries, i + 1, details), depth + 1);
      assert EntryParts(entries, i, details) == [Part(entries[i].value, details)] + EntryParts(entries, i + 1, details);
    }
  }

  lemma {:induction false} AcceptedElements(h: Heap, es: seq<Value>, i: nat, depth: nat, details: bool, b: Budget)
    requires i <= |es| && depth <= MAX_DEPTH
    requires ValidateElements(h, es, i, depth, details, b).Accept?
    ensures AllGood(h, ElementParts(es, i, details), depth + 1)
    ensures ValidateElements(h, es, i, depth, details, b).budget.nodes ==
            b.nodes + WeightAll(h, ElementParts(es, i, details), depth + 1)
    decreases MAX_DEPTH - depth, 2, |es| - i
  {
    if i < |es| {
      AcceptedIsGood(h, es[i], depth + 1, details, b);
      AcceptedElements(h, es, i + 1, depth, details, Validate(h, es[i], depth + 1, details, b).budget);
      AllGoodCons(h, Part(es[i], details), ElementParts(es, i + 1, details), depth + 1);
      assert ElementParts(es, i, details) == [Part(es[i], details)] + ElementParts(es, i + 1, details);
    }
  }

  // ----- A good graph is encoded -----

  ghost predicate Ends(o: Output) { o.stop == Done || o.stop == LeafFailure }

  lemma {:induction false} GoodIsEncoded(h: Heap, v: Value, depth: nat, details: bool, fuel: nat)
    requires depth <= MAX_DEPTH + 1 && Good(h, v, depth, details) && fuel + depth >= MAX_DEPTH + 1
    ensures Ends(Emit(h, v, fuel)) && Emit(h, v, fuel).visits <= Weight(h, v, depth, details)
    decreases MAX_DEPTH + 1 - depth, 1, v
  {
    hide Sorted, Joined, EmitFields, EmitEntries, EmitElements, IsEmpty;
    match v
    case Interface(inner) => GoodIsEncoded(h, inner, depth, details, fuel);
    case Pointer(id, _, _) =>
      assert Parts(h, v, details)[0] == Part(TargetOf(h, id), details);
      GoodIsEncoded(h, TargetOf(h, id), depth + 1, details, fuel - 1);
    case Struct(_, _, _, fields) => FieldsEncoded(h, fields, 0, false, depth + 1, fuel - 1);
    case Map(id, _, _) =>
      SortedParts(h, EntriesOf(h, id), depth + 1, details);
      EntriesEncoded(h, Sorted(EntriesOf(h, id)), 0, depth + 1, details, fuel - 1);
    case Slice(id) =>
      if GroupsOf(h, id).None? {
        ElementsEncoded(h, ElementsOf(h, id), 0, depth + 1, details, fuel - 1);
      }
    case Array(es) => ElementsEncoded(h, es, 0, depth + 1, details, fuel - 1);
    case _ =>
  }

  lemma AllGoodSplit(h: Heap, first: Part, rest: seq<Part>, parts: seq<Part>, depth: nat)
    requires depth <= MAX_DEPTH + 1 && parts == [first] + rest && AllGood(h, parts, depth)
    ensures Good(h, first.value, depth, first.details) && AllGood(h, rest, depth)
    ensures WeightAll(h, parts, depth) == Weight(h, first.value, depth, first.details) + WeightAll(h, rest, depth)
  {
    assert parts[0] == first && parts[1..] == rest;
    forall i | 0 <= i < |rest|
      ensures Good(h, rest[i].value, depth, rest[i].details)
    {
      assert parts[i + 1] == rest[i];
    }
  }

  lemma {:induction false} FieldsEncoded(h: Heap, fields: seq<Field>, i: nat, wrote: bool, depth: nat, fuel: nat)
    requires i <= |fields| && depth <= MAX_DEPTH + 1 && fuel + depth >= MAX_DEPTH + 1
    requires AllGood(h, FieldParts(h, fields, i), depth)
    ensures Ends(EmitFields(h, fields, i, wrote, fuel))
    ensures EmitFields(h, fields, i, wrote, fuel).visits <= WeightAll(h, FieldParts(h, fields, i), depth)
    decreases MAX_DEPTH + 1 - depth, 2, |fields| - i
  {
    if i < |fields| {
      if Visited(h, fields[i]) {
        AllGoodSplit(h, Part(fields[i].value, fields[i].details), FieldParts(h, fields, i + 1), FieldParts(h, fields, i), depth);
        GoodIsEncoded(h, fields[i].value, depth, fields[i].details, fuel);
        FieldsEncoded(h, fields, i + 1, true, depth, fuel);
      } else {
        assert FieldParts(h, fields, i) == FieldParts(h, fields, i + 1);
        FieldsEncoded(h, fields, i + 1, wrote, depth, fuel);
      }
    }
  }

  lemma {:induction false} EntriesEncoded(h: Heap, entries: seq<Entry>, i: nat, depth: nat, details: bool, fuel: nat)
    requires i <= |entries| && depth <= MAX_DEPTH + 1 && fuel + depth >= MAX_DEPTH + 1
    requires AllGood(h, EntryParts(entries, i, details), depth)
    ensures Ends(EmitEntries(h, entries, i, fuel))
    ensures EmitEntries(h, entries, i, fuel).visits <= WeightAll(h, EntryParts(entries, i, details), depth)
    decreases MAX_DEPTH + 1 - depth, 2, |entries| - i
  {
    if i < |entries| {
      AllGoodSplit(h, Part(entries[i].value, details), EntryParts(entries, i + 1, details), EntryParts(entries, i, details), depth);
      GoodIsEncoded(h, entries[i].value, depth, details, fuel);
      EntriesEncoded(h, entries, i + 1, depth, details, fuel);
    }
  }

  lemma {:induction false} ElementsEncoded(h: Heap, es: seq<Value>, i: nat, depth: nat, details: bool, fuel: nat)
    requires i <= |es| && depth <= MAX_DEPTH + 1 && fuel + depth >= MAX_DEPTH + 1
    requires AllGood(h, ElementParts(es, i, details), depth)
    ensures Ends(EmitElements(h, es, i, fuel))
    ensures EmitElements(h, es, i, fuel).visits <= WeightAll(h, ElementParts(es, i, details), depth)
    decreases MAX_DEPTH + 1 - depth, 2, |es| - i
  {
    if i < |es| {
      AllGoodSplit(h, Part(es[i], details), ElementParts(es, i + 1, details), ElementParts(es, i, details), depth);
      GoodIsEncoded(h, es[i], depth, details, fuel);
      ElementsEncoded(h, es, i + 1, depth, details, fuel);
    }
  }

  // ----- The encoder's key order does not change what there is to encode -----

  lemma {:induction false} InsertParts(h: Heap, e: Entry, entries: seq<Entry>, depth: nat, details: bool)
    requires depth <= MAX_DEPTH + 1
    requires Good(h, e.value, depth, details) && AllGood(h, EntryParts(entries, 0, details), depth)
    ensures AllGood(h, EntryParts(Insert(e, entries), 0, details), depth)
    ensures WeightAll(h, EntryParts(Insert(e, entries), 0, details), depth) ==
            Weight(h, e.value, depth, details) + WeightAll(h, EntryParts(entries, 0, details), depth)
  {
    if entries == [] || !KeyBefore(entries[0].key, e.key) {
      assert EntryParts([e] + entries, 0, details) == [Part(e.value, details)] + EntryParts(entries, 0, details);
      AllGoodCons(h, Part(e.value, details), EntryParts(entries, 0, details), depth);
    } else {
      var first, rest := Part(entries[0].value, details), entries[1..];
      assert EntryParts(entries, 0, details) == [first] + EntryParts(rest, 0, details);
      AllGoodSplit(h, first, EntryParts(rest, 0, details), EntryParts(entries, 0, details), depth);
      InsertParts(h, e, rest, depth, details);
      assert EntryParts(Insert(e, entries), 0, details) == [first] + EntryParts(Insert(e, rest), 0, details);
      AllGoodCons(h, first, EntryParts(Insert(e, rest), 0, details), depth);
    }
  }

  lemma {:induction false} SortedParts(h: Heap, entries: seq<Entry>, depth: nat, details: bool)
    requires depth <= MAX_DEPTH + 1 && AllGood(h, EntryParts(entries, 0, details), depth)
    ensures AllGood(h, EntryParts(Sorted(entries), 0, details), depth)
    ensures WeightAll(h, EntryParts(Sorted(entries), 0, details), depth) == WeightAll(h, EntryParts(entries, 0, details), depth)
  {
    if entries != [] {
      var first, rest := Part(entries[0].value, details), entries[1..];
      assert EntryParts(entries, 0, details) == [first] + EntryParts(rest, 0, details);
      AllGoodSplit(h, first, EntryParts(rest, 0, details), EntryParts(entries, 0, details), depth);
      SortedParts(h, rest, depth, details);
      InsertParts(h, entries[0], Sorted(rest), depth, details);
    }
  }

  // ----- Main results -----

  const FUEL: nat := MAX_DEPTH + 1

  /** Any accepted graph, shared or once thought cyclic, is encoded without an unsupported value and without running
      away, entering no more values than the validator charged; only a leaf can still fail. */
  lemma NoIllFoundedEncoding(h: Heap, v: Value, details: bool)
    requires Validate(h, v, 0, details, EMPTY).Accept?
    ensures var out, b := Emit(h, v, FUEL), Validate(h, v, 0, details, EMPTY).budget;
            && (out.stop == Done || out.stop == LeafFailure)
            && out.visits <= b.nodes && Within(b) && b.active == {}
  {
    AcceptedIsGood(h, v, 0, details, EMPTY);
    GoodIsEncoded(h, v, 0, details, FUEL);
  }

  /** A chain of n steps into parts starts at v. */
  ghost predicate HasPath(h: Heap, v: Value, details: bool, n: nat)
    decreases n, v, 0
  {
    if v.Interface? then HasPath(h, v.inner, details, n)
    else n == 0 || exists i :: 0 <= i < |Parts(h, v, details)| && PathFrom(h, Parts(h, v, details)[i], n - 1)
  }

  ghost predicate PathFrom(h: Heap, p: Part, n: nat)
    decreases n, p.value, 1
  {
    HasPath(h, p.value, p.details, n)
  }

  /** An accepted graph has no path deeper than the limit; in particular none that runs round a cycle. */
  lemma {:induction false} AcceptedIsShallow(h: Heap, v: Value, depth: nat, details: bool, n: nat)
    requires depth <= MAX_DEPTH + 1 && Good(h, v, depth, details) && HasPath(h, v, details, n)
    ensures depth + n <= MAX_DEPTH + 1
    decreases n, v
  {
    if v.Interface? {
      AcceptedIsShallow(h, v.inner, depth, details, n);
    } else if n > 0 {
      var parts := Parts(h, v, details);
      var i :| 0 <= i < |parts| && PathFrom(h, parts[i], n - 1);
      GoodBelow(h, v, depth, details);
      AcceptedIsShallow(h, parts[i].value, depth + 1, parts[i].details, n - 1);
    }
  }

  lemma GoodBelow(h: Heap, v: Value, depth: nat, details: bool)
    requires depth <= MAX_DEPTH + 1 && !v.Interface? && Good(h, v, depth, details)
    ensures v.NilInterface? || depth <= MAX_DEPTH
    ensures depth <= MAX_DEPTH ==> AllGood(h, Parts(h, v, details), depth + 1)
    ensures v.NilInterface? ==> Parts(h, v, details) == []
  {
  }
}
