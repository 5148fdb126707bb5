/** The validator, the encoder and the capped buffer as the mutable objects they are. */
module ClosedMarshal {
  import opened Text
  import opened ClosedTransport
  import ClosedBudget
  import ClosedJson

  // ----- The validator -----

  class FullResponseValidator {
    const heap: Heap
    var active: set<Id>
    var stringKeys: set<seq<Byte>>
    var containers: nat
    var nodes: nat
    var stringBytes: nat
    var topologyNodes: nat
    var topologyLinks: nat

    ghost function Model(): Budget
      reads this
    {
      Budget(active, stringKeys, containers, nodes, stringBytes, topologyNodes, topologyLinks)
    }

    /** The outcome and the counters agree with the specification; a rejected walk still leaves its path. */
    ghost predicate Matches(spec: Verdict, r: Option<Error>, before: set<Id>)
      reads this
    {
      active == before && match spec case Accept(b) => r == None && Model() == b case Reject(e) => r == Some(e)
    }

    constructor (heap: Heap)
      ensures this.heap == heap && Model() == EMPTY
    {
      this.heap := heap;
      active, stringKeys := {}, {};
      containers, nodes, stringBytes, topologyNodes, topologyLinks := 0, 0, 0, 0, 0;
    }

    method AddNode() returns (r: Option<Error>)
      modifies this
      ensures Matches(ClosedTransport.AddNode(old(Model())), r, old(active))
    {
      nodes := nodes + 1;
      return if nodes > MAX_NODES then Some(NodeLimit) else None;
    }

    method AddContainer(elements: nat) returns (r: Option<Error>)
      modifies this
      ensures Matches(ClosedTransport.AddContainer(old(Model()), elements), r, old(active))
    {
      if elements > MAX_ELEMENTS {
        return Some(ContainerLimit);
      }
      containers := containers + 1;
      return if containers > MAX_CONTAINERS then Some(ContainerLimit) else None;
    }

    method AddString(length: nat) returns (r: Option<Error>)
      modifies this
      ensures Matches(ClosedTransport.AddString(old(Model()), length), r, old(active))
    {
      if length > MAX_STRING_BYTES || stringBytes > MAX_STRING_BYTES - length {
        return Some(StringLimit);
      }
      stringBytes := stringBytes + length;
      return None;
    }

    method AddKey(key: seq<Byte>) returns (r: Option<Error>)
      modifies this
      ensures Matches(ClosedTransport.AddKey(old(Model()), key), r, old(active))
    {
      if key in stringKeys {
        return None;
      }
      r := AddString(|key|);
      if r == None {
        stringKeys := stringKeys + {key};
      }
    }

    method AddRole(role: Role) returns (r: Option<Error>)
      modifies this
      ensures Matches(ClosedTransport.AddRole(old(Model()), role), r, old(active))
    {
      if role.TopologyNode? {
        topologyNodes := topologyNodes + 1;
        if topologyNodes > MAX_TOPOLOGY_NODES {
          return Some(NodeLimit);
        }
      }
      if role.TopologyLink? {
        topologyLinks := topologyLinks + 1;
        if topologyLinks > MAX_TOPOLOGY_LINKS {
          return Some(NodeLimit);
        }
      }
      return None;
    }

    method Validate(value: Value, depth: nat, details: bool) returns (r: Option<Error>)
      requires depth <= MAX_DEPTH + 1
      modifies this
      ensures Matches(ClosedTransport.Validate(heap, value, depth, details, old(Model())), r, old(active))
      decreases MAX_DEPTH + 1 - depth, 1, value
    {
      if value.Interface? {
        r := Validate(value.inner, depth, details);
        return;
      }
      r := AddNode();
      if r != None || value.NilInterface? {
        return;
      }
      if depth > MAX_DEPTH {
        return Some(DepthLimit);
      }
      r := ValidateKind(value, depth, details);
    }

    method ValidateKind(value: Value, depth: nat, details: bool) returns (r: Option<Error>)
      requires depth <= MAX_DEPTH && !value.Interface? && !value.NilInterface?
      modifies this
      ensures Matches(ClosedTransport.ValidateKind(heap, value, depth, details, old(Model())), r, old(active))
      decreases MAX_DEPTH + 1 - depth, 0, value
    {
      match value
      case Custom(_) => return Some(Unsupported);
      case Opaque => return Some(Unsupported);
      case Number(_, _) => return None;
      case Time(_) => return None;
      case NilReference => return None;
      case Float(finite, _, _) => return if finite then None else Some(NonFinite);
      case Str(length, _) => r := AddString(length);
      case Pointer(id, allowed, allowedInDetails) =>
        if !(if details then allowedInDetails else allowed) {
          return Some(Unsupported);
        }
        if id in active {
          return Some(Cycle);
        }
        ghost var before := active;
        active := active + {id};
        r := Validate(TargetOf(heap, id), depth + 1, details);
        active := active - {id};
        assert active == before;
      case Struct(role, allowed, allowedInDetails, fields) =>
        if !(if details then allowedInDetails else allowed) {
          return Some(Unsupported);
        }
        r := AddRole(role);
        if r == None {
          r := AddContainer(|fields|);
          if r == None {
            r := ValidateFields(fields, depth);
          }
        }
      case Map(id, stringKeys, customKeys) => r := ValidateMap(value, depth, details);
      case Slice(id) => r := ValidateSlice(value, depth, details);
      case Array(es) =>
        if |es| > MAX_ELEMENTS {
          return Some(ContainerLimit);
        }
        r := AddContainer(|es|);
        if r == None {
          r := ValidateElements(es, depth, details);
        }
    }

    method ValidateMap(value: Value, depth: nat, details: bool) returns (r: Option<Error>)
      requires depth <= MAX_DEPTH && value.Map?
      modifies this
      ensures Matches(ClosedTransport.ValidateKind(heap, value, depth, details, old(Model())), r, old(active))
      decreases MAX_DEPTH - depth, 3
    {
      if !value.stringKeys {
        return Some(Unsupported);
      }
      var entries := EntriesOf(heap, value.id);
      if |entries| > MAX_ELEMENTS {
        return Some(ContainerLimit);
      }
      if value.customKeys {
        return Some(Unsupported);
      }
      r := AddContainer(|entries|);
      if r != None {
        return;
      }
      if value.id in active {
        return Some(Cycle);
      }
      ghost var before := active;
      active := active + {value.id};
      r := ValidateEntries(entries, depth, details);
      active := active - {value.id};
      assert active == before;
    }

    method ValidateSlice(value: Value, depth: nat, details: bool) returns (r: Option<Error>)
      requires depth <= MAX_DEPTH && value.Slice?
      modifies this
      ensures Matches(ClosedTransport.ValidateKind(heap, value, depth, details, old(Model())), r, old(active))
      decreases MAX_DEPTH - depth, 3
    {
      var es := ElementsOf(heap, value.id);
      if |es| > MAX_ELEMENTS {
        return Some(ContainerLimit);
      }
      r := AddContainer(|es|);
      if r != None || |es| == 0 {
        return;
      }
      if value.id in active {
        return Some(Cycle);
      }
      ghost var before := active;
      active := active + {value.id};
      r := ValidateElements(es, depth, details);
      active := active - {value.id};
      assert active == before;
    }

    method ValidateFields(fields: seq<Field>, depth: nat) returns (r: Option<Error>)
      requires depth <= MAX_DEPTH
      modifies this
      ensures Matches(ClosedTransport.ValidateFields(heap, fields, 0, depth, old(Model())), r, old(active))
      decreases MAX_DEPTH - depth, 2
    {
      for i := 0 to |fields|
        invariant active == old(active)
        invariant ClosedTransport.ValidateFields(heap, fields, i, depth, Model()) ==
                  ClosedTransport.ValidateFields(heap, fields, 0, depth, old(Model()))
      {
        if Visited(heap, fields[i]) {
          r := Validate(fields[i].value, depth + 1, fields[i].details);
          if r != None {
            return;
          }
        }
      }
      return None;
    }

    method ValidateEntries(entries: seq<Entry>, depth: nat, details: bool) returns (r: Option<Error>)
      requires depth <= MAX_DEPTH
      modifies this
      ensures Matches(ClosedTransport.ValidateEntries(heap, entries, 0, depth, details, old(Model())), r, old(active))
      decreases MAX_DEPTH - depth, 2
    {
      for i := 0 to |entries|
        invariant active == old(active)
        invariant ClosedTransport.ValidateEntries(heap, entries, i, depth, details, Model()) ==
                  ClosedTransport.ValidateEntries(heap, entries, 0, depth, details, old(Model()))
      {
        r := AddKey(entries[i].key);
        if r != None {
          return;
        }
        r := Validate(entries[i].value, depth + 1, details);
        if r != None {
          return;
        }
      }
      return None;
    }

    method ValidateElements(es: seq<Value>, depth: nat, details: bool) returns (r: Option<Error>)
      requires depth <= MAX_DEPTH
      modifies this
      ensures Matches(ClosedTransport.ValidateElements(heap, es, 0, depth, details, old(Model())), r, old(active))
      decreases MAX_DEPTH - depth, 2
    {
      for i := 0 to |es|
        invariant active == old(active)
        invariant ClosedTransport.ValidateElements(heap, es, i, depth, details, Model()) ==
                  ClosedTransport.ValidateElements(heap, es, 0, depth, details, old(Model()))
      {
        r := Validate(es[i], depth + 1, details);
        if r != None {
          return;
        }
      }
      return None;
    }
  }

  // ----- The capped buffer -----

  class LimitedJSONBuffer {
    const limit: nat
    var data: seq<Byte>
    var capacity: nat
    var failed: bool

    ghost predicate Valid()
      reads this
    {
      |data| <= capacity <= limit
    }

    constructor (limit: nat)
      ensures Valid() && this.limit == limit && data == [] && !failed
    {
      this.limit := limit;
      data, failed := [], false;
      capacity := if limit < 4096 then limit else 4096;
    }

    /** Room is found by doubling, never past the limit; once refused, the buffer stays refused. */
    method Reserve(additional: nat) returns (ok: bool)
      requires Valid()
      modifies this`capacity, this`failed
      ensures Valid() && ok == (!old(failed) && |data| + additional <= limit) && failed == !ok
      ensures ok ==> |data| + additional <= capacity
    {
      if failed {
        return false;
      }
      if |data| > limit - additional {
        failed := true;
        return false;
      }
      var required := |data| + additional;
      if required <= capacity {
        return true;
      }
      var grown := capacity * 2;
      if grown < required {
        grown := required;
      }
      if grown > limit {
        grown := limit;
      }
      capacity := grown;
      return true;
    }

    method Write(bytes: seq<Byte>) returns (ok: bool)
      requires Valid()
      modifies this
      ensures Valid() && ok == (!old(failed) && |old(data)| + |bytes| <= limit) && failed == !ok
      ensures data == if ok then old(data) + bytes else old(data)
    {
      ok := Reserve(|bytes|);
      if ok {
        data := data + bytes;
      }
    }
  }

  // ----- The encoder -----

  datatype Fault = Ok | TooLarge | LeafError | BadValue

  /** The capped outcome of an unlimited output that starts behind some bytes already written. */
  function Capped(start: nat, limit: nat, out: Output): Fault {
    if start + |out.bytes| > limit then TooLarge
    else match out.stop
      case Done => Ok
      case LeafFailure => LeafError
      case UnsupportedValue => BadValue
      case Runaway => BadValue
  }

  /** From here on the rest gives what the whole would have given. */
  ghost predicate Resumes(start: seq<Byte>, whole: Output, data: seq<Byte>, rest: Output) {
    whole.stop == rest.stop && start + whole.bytes == data + rest.bytes
  }

  lemma ThenResumes(start: seq<Byte>, whole: Output, data: seq<Byte>, piece: Output, rest: Output)
    requires Resumes(start, whole, data, piece.Then(rest))
    ensures piece.stop == Done ==> Resumes(start, whole, data + piece.bytes, rest)
    ensures piece.stop != Done ==> Resumes(start, whole, data, piece)
    ensures |data| + |piece.bytes| <= |start| + |whole.bytes|
  {
    assert |start + whole.bytes| == |data + piece.Then(rest).bytes|;
    if piece.stop == Done {
      assert data + (piece.bytes + rest.bytes) == data + piece.bytes + rest.bytes;
    }
  }

  lemma NothingLeft(start: seq<Byte>, whole: Output, data: seq<Byte>, limit: nat)
    requires Resumes(start, whole, data, ClosedTransport.Write([])) && |data| <= limit
    ensures data == start + whole.bytes && Capped(|start|, limit, whole) == Ok
  {
    assert data + [] == data;
  }

  lemma ThenAssociates(a: Output, b: Output, c: Output)
    ensures a.Then(b).Then(c) == a.Then(b.Then(c))
  {
    if a.stop == Done && b.stop == Done {
      assert a.bytes + b.bytes + c.bytes == a.bytes + (b.bytes + c.bytes);
    }
  }

  class FullResponseEncoder {
    const heap: Heap
    const buffer: LimitedJSONBuffer

    constructor (heap: Heap, buffer: LimitedJSONBuffer)
      ensures this.heap == heap && this.buffer == buffer
    {
      this.heap, this.buffer := heap, buffer;
    }

    ghost predicate Ready()
      reads this, buffer
    {
      buffer.Valid() && !buffer.failed
    }

    /** The buffer after producing out behind start. */
    ghost predicate Produced(start: seq<Byte>, out: Output, r: Fault)
      reads this, buffer
    {
      && buffer.Valid()
      && r == Capped(|start|, buffer.limit, out)
      && (r != TooLarge ==> buffer.data == start + out.bytes && !buffer.failed)
      && (r == TooLarge ==> buffer.failed)
    }

    method Put(bytes: seq<Byte>, ghost start: seq<Byte>, ghost whole: Output, ghost rest: Output) returns (r: Fault)
      requires Ready() && Resumes(start, whole, buffer.data, ClosedTransport.Write(bytes).Then(rest))
      modifies buffer
      ensures r == Ok || r == TooLarge
      ensures r == Ok ==> Ready() && Resumes(start, whole, buffer.data, rest)
      ensures r == TooLarge ==> Produced(start, whole, r)
    {
      ThenResumes(start, whole, buffer.data, ClosedTransport.Write(bytes), rest);
      var ok := buffer.Write(bytes);
      return if ok then Ok else TooLarge;
    }

    /** One part of a larger output. */
    method EncodePart(value: Value, ghost fuel: nat, ghost start: seq<Byte>, ghost whole: Output, ghost rest: Output)
      returns (r: Fault)
      requires Ready() && Resumes(start, whole, buffer.data, Emit(heap, value, fuel).Then(rest)) && whole.stop != Runaway
      modifies buffer
      ensures r == Ok ==> Ready() && Resumes(start, whole, buffer.data, rest)
      ensures r != Ok ==> Produced(start, whole, r)
      decreases fuel, 1, value
    {
      ThenResumes(start, whole, buffer.data, Emit(heap, value, fuel), rest);
      r := Encode(value, fuel);
    }

    method Encode(value: Value, ghost fuel: nat) returns (r: Fault)
      requires Ready() && Emit(heap, value, fuel).stop != Runaway
      modifies buffer
      ensures Produced(old(buffer.data), Emit(heap, value, fuel), r)
      decreases fuel, 0, value
    {
      ghost var start, whole := buffer.data, Emit(heap, value, fuel);
      match value
      case Interface(inner) => r := Encode(inner, fuel);
      case Custom(plain) => r := Encode(plain, fuel);
      case NilInterface => r := WriteToken(NULL);
      case NilReference => r := WriteToken(NULL);
      case Number(_, token) => r := WriteToken(token);
      case Float(_, _, leaf) => r := EncodeLeaf(leaf);
      case Str(_, leaf) => r := EncodeLeaf(leaf);
      case Time(leaf) => r := EncodeLeaf(leaf);
      case Opaque => return BadValue;
      case Pointer(id, _, _) => r := Encode(TargetOf(heap, id), fuel - 1);
      case Struct(_, _, _, fields) =>
        r := EncodeComposite(OPEN_BRACE, CLOSE_BRACE, value, fuel, EmitFields(heap, fields, 0, false, fuel - 1));
      case Map(id, _, _) =>
        r := EncodeComposite(OPEN_BRACE, CLOSE_BRACE, value, fuel, EmitEntries(heap, Sorted(EntriesOf(heap, id)), 0, fuel - 1));
      case Slice(id) =>
        if GroupsOf(heap, id).Some? {
          r := EncodeByteSlice(GroupsOf(heap, id).value, start, whole);
        } else {
          r := EncodeComposite(OPEN_BRACKET, CLOSE_BRACKET, value, fuel, EmitElements(heap, ElementsOf(heap, id), 0, fuel - 1));
        }
      case Array(es) =>
        r := EncodeComposite(OPEN_BRACKET, CLOSE_BRACKET, value, fuel, EmitElements(heap, es, 0, fuel - 1));
    }

    method WriteToken(token: seq<Byte>) returns (r: Fault)
      requires Ready()
      modifies buffer
      ensures Produced(old(buffer.data), Enter(token), r)
    {
      var ok := buffer.Write(token);
      return if ok then Ok else TooLarge;
    }

    method EncodeLeaf(leaf: Option<seq<Byte>>) returns (r: Fault)
      requires Ready()
      modifies buffer
      ensures Produced(old(buffer.data), Leaf(leaf), r)
    {
      match leaf
      case None => return LeafError;
      case Some(token) => r := WriteToken(token);
    }

    /** The bracketed body of a struct, map, slice or array. */
    method EncodeComposite(open: seq<Byte>, close: seq<Byte>, value: Value, ghost fuel: nat, ghost body: Output)
      returns (r: Fault)
      requires Ready() && fuel > 0 && Emit(heap, value, fuel).stop != Runaway
      requires Emit(heap, value, fuel) == Enter(open).Then(body).Then(ClosedTransport.Write(close))
      requires match value
               case Struct(_, _, _, fields) => body == EmitFields(heap, fields, 0, false, fuel - 1)
               case Map(id, _, _) => body == EmitEntries(heap, Sorted(EntriesOf(heap, id)), 0, fuel - 1)
               case Slice(id) => body == EmitElements(heap, ElementsOf(heap, id), 0, fuel - 1)
               case Array(es) => body == EmitElements(heap, es, 0, fuel - 1)
               case _ => false
      modifies buffer
      ensures Produced(old(buffer.data), Emit(heap, value, fuel), r)
      decreases fuel - 1, 3
    {
      ghost var start, whole, tail := buffer.data, Emit(heap, value, fuel), ClosedTransport.Write(close);
      ThenAssociates(Enter(open), body, tail);
      r := Put(open, start, whole, body.Then(tail));
      if r != Ok {
        return;
      }
      if value.Struct? {
        r := EncodeFields(value.fields, fuel - 1, start, whole, tail);
      } else if value.Map? {
        r := EncodeEntries(Sorted(EntriesOf(heap, value.id)), fuel - 1, start, whole, tail);
      } else {
        var es := if value.Slice? then ElementsOf(heap, value.id) else value.elements;
        r := EncodeElements(es, fuel - 1, start, whole, tail);
      }
      if r != Ok {
        return;
      }
      ghost var end := Output([], Done, 0);
      assert tail.Then(end).bytes == tail.bytes;
      r := Put(close, start, whole, end);
    }

    method EncodeFields(fields: seq<Field>, ghost fuel: nat, ghost start: seq<Byte>, ghost whole: Output, ghost tail: Output)
      returns (r: Fault)
      requires Ready() && whole.stop != Runaway
      requires Resumes(start, whole, buffer.data, EmitFields(heap, fields, 0, false, fuel).Then(tail))
      modifies buffer
      ensures r == Ok ==> Ready() && Resumes(start, whole, buffer.data, tail)
      ensures r != Ok ==> Produced(start, whole, r)
      decreases fuel, 2
    {
      var wrote := false;
      for i := 0 to |fields|
        invariant Ready() && Resumes(start, whole, buffer.data, EmitFields(heap, fields, i, wrote, fuel).Then(tail))
      {
        if Visited(heap, fields[i]) {
          ghost var more := EmitFields(heap, fields, i + 1, true, fuel).Then(tail);
          ghost var part := Emit(heap, fields[i].value, fuel);
          MemberRest(wrote, fields[i].name, part, EmitFields(heap, fields, i + 1, true, fuel), tail);
          r := PutMember(wrote, fields[i].name, start, whole, part.Then(more));
          if r != Ok {
            return;
          }
          wrote := true;
          r := EncodePart(fields[i].value, fuel, start, whole, more);
          if r != Ok {
            return;
          }
        }
      }
      return Ok;
    }

    method EncodeEntries(entries: seq<Entry>, ghost fuel: nat, ghost start: seq<Byte>, ghost whole: Output, ghost tail: Output)
      returns (r: Fault)
      requires Ready() && whole.stop != Runaway
      requires Resumes(start, whole, buffer.data, EmitEntries(heap, entries, 0, fuel).Then(tail))
      modifies buffer
      ensures r == Ok ==> Ready() && Resumes(start, whole, buffer.data, tail)
      ensures r != Ok ==> Produced(start, whole, r)
      decreases fuel, 2
    {
      for i := 0 to |entries|
        invariant Ready() && Resumes(start, whole, buffer.data, EmitEntries(heap, entries, i, fuel).Then(tail))
      {
        ghost var more := EmitEntries(heap, entries, i + 1, fuel).Then(tail);
        ghost var part := Emit(heap, entries[i].value, fuel);
        MemberRest(i > 0, entries[i].token, part, EmitEntries(heap, entries, i + 1, fuel), tail);
        r := PutMember(i > 0, entries[i].token, start, whole, part.Then(more));
        if r != Ok {
          return;
        }
        r := EncodePart(entries[i].value, fuel, start, whole, more);
        if r != Ok {
          return;
        }
      }
      return Ok;
    }

    method EncodeElements(es: seq<Value>, ghost fuel: nat, ghost start: seq<Byte>, ghost whole: Output, ghost tail: Output)
      returns (r: Fault)
      requires Ready() && whole.stop != Runaway
      requires Resumes(start, whole, buffer.data, EmitElements(heap, es, 0, fuel).Then(tail))
      modifies buffer
      ensures r == Ok ==> Ready() && Resumes(start, whole, buffer.data, tail)
      ensures r != Ok ==> Produced(start, whole, r)
      decreases fuel, 2
    {
      for i := 0 to |es|
        invariant Ready() && Resumes(start, whole, buffer.data, EmitElements(heap, es, i, fuel).Then(tail))
      {
        ghost var next := EmitElements(heap, es, i + 1, fuel);
        ghost var part := Emit(heap, es[i], fuel);
        ThenAssociates(Lead(i > 0), part, next);
        ThenAssociates(Lead(i > 0), part.Then(next), tail);
        ThenAssociates(part, next, tail);
        r := PutComma(i > 0, start, whole, part.Then(next.Then(tail)));
        if r != Ok {
          return;
        }
        r := EncodePart(es[i], fuel, start, whole, next.Then(tail));
        if r != Ok {
          return;
        }
      }
      return Ok;
    }

    method PutComma(after: bool, ghost start: seq<Byte>, ghost whole: Output, ghost rest: Output) returns (r: Fault)
      requires Ready() && Resumes(start, whole, buffer.data, Lead(after).Then(rest))
      modifies buffer
      ensures r == Ok || r == TooLarge
      ensures r == Ok ==> Ready() && Resumes(start, whole, buffer.data, rest)
      ensures r == TooLarge ==> Produced(start, whole, r)
    {
      if after {
        r := Put([0x2c], start, whole, rest);
      } else {
        ThenResumes(start, whole, buffer.data, Lead(false), rest);
        assert buffer.data + [] == buffer.data;
        r := Ok;
      }
    }

    /** The comma, the quoted name and the colon before a member's value. */
    method PutMember(after: bool, name: seq<Byte>, ghost start: seq<Byte>, ghost whole: Output, ghost rest: Output)
      returns (r: Fault)
      requires Ready()
      requires Resumes(start, whole, buffer.data,
                       Lead(after).Then(ClosedTransport.Write(name).Then(ClosedTransport.Write([0x3a]).Then(rest))))
      modifies buffer
      ensures r == Ok || r == TooLarge
      ensures r == Ok ==> Ready() && Resumes(start, whole, buffer.data, rest)
      ensures r == TooLarge ==> Produced(start, whole, r)
    {
      r := PutComma(after, start, whole, ClosedTransport.Write(name).Then(ClosedTransport.Write([0x3a]).Then(rest)));
      if r == Ok {
        r := Put(name, start, whole, ClosedTransport.Write([0x3a]).Then(rest));
        if r == Ok {
          r := Put([0x3a], start, whole, rest);
        }
      }
    }

    /** The quoted base64 text, one group of at most three bytes at a time. */
    method EncodeByteSlice(groups: seq<Group>, ghost start: seq<Byte>, ghost whole: Output) returns (r: Fault)
      requires Ready() && buffer.data == start && whole == Enter(MARK + Joined(groups, 0) + MARK)
      modifies buffer
      ensures Produced(start, whole, r)
    {
      QuotedGroups(start, whole, groups);
      r := Put(MARK, start, whole, GroupTail(groups, 0));
      if r == Ok {
        r := EncodeGroups(groups, start, whole);
      }
    }

    method EncodeGroups(groups: seq<Group>, ghost start: seq<Byte>, ghost whole: Output) returns (r: Fault)
      requires Ready() && Resumes(start, whole, buffer.data, GroupTail(groups, 0))
      modifies buffer
      ensures Produced(start, whole, r)
    {
      r := Ok;
      var i := 0;
      while i < |groups| && r == Ok
        invariant i <= |groups|
        invariant r == Ok ==> Ready() && Resumes(start, whole, buffer.data, GroupTail(groups, i))
        invariant r != Ok ==> Produced(start, whole, r)
      {
        NextGroup(groups, i);
        r := Put(groups[i].text, start, whole, GroupTail(groups, i + 1));
        i := i + 1;
      }
      if r == Ok {
        LastGroup(groups);
        r := CloseQuote(start, whole);
      }
    }

    method CloseQuote(ghost start: seq<Byte>, ghost whole: Output) returns (r: Fault)
      requires Ready() && Resumes(start, whole, buffer.data, ClosedTransport.Write(MARK).Then(ClosedTransport.Write([])))
      modifies buffer
      ensures Produced(start, whole, r)
    {
      hide Resumes, Capped, ClosedTransport.Write, Output.Then;
      r := Put(MARK, start, whole, ClosedTransport.Write([]));
      if r == Ok {
        NothingLeft(start, whole, buffer.data, buffer.limit);
      }
    }
  }

  /** What is still to be written before group i. */
  ghost function GroupTail(groups: seq<Group>, i: nat): Output
    requires i <= |groups|
  {
    ClosedTransport.Write(Joined(groups, i) + MARK)
  }

  lemma NextGroup(groups: seq<Group>, i: nat)
    requires i < |groups|
    ensures GroupTail(groups, i) == ClosedTransport.Write(groups[i].text).Then(GroupTail(groups, i + 1))
  {
    assert groups[i].text + Joined(groups, i + 1) + MARK == groups[i].text + (Joined(groups, i + 1) + MARK);
  }

  lemma LastGroup(groups: seq<Group>)
    ensures GroupTail(groups, |groups|) == ClosedTransport.Write(MARK).Then(ClosedTransport.Write([]))
  {
    assert [] + MARK == MARK && MARK + [] == MARK;
  }

  lemma QuotedGroups(start: seq<Byte>, whole: Output, groups: seq<Group>)
    requires whole == Enter(MARK + Joined(groups, 0) + MARK)
    ensures Resumes(start, whole, start, ClosedTransport.Write(MARK).Then(GroupTail(groups, 0)))
  {
    assert MARK + Joined(groups, 0) + MARK == MARK + (Joined(groups, 0) + MARK);
  }

  lemma MemberRest(after: bool, name: seq<Byte>, part: Output, next: Output, tail: Output)
    ensures Lead(after).Then(ClosedTransport.Write(name + [0x3a])).Then(part).Then(next).Then(tail) ==
            Lead(after).Then(ClosedTransport.Write(name).Then(ClosedTransport.Write([0x3a]).Then(part.Then(next.Then(tail)))))
  {
    var lead, named, rest := Lead(after), ClosedTransport.Write(name + [0x3a]), part.Then(next.Then(tail));
    ThenAssociates(lead.Then(named).Then(part), next, tail);
    ThenAssociates(lead.Then(named), part, next.Then(tail));
    ThenAssociates(lead, named, rest);
    ThenAssociates(ClosedTransport.Write(name), ClosedTransport.Write([0x3a]), rest);
  }

  /** Read as JSON, the payload is the tree of the report, with nothing left but the newline. */
  ghost predicate ReadsBack(heap: Heap, report: Value, payload: seq<Byte>, newline: bool) {
    exists j :: ClosedJson.IsTree(heap, report, j, FUEL)
                && (ClosedJson.Lexical(j) ==> ClosedJson.ReadValue(payload) == Some((j, if newline then [10] else [])))
  }

  lemma PayloadReadsBack(heap: Heap, report: Value, newline: bool)
    requires Emit(heap, report, FUEL).stop == Done
    ensures ReadsBack(heap, report, Emit(heap, report, FUEL).bytes + (if newline then [10] else []), newline)
  {
    ClosedJson.EncodingReadsBack(heap, report, FUEL, if newline then [10] else []);
  }

  /** Validation, then encoding, then an optional newline: an accepted report is either fully written within the cap,
      or refused because it is too large or because a leaf would not serialise. Nothing else can happen. */
  method MarshalClosedResponse(heap: Heap, report: Value, cap: nat, newline: bool)
    returns (r: Fault, payload: seq<Byte>, rejected: Option<Error>)
    ensures rejected.Some? <==> ClosedTransport.Validate(heap, report, 0, false, EMPTY).Reject?
    ensures rejected.Some? ==> ClosedTransport.Validate(heap, report, 0, false, EMPTY) == Reject(rejected.value)
    ensures rejected == None ==>
              var out := Emit(heap, report, FUEL);
              && (out.stop == Done || out.stop == LeafFailure)
              && r == Capped(0, cap, if newline then out.Then(ClosedTransport.Write([10])) else out) && r != BadValue
              && (r == Ok ==> payload == out.bytes + (if newline then [10] else []) && |payload| <= cap)
    ensures var whole := ClosedBudget.After(EMPTY, ClosedBudget.Used(heap, report, 0, false));
            && (rejected == None <==> Good(heap, report, 0, false) && ClosedBudget.Clear(heap, report, 0, false, {}) && Within(whole))
            && (rejected.Some? ==>
                  rejected.value in ClosedBudget.Flaws(heap, report, 0, false, {}) || ClosedBudget.OverBudget(rejected.value, whole))
    ensures rejected == None && r == Ok ==> ReadsBack(heap, report, payload, newline)
  {
    payload := [];
    ClosedBudget.AcceptedExactly(heap, report, false);
    hide Good, ClosedBudget.Clear, ClosedBudget.Flaws, ClosedBudget.Used, ClosedBudget.After, ClosedBudget.OverBudget, ReadsBack;
    var validator := new FullResponseValidator(heap);
    rejected := validator.Validate(report, 0, false);
    if rejected.Some? {
      return BadValue, payload, rejected;
    }
    NoIllFoundedEncoding(heap, report, false);
    var buffer := new LimitedJSONBuffer(cap);
    var encoder := new FullResponseEncoder(heap, buffer);
    r := encoder.Encode(report, FUEL);
    ghost var out := Emit(heap, report, FUEL);
    assert [] + out.bytes == out.bytes;
    if r == Ok {
      PayloadReadsBack(heap, report, newline);
    }
    if r == Ok && newline {
      var ok := buffer.Write([10]);
      if !ok {
        r := TooLarge;
      }
    }
    payload := buffer.data;
  }
}
