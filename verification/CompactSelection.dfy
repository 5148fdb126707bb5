/** The round-robin selector of backend/diagnostic/compact_topology.go: routes of every result take
    turns to add their next edge to a shared selection, under a node budget, a link budget and an
    optional bound on the number of accepted edges ("transactions"). */
module CompactSelection {

  /** The canonical key of an observed node; its constructor is the node's kind. */
  datatype NodeKey =
    | Local
    | Ip(text: string)
    | Hostname(name: string)
    | Unknown(result: nat, attempt: int, occurrence: nat, hop: int)

  datatype Edge = Edge(from: NodeKey, to: NodeKey)

  /** The part of a raw route the selector reads: the result it belongs to and its node keys. */
  datatype Path = Path(resultIndex: nat, keys: seq<NodeKey>) {
    function Edges(): nat { if |keys| == 0 then 0 else |keys| - 1 }

    function EdgeAt(i: nat): Edge
      requires i < Edges()
    {
      Edge(keys[i], keys[i + 1])
    }
  }

  /** Budgets of one run; maxTransactions below zero means no transaction bound. */
  datatype Limits = Limits(maxNodes: nat, maxLinks: nat, maxTransactions: int) {
    predicate Reached(accepted: nat) { 0 <= maxTransactions <= accepted }
  }

  /** trace lists, in order, the route of every accepted edge. */
  datatype State = State(accepted: seq<nat>, blocked: seq<bool>, cursors: seq<nat>,
                         order: seq<NodeKey>, links: set<Edge>,
                         nodeLimited: bool, linkLimited: bool, trace: seq<nat>)

  // ----- Well-formedness -----

  /** groups[g] holds routes of result g ... */
  ghost predicate Groups(paths: seq<Path>, groups: seq<seq<nat>>) {
    forall g, i :: 0 <= g < |groups| && 0 <= i < |groups[g]| ==>
      groups[g][i] < |paths| && paths[groups[g][i]].resultIndex == g
  }

  /** ... and every route is in the group of its result. */
  ghost predicate Covers(paths: seq<Path>, groups: seq<seq<nat>>) {
    forall r :: 0 <= r < |paths| ==> paths[r].resultIndex < |groups| && r in groups[paths[r].resultIndex]
  }

  ghost predicate Distinct<T>(s: seq<T>) { forall i, j :: 0 <= i < j < |s| ==> s[i] != s[j] }

  ghost predicate Shape(paths: seq<Path>, groups: seq<seq<nat>>, st: State) {
    && |st.accepted| == |st.blocked| == |paths|
    && |st.cursors| == |groups|
    && (forall r :: 0 <= r < |paths| ==> st.accepted[r] <= paths[r].Edges())
  }

  // ----- One turn of one group -----

  predicate Pending(paths: seq<Path>, st: State, r: nat)
    requires r < |paths| && |st.accepted| == |st.blocked| == |paths|
  {
    !st.blocked[r] && st.accepted[r] < paths[r].Edges()
  }

  /** The first position, scanning circularly from the cursor, whose route can still go on; |group| when none can. */
  function Scan(paths: seq<Path>, group: seq<nat>, st: State, cursor: nat, scanned: nat): (position: nat)
    requires |st.accepted| == |st.blocked| == |paths|
    requires forall i :: 0 <= i < |group| ==> group[i] < |paths|
    requires scanned <= |group|
    ensures position <= |group|
    ensures position < |group| ==> Pending(paths, st, group[position])
    decreases |group| - scanned
  {
    if scanned == |group| then |group|
    else
      var position := (cursor + scanned) % |group|;
      if Pending(paths, st, group[position]) then position
      else Scan(paths, group, st, cursor, scanned + 1)
  }

  function AddKey(order: seq<NodeKey>, key: NodeKey): (r: seq<NodeKey>)
    ensures order <= r && key in r
    ensures forall k :: k in r <==> k in order || k == key
    ensures Distinct(order) ==> Distinct(r)
  {
    if key in order then order else order + [key]
  }

  function NodeCost(order: seq<NodeKey>, e: Edge): nat {
    (if e.from in order then 0 else 1) + (if e.to != e.from && e.to !in order then 1 else 0)
  }

  function LinkCost(links: set<Edge>, e: Edge): nat {
    if e.from != e.to && e !in links then 1 else 0
  }

  function Attempt(paths: seq<Path>, lim: Limits, st: State, r: nat): (st': State)
    requires r < |paths| && |st.accepted| == |st.blocked| == |paths| && Pending(paths, st, r)
  {
    var e := paths[r].EdgeAt(st.accepted[r]);
    if |st.order| + NodeCost(st.order, e) > lim.maxNodes then
      st.(blocked := st.blocked[r := true], nodeLimited := true)
    else if |st.links| + LinkCost(st.links, e) > lim.maxLinks then
      st.(blocked := st.blocked[r := true], linkLimited := true)
    else
      st.(accepted := st.accepted[r := st.accepted[r] + 1],
          order := AddKey(AddKey(st.order, e.from), e.to),
          links := if e.from != e.to then st.links + {e} else st.links,
          trace := st.trace + [r])
  }

  /** One group's turn, and whether the group was still active. */
  function Turn(paths: seq<Path>, groups: seq<seq<nat>>, lim: Limits, st: State, g: nat): (r: (State, bool))
    requires Groups(paths, groups) && Shape(paths, groups, st) && g < |groups|
    ensures Shape(paths, groups, r.0)
  {
    var group := groups[g];
    var position := Scan(paths, group, st, st.cursors[g], 0);
    if position == |group| then (st, false)
    else
      var moved := st.(cursors := st.cursors[g := (position + 1) % |group|]);
      if lim.Reached(|st.trace|) then (moved, true)
      else (Attempt(paths, lim, moved, group[position]), true)
  }

  function Round(paths: seq<Path>, groups: seq<seq<nat>>, lim: Limits, st: State, g: nat): (r: (State, bool))
    requires Groups(paths, groups) && Shape(paths, groups, st) && g <= |groups|
    ensures Shape(paths, groups, r.0)
    ensures Measure(paths, r.0) <= Measure(paths, st)
    ensures st.trace <= r.0.trace
    ensures r.1 && !lim.Reached(|r.0.trace|) ==> Measure(paths, r.0) < Measure(paths, st)
    decreases |groups| - g
  {
    if g == |groups| then (st, false)
    else
      var (st1, active) := Turn(paths, groups, lim, st, g);
      TurnMeasure(paths, groups, lim, st, g);
      var (st2, later) := Round(paths, groups, lim, st1, g + 1);
      (st2, active || later)
  }

  function Run(paths: seq<Path>, groups: seq<seq<nat>>, lim: Limits, st: State): (r: State)
    requires Groups(paths, groups) && Shape(paths, groups, st)
    ensures Shape(paths, groups, r)
    decreases Measure(paths, st)
  {
    var (st', active) := Round(paths, groups, lim, st, 0);
    if !active || lim.Reached(|st'.trace|) then st' else Run(paths, groups, lim, st')
  }

  // ----- Termination: pending edges plus routes not yet blocked -----

  ghost function MeasureOf(paths: seq<Path>, accepted: seq<nat>, blocked: seq<bool>): nat
    requires |accepted| == |blocked| == |paths|
    requires forall r :: 0 <= r < |paths| ==> accepted[r] <= paths[r].Edges()
  {
    if paths == [] then 0
    else (paths[0].Edges() - accepted[0]) + (if blocked[0] then 0 else 1)
         + MeasureOf(paths[1..], accepted[1..], blocked[1..])
  }

  ghost function Measure(paths: seq<Path>, st: State): nat
    requires |st.accepted| == |st.blocked| == |paths|
    requires forall r :: 0 <= r < |paths| ==> st.accepted[r] <= paths[r].Edges()
  {
    MeasureOf(paths, st.accepted, st.blocked)
  }

  lemma {:induction false} MeasureFalls(paths: seq<Path>, a: seq<nat>, b: seq<bool>, a': seq<nat>, b': seq<bool>, r: nat)
    requires |a| == |b| == |a'| == |b'| == |paths| && r < |paths|
    requires forall i :: 0 <= i < |paths| ==> a[i] <= paths[i].Edges() && a'[i] <= paths[i].Edges()
    requires (a' == a[r := a'[r]] && b' == b && a'[r] == a[r] + 1) || (a' == a && b' == b[r := true] && !b[r])
    ensures MeasureOf(paths, a', b') < MeasureOf(paths, a, b)
  {
    if r > 0 {
      MeasureFalls(paths[1..], a[1..], b[1..], a'[1..], b'[1..], r - 1);
    } else {
      assert a'[1..] == a[1..] && b'[1..] == b[1..];
    }
  }

  lemma TurnMeasure(paths: seq<Path>, groups: seq<seq<nat>>, lim: Limits, st: State, g: nat)
    requires Groups(paths, groups) && Shape(paths, groups, st) && g < |groups|
    ensures var (st', active) := Turn(paths, groups, lim, st, g);
            && st.trace <= st'.trace
            && Measure(paths, st') <= Measure(paths, st)
            && (active && !lim.Reached(|st.trace|) ==> Measure(paths, st') < Measure(paths, st))
  {
    var (st', active) := Turn(paths, groups, lim, st, g);
    if active && !lim.Reached(|st.trace|) {
      var r := groups[g][Scan(paths, groups[g], st, st.cursors[g], 0)];
      MeasureFalls(paths, st.accepted, st.blocked, st'.accepted, st'.blocked, r);
    }
  }

  // ----- Rollback is simulation -----

  /** What a longer run keeps of a shorter one. */
  ghost predicate Extends(a: State, b: State) {
    && |a.accepted| == |b.accepted|
    && a.trace <= b.trace
    && a.order <= b.order
    && a.links <= b.links
    && forall r :: 0 <= r < |a.accepted| ==> a.accepted[r] <= b.accepted[r]
  }

  lemma TurnExtends(paths: seq<Path>, groups: seq<seq<nat>>, lim: Limits, st: State, g: nat)
    requires Groups(paths, groups) && Shape(paths, groups, st) && g < |groups|
    ensures Extends(st, Turn(paths, groups, lim, st, g).0)
    ensures lim.Reached(|st.trace|) ==>
              var st' := Turn(paths, groups, lim, st, g).0; st' == st.(cursors := st'.cursors)
  {
  }

  lemma {:induction false} RoundExtends(paths: seq<Path>, groups: seq<seq<nat>>, lim: Limits, st: State, g: nat)
    requires Groups(paths, groups) && Shape(paths, groups, st) && g <= |groups|
    ensures Extends(st, Round(paths, groups, lim, st, g).0)
    ensures lim.Reached(|st.trace|) ==>
              var st' := Round(paths, groups, lim, st, g).0; st' == st.(cursors := st'.cursors)
    decreases |groups| - g
  {
    if g < |groups| {
      TurnExtends(paths, groups, lim, st, g);
      RoundExtends(paths, groups, lim, Turn(paths, groups, lim, st, g).0, g + 1);
    }
  }

  lemma {:induction false} RunExtends(paths: seq<Path>, groups: seq<seq<nat>>, lim: Limits, st: State)
    requires Groups(paths, groups) && Shape(paths, groups, st)
    ensures Extends(st, Run(paths, groups, lim, st))
    decreases Measure(paths, st)
  {
    RoundExtends(paths, groups, lim, st, 0);
    var (st', active) := Round(paths, groups, lim, st, 0);
    if active && !lim.Reached(|st'.trace|) {
      RunExtends(paths, groups, lim, st');
    }
  }

  /** A run with the smaller bound is either in the same state or already full and behind. */
  ghost predicate Behind(s: nat, a: State, b: State) {
    && |a.trace| <= s
    && (a == b || (|a.trace| == s && Extends(a, b)))
  }

  /** t does not bound earlier than s. */
  predicate NoSooner(s: Limits, t: Limits) {
    && t.maxNodes == s.maxNodes && t.maxLinks == s.maxLinks
    && 0 <= s.maxTransactions && (t.maxTransactions < 0 || s.maxTransactions <= t.maxTransactions)
  }

  lemma TurnSimulates(paths: seq<Path>, groups: seq<seq<nat>>, s: Limits, t: Limits, a: State, b: State, g: nat)
    requires Groups(paths, groups) && Shape(paths, groups, a) && Shape(paths, groups, b) && g < |groups|
    requires NoSooner(s, t) && Behind(s.maxTransactions, a, b)
    ensures Behind(s.maxTransactions, Turn(paths, groups, s, a, g).0, Turn(paths, groups, t, b, g).0)
    ensures a == b ==> Turn(paths, groups, s, a, g).1 == Turn(paths, groups, t, b, g).1
  {
    if |a.trace| < s.maxTransactions {
      SameTurn(paths, groups, s, t, a, g);
    } else {
      TurnExtends(paths, groups, s, a, g);
      TurnExtends(paths, groups, t, b, g);
      ExtendsTransitive(a, b, Turn(paths, groups, t, b, g).0);
    }
  }

  lemma SameTurn(paths: seq<Path>, groups: seq<seq<nat>>, s: Limits, t: Limits, a: State, g: nat)
    requires Groups(paths, groups) && Shape(paths, groups, a) && g < |groups|
    requires NoSooner(s, t) && |a.trace| < s.maxTransactions
    ensures Turn(paths, groups, s, a, g) == Turn(paths, groups, t, a, g)
    ensures |Turn(paths, groups, s, a, g).0.trace| <= s.maxTransactions
  {
    var position := Scan(paths, groups[g], a, a.cursors[g], 0);
    if position < |groups[g]| {
      var moved := a.(cursors := a.cursors[g := (position + 1) % |groups[g]|]);
      assert Attempt(paths, s, moved, groups[g][position]) == Attempt(paths, t, moved, groups[g][position]);
    }
  }

  lemma ExtendsTransitive(a: State, b: State, c: State)
    requires Extends(a, b) && Extends(b, c)
    ensures Extends(a, c)
  {
  }

  lemma {:induction false} RoundSimulates(paths: seq<Path>, groups: seq<seq<nat>>, s: Limits, t: Limits, a: State, b: State, g: nat)
    requires Groups(paths, groups) && Shape(paths, groups, a) && Shape(paths, groups, b) && g <= |groups|
    requires NoSooner(s, t) && Behind(s.maxTransactions, a, b)
    ensures var (a', ax) := Round(paths, groups, s, a, g);
            var (b', bx) := Round(paths, groups, t, b, g);
            && Behind(s.maxTransactions, a', b')
            && (a == b && |a'.trace| < s.maxTransactions ==> a' == b' && ax == bx)
    decreases |groups| - g
  {
    if g < |groups| {
      TurnSimulates(paths, groups, s, t, a, b, g);
      var a1, b1 := Turn(paths, groups, s, a, g).0, Turn(paths, groups, t, b, g).0;
      RoundSimulates(paths, groups, s, t, a1, b1, g + 1);
    }
  }

  /** The run bounded by s accepts exactly the first min(s, total) transactions of the run bounded by t,
      and everything it selected is a prefix or a subset of what that run selected. */
  lemma {:induction false} RollbackIsSimulation(paths: seq<Path>, groups: seq<seq<nat>>, s: Limits, t: Limits, st: State)
    requires Groups(paths, groups) && Shape(paths, groups, st)
    requires NoSooner(s, t) && |st.trace| <= s.maxTransactions
    ensures var a, b := Run(paths, groups, s, st), Run(paths, groups, t, st);
            && Extends(a, b)
            && |a.trace| == (if s.maxTransactions < |b.trace| then s.maxTransactions else |b.trace|)
            && a.trace == b.trace[..|a.trace|]
    decreases Measure(paths, st)
  {
    RoundSimulates(paths, groups, s, t, st, st, 0);
    var (a1, ax) := Round(paths, groups, s, st, 0);
    var (b1, bx) := Round(paths, groups, t, st, 0);
    if ax && |a1.trace| < s.maxTransactions {
      RollbackIsSimulation(paths, groups, s, t, a1);
    } else if bx && !t.Reached(|b1.trace|) {
      RunExtends(paths, groups, t, b1);
    }
  }

  // ----- What every turn keeps -----

  ghost predicate AcceptedEdge(paths: seq<Path>, accepted: seq<nat>, r: nat, i: nat, e: Edge) {
    r < |paths| && r < |accepted| && i < accepted[r] && i < paths[r].Edges() && paths[r].EdgeAt(i) == e
  }

  /** The selection is closed under accepted edges ... */
  ghost predicate Closed(paths: seq<Path>, st: State) {
    forall r, i, e :: AcceptedEdge(paths, st.accepted, r, i, e) ==>
      e.from in st.order && e.to in st.order && (e.from != e.to ==> e in st.links)
  }

  ghost predicate HasAccepted(paths: seq<Path>, accepted: seq<nat>, e: Edge) {
    exists r, i :: AcceptedEdge(paths, accepted, r, i, e)
  }

  ghost predicate Touched(paths: seq<Path>, accepted: seq<nat>, k: NodeKey) {
    exists r, i, e :: AcceptedEdge(paths, accepted, r, i, e) && (k == e.from || k == e.to)
  }

  /** ... and, but for the seeds, holds nothing else. */
  ghost predicate Tight(paths: seq<Path>, seeds: set<NodeKey>, st: State) {
    && (forall e {:trigger HasAccepted(paths, st.accepted, e)} ::
          e in st.links ==> e.from != e.to && HasAccepted(paths, st.accepted, e))
    && (forall k {:trigger Touched(paths, st.accepted, k)} ::
          k in st.order ==> k in seeds || Touched(paths, st.accepted, k))
  }

  /** The trace counts every route's accepted edges. */
  ghost predicate Counted(paths: seq<Path>, st: State) {
    && |st.accepted| == |paths|
    && (forall r :: 0 <= r < |paths| ==> multiset(st.trace)[r] == st.accepted[r])
    && (forall r :: r in st.trace ==> r < |paths|)
  }

  ghost predicate Flagged(paths: seq<Path>, st: State) {
    && |st.accepted| == |st.blocked| == |paths|
    && ((exists r :: 0 <= r < |paths| && st.blocked[r]) <==> st.nodeLimited || st.linkLimited)
    && (forall r :: 0 <= r < |paths| && st.blocked[r] ==> st.accepted[r] < paths[r].Edges())
  }

  ghost predicate Budgeted(lim: Limits, st: State) {
    Distinct(st.order) && |st.order| <= lim.maxNodes && |st.links| <= lim.maxLinks
  }

  ghost predicate Sound(paths: seq<Path>, groups: seq<seq<nat>>, lim: Limits, seeds: set<NodeKey>, st: State) {
    && Shape(paths, groups, st)
    && Budgeted(lim, st)
    && (forall k :: k in seeds ==> k in st.order)
    && Closed(paths, st) && Tight(paths, seeds, st) && Counted(paths, st) && Flagged(paths, st)
  }

  predicate Fits(lim: Limits, st: State, e: Edge) {
    |st.order| + NodeCost(st.order, e) <= lim.maxNodes && |st.links| + LinkCost(st.links, e) <= lim.maxLinks
  }

  lemma AttemptClosedTight(paths: seq<Path>, lim: Limits, seeds: set<NodeKey>, st: State, r: nat)
    requires r < |paths| && |st.accepted| == |st.blocked| == |paths| && Pending(paths, st, r)
    requires Fits(lim, st, paths[r].EdgeAt(st.accepted[r]))
    requires Closed(paths, st) && Tight(paths, seeds, st)
    ensures var st' := Attempt(paths, lim, st, r); Closed(paths, st') && Tight(paths, seeds, st')
  {
    var st' := Attempt(paths, lim, st, r);
    var e := paths[r].EdgeAt(st.accepted[r]);
    forall q, i, d
      ensures AcceptedEdge(paths, st'.accepted, q, i, d) <==>
              AcceptedEdge(paths, st.accepted, q, i, d) || (q == r && i == st.accepted[r] && d == e)
    {
    }
    assert AcceptedEdge(paths, st'.accepted, r, st.accepted[r], e);
    assert st'.order == AddKey(AddKey(st.order, e.from), e.to);
    forall d | d in st'.links
      ensures d.from != d.to && HasAccepted(paths, st'.accepted, d)
    {
      if d in st.links {
        assert HasAccepted(paths, st.accepted, d);
        var q, i :| AcceptedEdge(paths, st.accepted, q, i, d);
        assert AcceptedEdge(paths, st'.accepted, q, i, d);
      }
    }
    forall k | k in st'.order && k !in seeds
      ensures Touched(paths, st'.accepted, k)
    {
      if k in st.order {
        assert Touched(paths, st.accepted, k);
        var q, i, d :| AcceptedEdge(paths, st.accepted, q, i, d) && (k == d.from || k == d.to);
        assert AcceptedEdge(paths, st'.accepted, q, i, d);
      }
    }
  }

  lemma AttemptCounted(paths: seq<Path>, groups: seq<seq<nat>>, lim: Limits, st: State, r: nat)
    requires Shape(paths, groups, st) && Budgeted(lim, st) && Counted(paths, st) && Flagged(paths, st)
    requires r < |paths| && Pending(paths, st, r)
    requires Fits(lim, st, paths[r].EdgeAt(st.accepted[r]))
    ensures var st' := Attempt(paths, lim, st, r);
            Shape(paths, groups, st') && Budgeted(lim, st') && Counted(paths, st') && Flagged(paths, st')
  {
    var st' := Attempt(paths, lim, st, r);
    assert st'.trace == st.trace + [r];
    assert st'.blocked == st.blocked;
  }

  lemma AttemptSound(paths: seq<Path>, groups: seq<seq<nat>>, lim: Limits, seeds: set<NodeKey>, st: State, r: nat)
    requires Groups(paths, groups) && Sound(paths, groups, lim, seeds, st)
    requires r < |paths| && Pending(paths, st, r)
    ensures Sound(paths, groups, lim, seeds, Attempt(paths, lim, st, r))
  {
    var st' := Attempt(paths, lim, st, r);
    if Fits(lim, st, paths[r].EdgeAt(st.accepted[r])) {
      AttemptClosedTight(paths, lim, seeds, st, r);
      AttemptCounted(paths, groups, lim, st, r);
    } else {
      assert st'.blocked[r];
      SameSelection(paths, groups, lim, seeds, st, st');
    }
  }

  lemma SameSelection(paths: seq<Path>, groups: seq<seq<nat>>, lim: Limits, seeds: set<NodeKey>, st: State, st': State)
    requires Sound(paths, groups, lim, seeds, st)
    requires st'.accepted == st.accepted && st'.order == st.order && st'.links == st.links && st'.trace == st.trace
    requires Shape(paths, groups, st') && Flagged(paths, st')
    ensures Sound(paths, groups, lim, seeds, st')
  {
    forall e | e in st'.links
      ensures e.from != e.to && HasAccepted(paths, st'.accepted, e)
    {
      assert HasAccepted(paths, st.accepted, e);
    }
    forall k | k in st'.order && k !in seeds
      ensures Touched(paths, st'.accepted, k)
    {
      assert Touched(paths, st.accepted, k);
    }
  }

  lemma TurnSound(paths: seq<Path>, groups: seq<seq<nat>>, lim: Limits, seeds: set<NodeKey>, st: State, g: nat)
    requires Groups(paths, groups) && Sound(paths, groups, lim, seeds, st) && g < |groups|
    ensures Sound(paths, groups, lim, seeds, Turn(paths, groups, lim, st, g).0)
  {
    var group := groups[g];
    var position := Scan(paths, group, st, st.cursors[g], 0);
    if position < |group| {
      var moved := st.(cursors := st.cursors[g := (position + 1) % |group|]);
      SameSelection(paths, groups, lim, seeds, st, moved);
      if !lim.Reached(|st.trace|) {
        AttemptSound(paths, groups, lim, seeds, moved, group[position]);
      }
    }
  }

  lemma RoundUnfolds(paths: seq<Path>, groups: seq<seq<nat>>, lim: Limits, st: State, g: nat) returns (st1: State)
    requires Groups(paths, groups) && Shape(paths, groups, st) && g < |groups|
    ensures st1 == Turn(paths, groups, lim, st, g).0
    ensures Shape(paths, groups, st1)
    ensures Round(paths, groups, lim, st, g).0 == Round(paths, groups, lim, st1, g + 1).0
  {
    st1 := Turn(paths, groups, lim, st, g).0;
  }

  lemma {:induction false} RoundSound(paths: seq<Path>, groups: seq<seq<nat>>, lim: Limits, seeds: set<NodeKey>, st: State, g: nat)
    requires Groups(paths, groups) && Sound(paths, groups, lim, seeds, st) && g <= |groups|
    ensures Sound(paths, groups, lim, seeds, Round(paths, groups, lim, st, g).0)
    decreases |groups| - g
  {
    if g == |groups| {
      assert Round(paths, groups, lim, st, g).0 == st;
    } else {
      TurnSound(paths, groups, lim, seeds, st, g);
      var st1 := RoundUnfolds(paths, groups, lim, st, g);
      RoundSound(paths, groups, lim, seeds, st1, g + 1);
    }
  }

  lemma {:induction false} RunSound(paths: seq<Path>, groups: seq<seq<nat>>, lim: Limits, seeds: set<NodeKey>, st: State)
    requires Groups(paths, groups) && Sound(paths, groups, lim, seeds, st)
    ensures Sound(paths, groups, lim, seeds, Run(paths, groups, lim, st))
    decreases Measure(paths, st)
  {
    RoundSound(paths, groups, lim, seeds, st, 0);
    var (st', active) := Round(paths, groups, lim, st, 0);
    if active && !lim.Reached(|st'.trace|) {
      RunSound(paths, groups, lim, seeds, st');
    }
  }

  // ----- How a run ends -----

  lemma Rotation(cursor: nat, n: nat, i: nat) returns (k: nat)
    requires i < n
    ensures k < n && (cursor + k) % n == i
  {
    var c := cursor % n;
    k := if c <= i then i - c else i + n - c;
    assert cursor == n * (cursor / n) + c;
    if c <= i {
      assert cursor + k == n * (cursor / n) + i;
      ModOf(n, cursor / n, i);
    } else {
      assert cursor + k == n * (cursor / n + 1) + i;
      ModOf(n, cursor / n + 1, i);
    }
  }

  lemma ModOf(n: nat, q: nat, i: nat)
    requires i < n
    ensures (n * q + i) % n == i
  {
    var x := n * q + i;
    var d := q - x / n;
    assert n * d == x % n - i;
    SmallMultiple(n, d);
  }

  lemma SmallMultiple(n: nat, d: int)
    requires n * d < n && 0 < n * d + n
    ensures d == 0
  {
  }

  lemma {:induction false} ScanExhausted(paths: seq<Path>, group: seq<nat>, st: State, cursor: nat, scanned: nat, k: nat)
    requires |st.accepted| == |st.blocked| == |paths|
    requires forall i :: 0 <= i < |group| ==> group[i] < |paths|
    requires scanned <= k < |group|
    requires Scan(paths, group, st, cursor, scanned) == |group|
    ensures !Pending(paths, st, group[(cursor + k) % |group|])
    decreases |group| - scanned
  {
    if scanned < k {
      ScanExhausted(paths, group, st, cursor, scanned + 1, k);
    }
  }

  lemma {:induction false} IdleRound(paths: seq<Path>, groups: seq<seq<nat>>, lim: Limits, st: State, g: nat)
    requires Groups(paths, groups) && Shape(paths, groups, st) && g <= |groups|
    requires !Round(paths, groups, lim, st, g).1
    ensures Round(paths, groups, lim, st, g).0 == st
    ensures forall h, i :: g <= h < |groups| && 0 <= i < |groups[h]| ==> !Pending(paths, st, groups[h][i])
    decreases |groups| - g
  {
    if g < |groups| {
      forall i | 0 <= i < |groups[g]|
        ensures !Pending(paths, st, groups[g][i])
      {
        var k := Rotation(st.cursors[g], |groups[g]|, i);
        ScanExhausted(paths, groups[g], st, st.cursors[g], 0, k);
      }
      IdleRound(paths, groups, lim, st, g + 1);
    }
  }

  /** A run ends only when its transaction bound is met or every route is finished or blocked;
      and if no budget was hit, then every edge of every route was accepted. */
  lemma {:induction false} RunSettles(paths: seq<Path>, groups: seq<seq<nat>>, lim: Limits, seeds: set<NodeKey>, st: State)
    requires Groups(paths, groups) && Covers(paths, groups) && Sound(paths, groups, lim, seeds, st)
    ensures var r := Run(paths, groups, lim, st);
            && (lim.Reached(|r.trace|) || forall p :: 0 <= p < |paths| ==> !Pending(paths, r, p))
            && (!lim.Reached(|r.trace|) && !r.nodeLimited && !r.linkLimited ==>
                  forall p :: 0 <= p < |paths| ==> r.accepted[p] == paths[p].Edges())
    decreases Measure(paths, st)
  {
    RoundSound(paths, groups, lim, seeds, st, 0);
    var (st', active) := Round(paths, groups, lim, st, 0);
    if active && !lim.Reached(|st'.trace|) {
      RunSettles(paths, groups, lim, seeds, st');
    } else if !active {
      IdleRound(paths, groups, lim, st, 0);
      forall p | 0 <= p < |paths|
        ensures !Pending(paths, st, p)
      {
        var g := paths[p].resultIndex;
        var i :| 0 <= i < |groups[g]| && groups[g][i] == p;
      }
    }
  }

  // ----- The loop itself -----

  const MAX_NODES: nat := 500
  const MAX_LINKS: nat := 1000

  function GroupOf(paths: seq<Path>, g: nat, n: nat): (group: seq<nat>)
    requires n <= |paths|
    ensures forall i :: 0 <= i < |group| ==> group[i] < n && paths[group[i]].resultIndex == g
    ensures forall r :: 0 <= r < n && paths[r].resultIndex == g ==> r in group
  {
    if n == 0 then []
    else if paths[n - 1].resultIndex == g then GroupOf(paths, g, n - 1) + [n - 1]
    else GroupOf(paths, g, n - 1)
  }

  function GroupsOf(paths: seq<Path>, results: nat): (groups: seq<seq<nat>>)
    requires forall r :: 0 <= r < |paths| ==> paths[r].resultIndex < results
    ensures |groups| == results && Groups(paths, groups) && Covers(paths, groups)
  {
    seq(results, g requires 0 <= g < results => GroupOf(paths, g, |paths|))
  }

  /** The local node of the first route that starts with one is selected before any edge. */
  function Seed(paths: seq<Path>): seq<NodeKey> {
    if paths == [] then []
    else if |paths[0].keys| > 0 && paths[0].keys[0] == Local then [Local]
    else Seed(paths[1..])
  }

  function Elements<T(==)>(s: seq<T>): set<T> { set x | x in s }

  function Initial(paths: seq<Path>, results: nat): (st: State) {
    State(seq(|paths|, _ => 0), seq(|paths|, _ => false), seq(results, _ => 0), Seed(paths), {}, false, false, [])
  }

  /** Options at or below zero stand for the declared node and link limits. */
  function LimitsOf(maxNodes: int, maxLinks: int, maxTransactions: int): (lim: Limits)
    ensures lim.maxNodes >= 1
  {
    Limits(if maxNodes <= 0 then MAX_NODES else maxNodes, if maxLinks <= 0 then MAX_LINKS else maxLinks, maxTransactions)
  }

  function Selected(paths: seq<Path>, results: nat, lim: Limits): (st: State)
    requires forall r :: 0 <= r < |paths| ==> paths[r].resultIndex < results
    ensures Shape(paths, GroupsOf(paths, results), st)
  {
    Run(paths, GroupsOf(paths, results), lim, Initial(paths, results))
  }

  lemma InitialSound(paths: seq<Path>, results: nat, lim: Limits)
    requires forall r :: 0 <= r < |paths| ==> paths[r].resultIndex < results
    requires lim.maxNodes >= 1
    ensures Sound(paths, GroupsOf(paths, results), lim, Elements(Seed(paths)), Initial(paths, results))
  {
    SeedShort(paths);
    NoLinksSound(paths, GroupsOf(paths, results), lim, Initial(paths, results));
  }

  lemma NoLinksSound(paths: seq<Path>, groups: seq<seq<nat>>, lim: Limits, st: State)
    requires Shape(paths, groups, st) && |st.order| <= 1 <= lim.maxNodes && st.links == {} && st.trace == []
    requires forall r :: 0 <= r < |paths| ==> st.accepted[r] == 0 && !st.blocked[r]
    requires !st.nodeLimited && !st.linkLimited
    ensures Sound(paths, groups, lim, Elements(st.order), st)
  {
  }

  lemma SeedShort(paths: seq<Path>)
    ensures |Seed(paths)| <= 1
  {
  }

  /** Every selection keeps its budgets and is exactly the accepted edges plus the local seed. */
  lemma SelectedSound(paths: seq<Path>, results: nat, lim: Limits)
    requires forall r :: 0 <= r < |paths| ==> paths[r].resultIndex < results
    requires lim.maxNodes >= 1
    ensures Sound(paths, GroupsOf(paths, results), lim, Elements(Seed(paths)), Selected(paths, results, lim))
  {
    InitialSound(paths, results, lim);
    RunSound(paths, GroupsOf(paths, results), lim, Elements(Seed(paths)), Initial(paths, results));
  }

  /** A report rebuilt under a smaller transaction limit shows the same selection, cut short. */
  lemma RebuildIsPrefix(paths: seq<Path>, results: nat, s: Limits, t: Limits)
    requires forall r :: 0 <= r < |paths| ==> paths[r].resultIndex < results
    requires NoSooner(s, t)
    ensures var a, b := Selected(paths, results, s), Selected(paths, results, t);
            && Extends(a, b)
            && |a.trace| == (if s.maxTransactions < |b.trace| then s.maxTransactions else |b.trace|)
            && a.trace == b.trace[..|a.trace|]
  {
    RollbackIsSimulation(paths, GroupsOf(paths, results), s, t, Initial(paths, results));
  }

  /** A selection stops only at its transaction bound or with every route finished or blocked. */
  lemma SelectedSettles(paths: seq<Path>, results: nat, lim: Limits)
    requires forall r :: 0 <= r < |paths| ==> paths[r].resultIndex < results
    requires lim.maxNodes >= 1
    ensures var st := Selected(paths, results, lim);
            && (lim.Reached(|st.trace|) || forall p :: 0 <= p < |paths| ==> !Pending(paths, st, p))
            && (!lim.Reached(|st.trace|) && !st.nodeLimited && !st.linkLimited ==>
                  forall p :: 0 <= p < |paths| ==> st.accepted[p] == paths[p].Edges())
  {
    InitialSound(paths, results, lim);
    RunSettles(paths, GroupsOf(paths, results), lim, Elements(Seed(paths)), Initial(paths, results));
  }

  /** The mutable state of one run: per-route progress, per-result cursors and the shared selection. */
  class Selector {
    const paths: seq<Path>
    const results: nat
    const lim: Limits
    var groups: seq<seq<nat>>
    var accepted: seq<nat>
    var blocked: seq<bool>
    var cursors: seq<nat>
    var order: seq<NodeKey>
    var selected: set<NodeKey>
    var links: set<Edge>
    var nodeLimited: bool
    var linkLimited: bool
    var transactions: nat
    ghost var trace: seq<nat>

    ghost function Model(): State
      reads this
    {
      State(accepted, blocked, cursors, order, links, nodeLimited, linkLimited, trace)
    }

    ghost predicate Valid()
      reads this
    {
      && Groups(paths, groups)
      && Shape(paths, groups, Model())
      && transactions == |trace|
      && Distinct(order) && selected == Elements(order)
    }

    constructor (paths: seq<Path>, results: nat, lim: Limits)
      requires forall r :: 0 <= r < |paths| ==> paths[r].resultIndex < results
      ensures this.paths == paths && this.results == results && this.lim == lim
      ensures Valid() && groups == GroupsOf(paths, results) && Model() == Initial(paths, results)
    {
      this.paths, this.results, this.lim := paths, results, lim;
      accepted, blocked, cursors := seq(|paths|, _ => 0), seq(|paths|, _ => false), seq(results, _ => 0);
      links, nodeLimited, linkLimited, transactions, trace := {}, false, false, 0, [];
      var first := SeedOf(paths);
      order := first;
      selected := Elements(first);
      var all := GroupRoutes(paths, results);
      groups := all;
      SeedShort(paths);
    }

    static method SeedOf(paths: seq<Path>) returns (order: seq<NodeKey>)
      ensures order == Seed(paths)
    {
      for i := 0 to |paths|
        invariant Seed(paths) == Seed(paths[i..])
      {
        if |paths[i].keys| > 0 && paths[i].keys[0] == Local {
          return [Local];
        }
        assert paths[i..][1..] == paths[i + 1..];
      }
      return [];
    }

    static method GroupRoutes(paths: seq<Path>, results: nat) returns (groups: seq<seq<nat>>)
      requires forall r :: 0 <= r < |paths| ==> paths[r].resultIndex < results
      ensures groups == GroupsOf(paths, results)
    {
      groups := seq(results, _ => []);
      for r := 0 to |paths|
        invariant |groups| == results
        invariant forall g :: 0 <= g < results ==> groups[g] == GroupOf(paths, g, r)
      {
        groups := groups[paths[r].resultIndex := groups[paths[r].resultIndex] + [r]];
      }
    }

    method Choose(g: nat) returns (chosen: nat)
      requires Valid() && g < |groups|
      ensures chosen == Scan(paths, groups[g], Model(), cursors[g], 0)
    {
      var group := groups[g];
      for scanned := 0 to |group|
        invariant Scan(paths, group, Model(), cursors[g], 0) == Scan(paths, group, Model(), cursors[g], scanned)
      {
        var position := (cursors[g] + scanned) % |group|;
        var route := group[position];
        if !blocked[route] && accepted[route] < paths[route].Edges() {
          return position;
        }
      }
      return |group|;
    }

    method Add(key: NodeKey)
      requires Distinct(order) && selected == Elements(order)
      modifies this`order, this`selected
      ensures order == AddKey(old(order), key) && Distinct(order) && selected == Elements(order)
    {
      if key !in selected {
        selected := selected + {key};
        order := order + [key];
      }
    }

    method Commit(route: nat, edge: Edge)
      requires route < |accepted|
      requires transactions == |trace| && Distinct(order) && selected == Elements(order)
      modifies this`accepted, this`order, this`selected, this`links, this`transactions, this`trace
      ensures transactions == |trace| && Distinct(order) && selected == Elements(order)
      ensures order == AddKey(AddKey(old(order), edge.from), edge.to)
      ensures links == if edge.from != edge.to then old(links) + {edge} else old(links)
      ensures accepted == old(accepted)[route := old(accepted)[route] + 1] && trace == old(trace) + [route]
    {
      Add(edge.from);
      Add(edge.to);
      if edge.from != edge.to {
        links := links + {edge};
      }
      accepted := accepted[route := accepted[route] + 1];
      transactions := transactions + 1;
      trace := trace + [route];
    }

    method Accept(route: nat)
      requires |accepted| == |blocked| == |paths| && route < |paths| && Pending(paths, Model(), route)
      requires transactions == |trace| && Distinct(order) && selected == Elements(order)
      modifies this`accepted, this`blocked, this`order, this`selected, this`links,
               this`nodeLimited, this`linkLimited, this`transactions, this`trace
      ensures transactions == |trace| && Distinct(order) && selected == Elements(order)
      ensures Model() == Attempt(paths, lim, old(Model()), route)
    {
      var edge := paths[route].EdgeAt(accepted[route]);
      var nodeCost := 0;
      if edge.from !in selected { nodeCost := nodeCost + 1; }
      if edge.to != edge.from && edge.to !in selected { nodeCost := nodeCost + 1; }
      var linkCost := 0;
      if edge.from != edge.to && edge !in links { linkCost := 1; }
      DistinctSize(order);
      assert nodeCost == NodeCost(order, edge) && linkCost == LinkCost(links, edge);
      if |selected| + nodeCost > lim.maxNodes {
        blocked := blocked[route := true];
        nodeLimited := true;
      } else if |links| + linkCost > lim.maxLinks {
        blocked := blocked[route := true];
        linkLimited := true;
      } else {
        Commit(route, edge);
      }
    }

    method TakeTurn(g: nat) returns (active: bool)
      requires Valid() && g < |groups|
      modifies this
      ensures Valid() && groups == old(groups)
      ensures (Model(), active) == Turn(paths, groups, lim, old(Model()), g)
    {
      var chosen := Choose(g);
      if chosen == |groups[g]| {
        return false;
      }
      cursors := cursors[g := (chosen + 1) % |groups[g]|];
      if !(lim.maxTransactions >= 0 && transactions >= lim.maxTransactions) {
        Accept(groups[g][chosen]);
      }
      return true;
    }

    method TakeRound() returns (active: bool)
      requires Valid()
      modifies this
      ensures Valid() && groups == old(groups)
      ensures (Model(), active) == Round(paths, groups, lim, old(Model()), 0)
    {
      active := false;
      var g := 0;
      while g < |groups|
        invariant Valid() && groups == old(groups) && g <= |groups|
        invariant Round(paths, groups, lim, old(Model()), 0) == Later(Round(paths, groups, lim, Model(), g), active)
      {
        var turned := TakeTurn(g);
        active, g := active || turned, g + 1;
      }
    }

    /** The two nested loops leave the selection of the specification. */
    method Select()
      requires forall r :: 0 <= r < |paths| ==> paths[r].resultIndex < results
      requires Valid() && groups == GroupsOf(paths, results) && Model() == Initial(paths, results)
      modifies this
      ensures Valid() && Model() == Selected(paths, results, lim)
    {
      while true
        invariant Valid() && groups == old(groups)
        invariant Run(paths, groups, lim, Model()) == Run(paths, groups, lim, old(Model()))
        decreases Measure(paths, Model())
      {
        var active := TakeRound();
        if !active || (lim.maxTransactions >= 0 && transactions >= lim.maxTransactions) {
          break;
        }
      }
    }
  }

  function Later(r: (State, bool), active: bool): (State, bool) { (r.0, active || r.1) }

  lemma {:induction false} DistinctSize<T>(s: seq<T>)
    requires Distinct(s)
    ensures |Elements(s)| == |s|
  {
    if s != [] {
      var n := |s| - 1;
      DistinctSize(s[..n]);
      assert Elements(s) == Elements(s[..n]) + {s[n]};
    }
  }
}
