/** Planning which elements the page mounts, and in which chunks (frontend/topology-model.js:483-746). */
module DomPlan {
  import opened Text
  import opened Presentation
  import opened Sets
  import opened Arrivals

  const DOCUMENT := 1200
  const CHUNK := 100
  const DATA_NODES := 500
  const DATA_LINKS := 1000
  const DATA_ROUTES := 200
  const ACCESSIBLE_ITEMS := 100
  const LABEL_PAGE := 100
  const CANVAS_COST := 1
  const INSPECTOR_COST := 2

  datatype Place = TopologyView | GeoView | LabelView

  function Reserve(place: Place): nat {
    match place
    case TopologyView => 180
    case GeoView => 300
    case LabelView => 80
  }

  // ----- The fair order of the routes -----

  function Heads(groups: seq<seq<Route>>): seq<Route> {
    if groups == [] then [] else (if groups[0] == [] then [] else [groups[0][0]]) + Heads(groups[1..])
  }

  function Tails(groups: seq<seq<Route>>): (r: seq<seq<Route>>)
    ensures |r| == |groups|
  {
    if groups == [] then [] else [if groups[0] == [] then [] else groups[0][1..]] + Tails(groups[1..])
  }

  function Everyone(groups: seq<seq<Route>>): seq<Route> {
    if groups == [] then [] else groups[0] + Everyone(groups[1..])
  }

  lemma {:induction false} RoundTakesHeads(groups: seq<seq<Route>>)
    ensures multiset(Everyone(groups)) == multiset(Heads(groups)) + multiset(Everyone(Tails(groups)))
    ensures |Everyone(Tails(groups))| + |Heads(groups)| == |Everyone(groups)|
  {
    if groups != [] {
      RoundTakesHeads(groups[1..]);
      assert Tails(groups)[1..] == Tails(groups[1..]);
      if groups[0] != [] {
        assert groups[0] == [groups[0][0]] + groups[0][1..];
      }
    }
  }

  /** Round after round, one route of every group that has one left. */
  function Rounds(groups: seq<seq<Route>>): seq<Route>
    decreases |Everyone(groups)|
  {
    RoundTakesHeads(groups);
    if Heads(groups) == [] then [] else Heads(groups) + Rounds(Tails(groups))
  }

  /** The fair order keeps every route exactly once. */
  lemma {:induction false} RoundsKeepAll(groups: seq<seq<Route>>)
    ensures multiset(Rounds(groups)) == multiset(Everyone(groups))
    decreases |Everyone(groups)|
  {
    RoundTakesHeads(groups);
    if Heads(groups) == [] {
      NobodyLeft(groups);
    } else {
      RoundsKeepAll(Tails(groups));
    }
  }

  lemma {:induction false} NobodyLeft(groups: seq<seq<Route>>)
    requires Heads(groups) == []
    ensures Everyone(groups) == []
  {
    if groups != [] {
      NobodyLeft(groups[1..]);
    }
  }

  /** The k-th route of every group, in group order. */
  function Column(groups: seq<seq<Route>>, k: nat): seq<Route> {
    if groups == [] then [] else (if k < |groups[0]| then [groups[0][k]] else []) + Column(groups[1..], k)
  }

  function Drop(groups: seq<seq<Route>>, k: nat): seq<seq<Route>> {
    if groups == [] then [] else [if k < |groups[0]| then groups[0][k..] else []] + Drop(groups[1..], k)
  }

  lemma {:induction false} DropSteps(groups: seq<seq<Route>>, k: nat)
    ensures Heads(Drop(groups, k)) == Column(groups, k) && Tails(Drop(groups, k)) == Drop(groups, k + 1)
  {
    if groups != [] {
      DropSteps(groups[1..], k);
      assert Drop(groups, k)[1..] == Drop(groups[1..], k);
      if k < |groups[0]| {
        assert groups[0][k..][1..] == groups[0][k + 1..];
      }
    }
  }

  lemma {:induction false} DropNothing(groups: seq<seq<Route>>)
    ensures Drop(groups, 0) == groups
  {
    if groups != [] {
      DropNothing(groups[1..]);
    }
  }

  method TakeRound(groups: seq<seq<Route>>, offset: nat) returns (round: seq<Route>)
    ensures round == Column(groups, offset)
  {
    round := [];
    var k := 0;
    while k < |groups|
      invariant k <= |groups| && round == Column(groups[..k], offset)
    {
      ColumnMore(groups, k, offset);
      if offset < |groups[k]| {
        round := round + [groups[k][offset]];
      }
      k := k + 1;
    }
    assert groups[..k] == groups;
  }

  lemma RoundSplit(groups: seq<seq<Route>>, offset: nat)
    ensures Rounds(Drop(groups, offset)) ==
            if Column(groups, offset) == [] then [] else Column(groups, offset) + Rounds(Drop(groups, offset + 1))
    ensures Column(groups, offset) != [] ==> |Everyone(Drop(groups, offset + 1))| < |Everyone(Drop(groups, offset))|
  {
    var d := Drop(groups, offset);
    DropSteps(groups, offset);
    RoundTakesHeads(d);
  }

  lemma Grouped<T>(a: seq<T>, b: seq<T>, c: seq<T>)
    ensures a + (b + c) == a + b + c && a + [] == a
  {
  }

  /** The rounds over the groups of the routes, each group in attempt order. */
  method FairRouteOrder(groups: seq<seq<Route>>) returns (ordered: seq<Route>)
    ensures ordered == Rounds(groups) && multiset(ordered) == multiset(Everyone(groups))
  {
    RoundsKeepAll(groups);
    DropNothing(groups);
    ordered := [];
    var offset := 0;
    var added := true;
    while added
      invariant Rounds(groups) == if added then ordered + Rounds(Drop(groups, offset)) else ordered
      decreases |Everyone(Drop(groups, offset))|, added
    {
      RoundSplit(groups, offset);
      var round := TakeRound(groups, offset);
      Grouped(ordered, round, Rounds(Drop(groups, offset + 1)));
      added := round != [];
      ordered := ordered + round;
      if added {
        offset := offset + 1;
      }
    }
  }

  lemma {:induction false} ColumnMore(groups: seq<seq<Route>>, k: nat, offset: nat)
    requires k < |groups|
    ensures Column(groups[..k + 1], offset) == Column(groups[..k], offset) + if offset < |groups[k]| then [groups[k][offset]] else []
    decreases k
  {
    if k > 0 {
      ColumnMore(groups[1..], k - 1, offset);
      assert groups[1..][..k] == groups[..k + 1][1..] && groups[1..][..k - 1] == groups[..k][1..];
    }
  }

  // ----- Sorting and grouping the routes -----

  predicate Earlier(a: Route, b: Route) { a.result < b.result || (a.result == b.result && a.attempt < b.attempt) }

  /** Stable insertion: after every route that is not later. */
  function Insert(sorted: seq<Route>, r: Route): seq<Route> {
    if sorted == [] || !Earlier(r, sorted[|sorted| - 1]) then sorted + [r]
    else Insert(sorted[..|sorted| - 1], r) + [sorted[|sorted| - 1]]
  }

  function Sorted(routes: seq<Route>): seq<Route> {
    if routes == [] then [] else Insert(Sorted(routes[..|routes| - 1]), routes[|routes| - 1])
  }

  /** The runs of equal results of a sorted list. */
  function Runs(sorted: seq<Route>): (r: seq<seq<Route>>)
    ensures Everyone(r) == sorted
    ensures sorted != [] ==> r != [] && r[0] != [] && r[0][0] == sorted[0]
  {
    if sorted == [] then []
    else
      var rest := Runs(sorted[1..]);
      if rest != [] && rest[0][0].result == sorted[0].result then
        var r := [[sorted[0]] + rest[0]] + rest[1..];
        assert Everyone(r) == [sorted[0]] + Everyone(rest);
        r
      else [[sorted[0]]] + rest
  }

  lemma {:induction false} InsertKeeps(sorted: seq<Route>, r: Route)
    ensures multiset(Insert(sorted, r)) == multiset(sorted) + multiset{r}
  {
    if sorted != [] && Earlier(r, sorted[|sorted| - 1]) {
      InsertKeeps(sorted[..|sorted| - 1], r);
      assert sorted == sorted[..|sorted| - 1] + [sorted[|sorted| - 1]];
    }
  }

  lemma {:induction false} SortedKeeps(routes: seq<Route>)
    ensures multiset(Sorted(routes)) == multiset(routes)
  {
    if routes != [] {
      hide Insert;
      var front, last := routes[..|routes| - 1], routes[|routes| - 1];
      SortedKeeps(front);
      InsertKeeps(Sorted(front), last);
      assert routes == front + [last];
      assert multiset(routes) == multiset(front) + multiset{last};
    }
  }

  // ----- Choosing nodes, links and route fronts within the budget -----

  datatype Planned = Planned(route: Route, cursor: nat, blocked: bool)

  datatype Chosen = Chosen(nodes: seq<string>, links: seq<Link>, states: seq<Planned>, cost: nat)

  datatype Data = Data(ids: set<string>, links: set<Link>, budget: Option<nat>)

  predicate Fits(cost: nat, data: Data) { data.budget.Some? ==> cost <= data.budget.value }

  /** At most one more element fits. */
  predicate Tight(cost: nat, data: Data) { !Fits(cost + 2, data) }

  ghost predicate RouteOf(route: Route, data: Data) {
    route.ids != [] && forall k :: 0 <= k < |route.ids| ==> route.ids[k] in data.ids
  }

  /** A planned route is a front of its route whose nodes and steps are all chosen. */
  ghost predicate StateSound(st: Planned, c: Chosen, data: Data) {
    && RouteOf(st.route, data) && 1 <= st.cursor <= |st.route.ids|
    && (forall k :: 0 <= k < st.cursor ==> st.route.ids[k] in c.nodes)
    && (forall k :: 0 < k < st.cursor ==> Step(st.route, k) in c.links)
    && (st.blocked ==> st.cursor < |st.route.ids| && (Step(st.route, st.cursor) !in data.links || Tight(c.cost, data)))
  }

  function Step(route: Route, k: nat): Link
    requires 0 < k < |route.ids|
  {
    Link(route.ids[k - 1], route.ids[k])
  }

  ghost predicate Distinct<T>(s: seq<T>) { forall j, k :: 0 <= j < k < |s| ==> s[j] != s[k] }

  ghost predicate AllStatesSound(c: Chosen, data: Data) { forall k :: 0 <= k < |c.states| ==> StateSound(c.states[k], c, data) }

  /** The running cost is the number of chosen elements, and within the budget. */
  ghost predicate ChosenSound(c: Chosen, data: Data) {
    && Distinct(c.nodes) && (forall id :: id in c.nodes ==> id in data.ids)
    && Distinct(c.links) && (forall l :: l in c.links ==> l in data.links && l.from in c.nodes && l.to in c.nodes)
    && c.cost == |c.nodes| + |c.links| + |c.states| && Fits(c.cost, data)
    && AllStatesSound(c, data)
  }

  ghost predicate Grows(was: Chosen, now: Chosen) {
    && was.nodes <= now.nodes && was.links <= now.links && was.cost <= now.cost
  }

  lemma StillSound(st: Planned, was: Chosen, now: Chosen, data: Data)
    requires StateSound(st, was, data) && Grows(was, now)
    ensures StateSound(st, now, data)
  {
    forall k | 0 <= k < st.cursor ensures st.route.ids[k] in now.nodes {
    }
    forall k | 0 < k < st.cursor ensures Step(st.route, k) in now.links {
    }
  }

  function Left(states: seq<Planned>): nat {
    if states == [] then 0
    else
      var st := states[|states| - 1];
      Left(states[..|states| - 1]) + if st.blocked || st.cursor >= |st.route.ids| then 0 else |st.route.ids| - st.cursor
  }

  lemma {:induction false} LeftChanges(states: seq<Planned>, k: nat, st: Planned)
    requires k < |states|
    ensures Left(states[k := st]) - Left(states) == Left([st]) - Left([states[k]])
  {
    var next := states[k := st];
    if k == |states| - 1 {
      assert next[..k] == states[..k];
      assert [st][..0] == [] && [states[k]][..0] == [];
    } else {
      LeftChanges(states[..|states| - 1], k, st);
      assert next[..|states| - 1] == states[..|states| - 1][k := st];
    }
  }

  lemma LeftFalls(states: seq<Planned>, k: nat)
    requires k < |states| && !states[k].blocked && states[k].cursor < |states[k].route.ids|
    ensures Left(states[k := states[k].(blocked := true)]) < Left(states)
    ensures Left(states[k := states[k].(cursor := states[k].cursor + 1)]) < Left(states)
  {
    var st := states[k];
    var blocked, moved := st.(blocked := true), st.(cursor := st.cursor + 1);
    LeftChanges(states, k, blocked);
    LeftChanges(states, k, moved);
    assert [st][..0] == [] && [blocked][..0] == [] && [moved][..0] == [];
  }

  predicate Done(st: Planned) { st.blocked || st.cursor >= |st.route.ids| }

  ghost predicate DoneUpTo(states: seq<Planned>, end: nat) { forall k :: 0 <= k < |states| && k < end ==> Done(states[k]) }

  ghost predicate Settled(states: seq<Planned>) { DoneUpTo(states, |states|) }

  ghost predicate SameRoutes(was: seq<Planned>, now: seq<Planned>) {
    |was| == |now| && forall k :: 0 <= k < |was| ==> was[k].route == now[k].route
  }

  function RoutesOf(states: seq<Planned>): (r: seq<Route>)
    ensures |r| == |states| && forall k :: 0 <= k < |r| ==> r[k] == states[k].route
  {
    seq(|states|, k requires 0 <= k < |states| => states[k].route)
  }

  /** Some of the routes, each occurrence at most once and in the same order. */
  ghost predicate Picked(some: seq<Route>, routes: seq<Route>) {
    || some == []
    || (routes != [] && Picked(some, routes[..|routes| - 1]))
    || (routes != [] && some[|some| - 1] == routes[|routes| - 1] && Picked(some[..|some| - 1], routes[..|routes| - 1]))
  }

  lemma PickedMore(some: seq<Route>, routes: seq<Route>, route: Route)
    requires Picked(some, routes)
    ensures Picked(some, routes + [route]) && Picked(some + [route], routes + [route])
  {
    assert (some + [route])[..|some|] == some && (routes + [route])[..|routes|] == routes;
  }

  lemma SameRoutesOf(was: seq<Planned>, now: seq<Planned>)
    requires SameRoutes(was, now)
    ensures RoutesOf(was) == RoutesOf(now)
  {
  }

  lemma NonePicked(routes: seq<Route>)
    ensures Picked(RoutesOf([]), routes)
  {
  }

  lemma StartedPicked(was: seq<Planned>, now: seq<Planned>, routes: seq<Route>, i: nat)
    requires i < |routes| && Picked(RoutesOf(was), routes[..i])
    requires now == was || now == was + [Planned(routes[i], 1, false)]
    ensures Picked(RoutesOf(now), routes[..i + 1])
  {
    hide Picked;
    PickedMore(RoutesOf(was), routes[..i], routes[i]);
    assert routes[..i + 1] == routes[..i] + [routes[i]];
    assert now != was ==> RoutesOf(now) == RoutesOf(was) + [routes[i]];
  }

  lemma {:induction false} PickedFrom(some: seq<Route>, routes: seq<Route>)
    requires Picked(some, routes)
    ensures multiset(some) <= multiset(routes) && |some| <= |routes|
  {
    if some != [] {
      var front := routes[..|routes| - 1];
      assert routes == front + [routes[|routes| - 1]];
      if Picked(some, front) {
        PickedFrom(some, front);
      } else {
        assert some == some[..|some| - 1] + [some[|some| - 1]];
        PickedFrom(some[..|some| - 1], front);
      }
    }
  }

  function NewElements(c: Chosen, link: Link): nat { (if link.to in c.nodes then 0 else 1) + if link in c.links then 0 else 1 }

  /** The choice after the k-th route has moved one step. */
  function Moved(c: Chosen, k: nat): Chosen
    requires k < |c.states| && 0 < c.states[k].cursor < |c.states[k].route.ids|
  {
    var st := c.states[k];
    var link := Step(st.route, st.cursor);
    Chosen(if link.to in c.nodes then c.nodes else c.nodes + [link.to], if link in c.links then c.links else c.links + [link],
           c.states[k := st.(cursor := st.cursor + 1)], c.cost + NewElements(c, link))
  }

  lemma StateOf(c: Chosen, k: nat, data: Data)
    requires ChosenSound(c, data) && k < |c.states|
    ensures StateSound(c.states[k], c, data) && 1 <= c.states[k].cursor <= |c.states[k].route.ids|
  {
  }

  lemma MovedStates(c: Chosen, k: nat)
    requires k < |c.states| && 0 < c.states[k].cursor < |c.states[k].route.ids|
    ensures Moved(c, k).states == c.states[k := c.states[k].(cursor := c.states[k].cursor + 1)]
  {
  }

  lemma MoveKeeps(c: Chosen, k: nat, data: Data)
    requires ChosenSound(c, data) && k < |c.states| && c.states[k].cursor < |c.states[k].route.ids| && !c.states[k].blocked
    requires StateSound(c.states[k], c, data) && Step(c.states[k].route, c.states[k].cursor) in data.links
    requires Fits(c.cost + NewElements(c, Step(c.states[k].route, c.states[k].cursor)), data)
    ensures ChosenSound(Moved(c, k), data) && Grows(c, Moved(c, k))
  {
    var st, t := c.states[k], Moved(c, k);
    var link := Step(st.route, st.cursor);
    assert st.route.ids[st.cursor - 1] in c.nodes;
    assert link in t.links && link.to in t.nodes;
    forall j | 0 <= j < |t.states| ensures StateSound(t.states[j], t, data) {
      StillSound(c.states[j], c, t, data);
    }
  }

  lemma BlockKeeps(c: Chosen, k: nat, data: Data)
    requires ChosenSound(c, data) && k < |c.states| && 0 < c.states[k].cursor < |c.states[k].route.ids|
    requires Step(c.states[k].route, c.states[k].cursor) !in data.links || Tight(c.cost, data)
    ensures ChosenSound(c.(states := c.states[k := c.states[k].(blocked := true)]), data)
  {
    var t := c.(states := c.states[k := c.states[k].(blocked := true)]);
    forall j | 0 <= j < |t.states| ensures StateSound(t.states[j], t, data) {
      StillSound(c.states[j], c, t, data);
    }
  }

  // ----- Fairness: routes are cut in step -----

  ghost function NodesTo(states: seq<Planned>, d: nat): set<string> {
    set k, i | 0 <= k < |states| && 0 <= i < |states[k].route.ids| && i < states[k].cursor && i < d :: states[k].route.ids[i]
  }

  ghost function LinksTo(states: seq<Planned>, d: nat): set<Link> {
    set k, i | 0 <= k < |states| && 0 < i < |states[k].route.ids| && i < states[k].cursor && i < d :: Step(states[k].route, i)
  }

  /** What the chosen fronts cost when none is longer than d places. */
  ghost function FrontCost(states: seq<Planned>, d: nat): nat { |NodesTo(states, d)| + |LinksTo(states, d)| + |states| }

  /** A route stops for want of room only when fronts at most one place longer than its own leave no room. */
  ghost predicate FairState(st: Planned, states: seq<Planned>, data: Data) {
    st.blocked && 0 < st.cursor < |st.route.ids| && Step(st.route, st.cursor) in data.links ==>
      Tight(FrontCost(states, st.cursor + 1), data)
  }

  ghost predicate Fair(states: seq<Planned>, data: Data) {
    forall k :: 0 <= k < |states| ==> FairState(states[k], states, data)
  }

  /** In round r the first n routes have had their turn. */
  ghost predicate Paced(states: seq<Planned>, r: nat, n: nat) {
    forall k :: 0 <= k < |states| ==> Done(states[k]) || states[k].cursor == if k < n then r + 1 else r
  }

  /** Nothing is chosen beyond the first d places. */
  ghost predicate WithinFronts(c: Chosen, d: nat) {
    && (forall id :: id in c.nodes ==> id in NodesTo(c.states, d))
    && (forall l :: l in c.links ==> l in LinksTo(c.states, d))
  }

  /** Nothing is chosen but the nodes and the steps of the chosen fronts. */
  ghost predicate OnFronts(c: Chosen) { exists d: nat :: WithinFronts(c, d) }

  lemma SomeFronts(c: Chosen, d: nat)
    requires WithinFronts(c, d)
    ensures OnFronts(c)
  {
  }

  lemma FrontsGrow(was: seq<Planned>, now: seq<Planned>, d: nat, e: nat)
    requires SameRoutes(was, now) && d <= e && forall k :: 0 <= k < |was| ==> was[k].cursor <= now[k].cursor
    ensures NodesTo(was, d) <= NodesTo(now, e) && LinksTo(was, d) <= LinksTo(now, e)
    ensures FrontCost(was, d) <= FrontCost(now, e)
  {
    SubsetSize(NodesTo(was, d), NodesTo(now, e));
    SubsetSize(LinksTo(was, d), LinksTo(now, e));
  }

  lemma FairGrows(st: Planned, was: seq<Planned>, now: seq<Planned>, data: Data)
    requires FairState(st, was, data)
    requires SameRoutes(was, now) && forall k :: 0 <= k < |was| ==> was[k].cursor <= now[k].cursor
    ensures FairState(st, now, data)
  {
    FrontsGrow(was, now, st.cursor + 1, st.cursor + 1);
  }

  lemma CostOfFronts(c: Chosen, d: nat, data: Data)
    requires ChosenSound(c, data) && WithinFronts(c, d)
    ensures c.cost <= FrontCost(c.states, d)
  {
    DistinctWithin(c.nodes, NodesTo(c.states, d));
    DistinctWithin(c.links, LinksTo(c.states, d));
  }

  lemma {:induction false} DistinctWithin<T>(s: seq<T>, all: set<T>)
    requires Distinct(s) && forall x :: x in s ==> x in all
    ensures |s| <= |all|
  {
    if s != [] {
      var front, last := s[..|s| - 1], s[|s| - 1];
      assert last in s && forall x :: x in front ==> x in s && x != last;
      DistinctWithin(front, all - {last});
    }
  }

  lemma MoveFair(c: Chosen, k: nat, r: nat, data: Data)
    requires k < |c.states| && c.states[k].cursor < |c.states[k].route.ids| && !c.states[k].blocked && r > 0
    requires Paced(c.states, r, k) && WithinFronts(c, r + 1) && Fair(c.states, data)
    ensures c.states[k].cursor == r
    ensures var t := Moved(c, k); Paced(t.states, r, k + 1) && WithinFronts(t, r + 1) && Fair(t.states, data)
  {
    var st, t := c.states[k], Moved(c, k);
    var link := Step(st.route, st.cursor);
    FrontsGrow(c.states, t.states, r + 1, r + 1);
    assert t.states[k].cursor == r + 1 && t.states[k].route.ids[r] == link.to;
    assert link.to in NodesTo(t.states, r + 1) && link in LinksTo(t.states, r + 1);
    forall j | 0 <= j < |t.states| ensures FairState(t.states[j], t.states, data) {
      FairGrows(c.states[j], c.states, t.states, data);
    }
  }

  lemma BlockFair(c: Chosen, k: nat, r: nat, data: Data)
    requires ChosenSound(c, data) && k < |c.states| && 0 < c.states[k].cursor < |c.states[k].route.ids| && !c.states[k].blocked
    requires Paced(c.states, r, k) && WithinFronts(c, r + 1) && Fair(c.states, data)
    requires Step(c.states[k].route, c.states[k].cursor) !in data.links || Tight(c.cost, data)
    ensures var t := c.(states := c.states[k := c.states[k].(blocked := true)]);
            Paced(t.states, r, k + 1) && WithinFronts(t, r + 1) && Fair(t.states, data)
  {
    hide ChosenSound, NodesTo, LinksTo, FrontCost, FairState;
    var st, now := c.states[k], c.states[k := c.states[k].(blocked := true)];
    FrontsGrow(c.states, now, r + 1, r + 1);
    CostOfFronts(c, r + 1, data);
    forall j | 0 <= j < |now| ensures FairState(now[j], now, data) {
      if j == k {
        BlockedFair(now[k], now, c.cost, data);
      } else {
        FairGrows(c.states[j], c.states, now, data);
      }
    }
  }

  lemma BlockedFair(st: Planned, states: seq<Planned>, cost: nat, data: Data)
    requires 0 < st.cursor < |st.route.ids| && (Step(st.route, st.cursor) !in data.links || Tight(cost, data))
    requires cost <= FrontCost(states, st.cursor + 1)
    ensures FairState(st, states, data)
  {
    hide FrontCost;
  }

  lemma PassFair(states: seq<Planned>, k: nat, r: nat)
    requires k < |states| && Done(states[k]) && Paced(states, r, k)
    ensures Paced(states, r, k + 1)
  {
  }

  lemma NextRound(c: Chosen, r: nat)
    requires Paced(c.states, r, |c.states|) && WithinFronts(c, r + 1)
    ensures Paced(c.states, r + 1, 0) && WithinFronts(c, r + 2)
  {
    FrontsGrow(c.states, c.states, r + 1, r + 2);
  }

  ghost predicate AtStart(c: Chosen) {
    && c.links == [] && (forall k :: 0 <= k < |c.states| ==> c.states[k].cursor == 1 && c.states[k].route.ids != [] && !c.states[k].blocked)
    && forall id :: id in c.nodes ==> exists k :: 0 <= k < |c.states| && c.states[k].route.ids != [] && c.states[k].route.ids[0] == id
  }

  lemma StartMore(was: Chosen, now: Chosen, route: Route)
    requires AtStart(was) && route.ids != [] && now.states == was.states + [Planned(route, 1, false)]
    requires now.links == was.links && (now.nodes == was.nodes || now.nodes == was.nodes + [route.ids[0]])
    ensures AtStart(now)
  {
    forall id | id in now.nodes ensures exists k :: 0 <= k < |now.states| && now.states[k].route.ids != [] && now.states[k].route.ids[0] == id {
      if id in was.nodes {
        var k :| 0 <= k < |was.states| && was.states[k].route.ids != [] && was.states[k].route.ids[0] == id;
        assert now.states[k] == was.states[k];
      } else {
        assert now.states[|was.states|].route.ids[0] == id;
      }
    }
  }

  lemma StartFair(c: Chosen, data: Data)
    requires AtStart(c)
    ensures Paced(c.states, 1, 0) && WithinFronts(c, 2) && Fair(c.states, data)
  {
    forall id | id in c.nodes ensures id in NodesTo(c.states, 2) {
      var k :| 0 <= k < |c.states| && c.states[k].route.ids != [] && c.states[k].route.ids[0] == id;
    }
  }

  lemma PlainNodeKeeps(c: Chosen, ids: seq<string>, i: nat, data: Data)
    requires ChosenSound(c, data) && c.states == [] && c.links == []
    requires Distinct(ids) && i < |ids| && c.nodes == ids[..i] && ids[i] in data.ids && Fits(c.cost + 1, data)
    ensures ChosenSound(c.(nodes := c.nodes + [ids[i]], cost := c.cost + 1), data)
  {
  }

  lemma PlainLinkKeeps(c: Chosen, l: Link, data: Data)
    requires ChosenSound(c, data) && c.states == [] && Fits(c.cost + 1, data)
    requires l in data.links && l !in c.links && l.from in c.nodes && l.to in c.nodes
    ensures ChosenSound(c.(links := c.links + [l], cost := c.cost + 1), data)
  {
  }

  lemma EmptySound(data: Data)
    ensures ChosenSound(Chosen([], [], [], 0), data)
  {
  }

  class DomSelection {
    const data: Data
    var nodes: seq<string>
    var links: seq<Link>
    var states: seq<Planned>
    var cost: nat

    constructor (data: Data)
      ensures this.data == data && Value() == Chosen([], [], [], 0)
    {
      this.data := data;
      nodes, links, states, cost := [], [], [], 0;
    }

    function Value(): Chosen
      reads this
    {
      Chosen(nodes, links, states, cost)
    }

    /** Starts a route at its first node, when that fits. */
    method StartRoute(route: Route)
      requires ChosenSound(Value(), data) && RouteOf(route, data)
      modifies this
      ensures ChosenSound(Value(), data) && Grows(old(Value()), Value())
      ensures states == old(states) + [Planned(route, 1, false)] || (Value() == old(Value()) && Tight(cost, data))
      ensures links == old(links) && (nodes == old(nodes) || nodes == old(nodes) + [route.ids[0]])
    {
      ghost var was := Value();
      var first := route.ids[0];
      var need := 1 + if first in nodes then 0 else 1;
      if !Fits(cost + need, data) {
        return;
      }
      if first !in nodes {
        nodes := nodes + [first];
        cost := cost + 1;
      }
      states := states + [Planned(route, 1, false)];
      cost := cost + 1;
      forall k | 0 <= k < |states| ensures StateSound(states[k], Value(), data) {
        if k < |was.states| {
          StillSound(was.states[k], was, Value(), data);
        }
      }
    }

    method Move(k: nat)
      requires k < |states| && 0 < states[k].cursor < |states[k].route.ids|
      modifies this
      ensures Value() == Moved(old(Value()), k)
    {
      var st := states[k];
      var link := Step(st.route, st.cursor);
      var newLink := link !in links;
      if link.to !in nodes {
        nodes := nodes + [link.to];
        cost := cost + 1;
      }
      if newLink {
        links := links + [link];
        cost := cost + 1;
      }
      states := states[k := st.(cursor := st.cursor + 1)];
    }

    /** One step of one route: it moves on, or is blocked for good. */
    method Advance(k: nat, ghost r: nat) returns (progressed: bool)
      requires ChosenSound(Value(), data) && k < |states| && r > 0
      requires Paced(states, r, k) && WithinFronts(Value(), r + 1) && Fair(states, data)
      modifies this
      ensures Paced(states, r, k + 1) && WithinFronts(Value(), r + 1) && Fair(states, data)
      ensures ChosenSound(Value(), data) && Grows(old(Value()), Value()) && SameRoutes(old(states), states)
      ensures if progressed then Left(states) < Left(old(states)) else Left(states) <= Left(old(states)) && Done(states[k])
      ensures forall j :: 0 <= j < |states| && j != k ==> states[j] == old(states)[j]
    {
      hide ChosenSound, StateSound, Moved, Left, Paced, WithinFronts, Fair;
      ghost var was := Value();
      var st := states[k];
      StateOf(was, k, data);
      if st.blocked || st.cursor >= |st.route.ids| {
        PassFair(states, k, r);
        return false;
      }
      LeftFalls(states, k);
      var link := Step(st.route, st.cursor);
      var need := (if link.to in nodes then 0 else 1) + if link in links then 0 else 1;
      if link !in data.links || !Fits(cost + need, data) {
        BlockKeeps(was, k, data);
        BlockFair(was, k, r, data);
        states := states[k := st.(blocked := true)];
        return false;
      }
      MoveKeeps(was, k, data);
      MoveFair(was, k, r, data);
      MovedStates(was, k);
      Move(k);
      return true;
    }

    /** Moves every route one step, in order. */
    method AdvanceAll(ghost r: nat) returns (progressed: bool)
      requires ChosenSound(Value(), data) && r > 0
      requires Paced(states, r, 0) && WithinFronts(Value(), r + 1) && Fair(states, data)
      modifies this
      ensures Paced(states, r, |states|) && WithinFronts(Value(), r + 1) && Fair(states, data)
      ensures ChosenSound(Value(), data) && Grows(old(Value()), Value()) && SameRoutes(old(states), states)
      ensures if progressed then Left(states) < Left(old(states)) else Left(states) <= Left(old(states)) && Settled(states)
    {
      progressed := false;
      var k := 0;
      while k < |states|
        invariant ChosenSound(Value(), data) && Grows(old(Value()), Value()) && SameRoutes(old(states), states)
        invariant k <= |states| && Paced(states, r, k) && WithinFronts(Value(), r + 1) && Fair(states, data)
        invariant if progressed then Left(states) < Left(old(states)) else Left(states) <= Left(old(states)) && DoneUpTo(states, k)
      {
        ghost var was := states;
        var moved := Advance(k, r);
        if moved {
          progressed := true;
        }
        k := k + 1;
      }
    }

    /** Starts the routes that fit, in order. */
    method StartRoutes(routes: seq<Route>)
      requires Value() == Chosen([], [], [], 0) && ChosenSound(Value(), data) && forall k :: 0 <= k < |routes| ==> RouteOf(routes[k], data)
      modifies this
      ensures ChosenSound(Value(), data) && AtStart(Value())
      ensures |states| < |routes| ==> Tight(cost, data)
      ensures |states| <= |routes| && Picked(RoutesOf(states), routes)
    {
      assert Picked(RoutesOf(states), routes[..0]);
      assert AtStart(Value());
      assert forall k :: 0 <= k < |routes| ==> RouteOf(routes[k], data) && routes[k].ids != [];
      hide ChosenSound, Picked, RouteOf, RoutesOf, AtStart;
      var i := 0;
      while i < |routes|
        invariant i <= |routes| && ChosenSound(Value(), data) && |states| <= i && AtStart(Value())
        invariant |states| < i ==> Tight(cost, data)
        invariant Picked(RoutesOf(states), routes[..i])
      {
        ghost var was := Value();
        StartRoute(routes[i]);
        if Value() != was {
          StartMore(was, Value(), routes[i]);
        }
        StartedPicked(was.states, states, routes, i);
        i := i + 1;
      }
      assert routes[..i] == routes;
    }

    /** Chooses fronts of the routes, fairly and within the budget. */
    method ChooseRoutes(routes: seq<Route>)
      requires Value() == Chosen([], [], [], 0) && ChosenSound(Value(), data) && forall k :: 0 <= k < |routes| ==> RouteOf(routes[k], data)
      modifies this
      ensures ChosenSound(Value(), data) && Settled(states) && Fair(states, data)
      ensures |states| < |routes| ==> Tight(cost, data)
      ensures |states| <= |routes| && Picked(RoutesOf(states), routes) && OnFronts(Value())
    {
      hide ChosenSound, Picked, Left, RouteOf, RoutesOf, Done, Settled, Paced, WithinFronts, Fair, AtStart;
      StartRoutes(routes);
      StartFair(Value(), data);
      ghost var r := 1;
      var progressed := true;
      while progressed
        invariant ChosenSound(Value(), data) && (progressed || Settled(states))
        invariant |states| <= |routes| && (|states| < |routes| ==> Tight(cost, data))
        invariant Picked(RoutesOf(states), routes)
        invariant r > 0 && Paced(states, r, 0) && WithinFronts(Value(), r + 1) && Fair(states, data)
        decreases Left(states), progressed
      {
        ghost var was := states;
        progressed := AdvanceAll(r);
        SameRoutesOf(was, states);
        NextRound(Value(), r);
        r := r + 1;
      }
      SomeFronts(Value(), r + 1);
    }

    /** Without routes: nodes in order while they fit, then links between them. */
    method ChoosePlain(ids: seq<string>, pairs: seq<Link>)
      requires ChosenSound(Value(), data) && Value() == Chosen([], [], [], 0)
      requires Distinct(ids) && (forall id :: id in ids ==> id in data.ids) && forall l :: l in pairs ==> l in data.links
      modifies this
      ensures ChosenSound(Value(), data) && states == []
      ensures nodes <= ids && (|nodes| < |ids| ==> Tight(cost, data))
      ensures forall l :: l in pairs && l.from in nodes && l.to in nodes && l !in links ==> Tight(cost, data)
    {
      hide ChosenSound;
      var i := 0;
      while i < |ids| && Fits(cost + 1, data)
        invariant i <= |ids| && ChosenSound(Value(), data) && states == [] && links == [] && nodes == ids[..i]
      {
        PlainNodeKeeps(Value(), ids, i, data);
        nodes := nodes + [ids[i]];
        cost := cost + 1;
        i := i + 1;
      }
      ghost var kept := nodes;
      var k := 0;
      while k < |pairs|
        invariant k <= |pairs| && ChosenSound(Value(), data) && states == [] && nodes == kept
        invariant i < |ids| ==> Tight(cost, data)
        invariant forall l :: l in pairs[..k] && l.from in nodes && l.to in nodes && l !in links ==> Tight(cost, data)
      {
        var l := pairs[k];
        if l.from in nodes && l.to in nodes && Fits(cost + 1, data) && l !in links {
          PlainLinkKeeps(Value(), l, data);
          links := links + [l];
          cost := cost + 1;
        }
        k := k + 1;
      }
    }
  }

  // ----- Mounting and chunking -----

  datatype Item =
    | Canvas | Inspector | NodeItem(node: Shown) | LinkItem(link: Link) | ConnectorItem(connector: Connector) | RouteItem(route: Route)
    | GeoCanvas | GeoLegend | GeoTarget(result: nat) | GeoList | GeoMarker(id: string)
    | LabelShell | LabelRow(index: nat)

  function Cost(item: Item): (c: nat)
    ensures 1 <= c <= 5
  {
    match item
    case Inspector => INSPECTOR_COST
    case GeoLegend => 2
    case LabelShell => 4
    case LabelRow(_) => 5
    case Canvas => CANVAS_COST
    case _ => 1
  }

  function Total(items: seq<Item>): nat {
    if items == [] then 0 else Total(items[..|items| - 1]) + Cost(items[|items| - 1])
  }

  lemma {:induction false} TotalAppend(a: seq<Item>, b: seq<Item>)
    ensures Total(a + b) == Total(a) + Total(b)
  {
    if b == [] {
      assert a + b == a;
    } else {
      TotalAppend(a, b[..|b| - 1]);
      assert (a + b)[..|a + b| - 1] == a + b[..|b| - 1];
    }
  }

  lemma {:induction false} TotalOfUnits(items: seq<Item>)
    requires forall k :: 0 <= k < |items| ==> Cost(items[k]) == 1
    ensures Total(items) == |items|
  {
    if items != [] {
      TotalOfUnits(items[..|items| - 1]);
    }
  }

  lemma TotalFront(items: seq<Item>, k: nat)
    requires k < |items|
    ensures items[..k + 1] == items[..k] + [items[k]]
    ensures Total(items[..k + 1]) == Total(items[..k]) + Cost(items[k]) && Total(items[..k + 1]) <= Total(items)
  {
    hide Total, Cost;
    var front, rest := items[..k] + [items[k]], items[k + 1..];
    assert items[..k + 1] == front;
    assert items == front + rest;
    TotalOne(items[..k], items[k]);
    TotalAppend(front, rest);
  }

  lemma TotalOne(items: seq<Item>, item: Item)
    ensures Total(items + [item]) == Total(items) + Cost(item)
  {
    assert (items + [item])[..|items|] == items;
  }

  /** Mounts items until one does not fit. */
  method MountWhile(mounted: seq<Item>, items: seq<Item>, budget: nat) returns (now: seq<Item>, count: nat)
    requires Total(mounted) <= budget
    ensures count <= |items| && now == mounted + items[..count] && Total(now) <= budget
    ensures count < |items| ==> Total(now) + Cost(items[count]) > budget
  {
    hide Total, Cost;
    now, count := mounted, 0;
    while count < |items| && Total(now) + Cost(items[count]) <= budget
      invariant count <= |items| && now == mounted + items[..count] && Total(now) <= budget
    {
      TotalOne(now, items[count]);
      assert items[..count + 1] == items[..count] + [items[count]];
      now := now + [items[count]];
      count := count + 1;
    }
  }

  /** Mounts each item that still fits; all of them when they fit together. */
  method MountEach(mounted: seq<Item>, items: seq<Item>, budget: nat) returns (now: seq<Item>)
    requires Total(mounted) <= budget
    ensures Total(now) <= budget && mounted <= now && |now| <= |mounted| + |items|
    ensures Total(mounted) + Total(items) <= budget ==> now == mounted + items
  {
    hide Total;
    now := mounted;
    var k := 0;
    while k < |items|
      invariant k <= |items| && Total(now) <= budget && mounted <= now && |now| <= |mounted| + k
      invariant Total(mounted) + Total(items) <= budget ==> now == mounted + items[..k]
    {
      TotalFront(items, k);
      TotalAppend(mounted, items[..k]);
      TotalOne(now, items[k]);
      if Total(now) + Cost(items[k]) <= budget {
        now := now + [items[k]];
      }
      k := k + 1;
    }
    assert items[..k] == items;
  }

  function Flatten(chunks: seq<seq<Item>>): seq<Item> {
    if chunks == [] then [] else Flatten(chunks[..|chunks| - 1]) + chunks[|chunks| - 1]
  }

  ghost predicate ChunksWithin(chunks: seq<seq<Item>>, size: nat) {
    forall k :: 0 <= k < |chunks| ==> chunks[k] != [] && Total(chunks[k]) <= size
  }

  /** No chunk has room for the first item of the next one. */
  ghost predicate ChunksFull(chunks: seq<seq<Item>>, next: seq<Item>, size: nat) {
    chunks != [] ==>
      && (next != [] ==> Total(chunks[|chunks| - 1]) + Cost(next[0]) > size)
      && ChunksFull(chunks[..|chunks| - 1], chunks[|chunks| - 1], size)
  }

  /** The chunks so far and the open chunk are the items so far. */
  ghost predicate Chunked(chunks: seq<seq<Item>>, chunk: seq<Item>, items: seq<Item>, size: nat) {
    && Flatten(chunks) + chunk == items && ChunksWithin(chunks, size) && ChunksFull(chunks, chunk, size)
    && Total(chunk) <= size && (chunks != [] ==> chunk != [])
  }

  lemma AddToChunk(chunks: seq<seq<Item>>, chunk: seq<Item>, items: seq<Item>, item: Item, size: nat)
    requires Chunked(chunks, chunk, items, size) && Total(chunk) + Cost(item) <= size
    ensures Chunked(chunks, chunk + [item], items + [item], size)
  {
    TotalOne(chunk, item);
    assert Flatten(chunks) + (chunk + [item]) == Flatten(chunks) + chunk + [item];
    assert chunk != [] ==> (chunk + [item])[0] == chunk[0];
  }

  lemma OpenChunk(chunks: seq<seq<Item>>, chunk: seq<Item>, items: seq<Item>, item: Item, size: nat)
    requires Chunked(chunks, chunk, items, size) && chunk != [] && Total(chunk) + Cost(item) > size && size >= 5
    ensures Chunked(chunks + [chunk], [item], items + [item], size)
  {
    assert (chunks + [chunk])[..|chunks|] == chunks;
    assert [item][..0] == [] && Total([item]) == Cost(item);
  }

  /** The chunks are the items in order, each chunk within the limit and none with room to spare. */
  method SplitChunks(items: seq<Item>, size: nat) returns (chunks: seq<seq<Item>>)
    requires size >= 5
    ensures Flatten(chunks) == items && ChunksWithin(chunks, size) && ChunksFull(chunks, [], size)
  {
    chunks := [];
    var chunk: seq<Item> := [];
    var chunkCost := 0;
    var k := 0;
    while k < |items|
      invariant k <= |items| && chunkCost == Total(chunk) && Chunked(chunks, chunk, items[..k], size)
      invariant k == 0 ==> chunk == []
    {
      hide Chunked, Total, Cost;
      var item := items[k];
      assert items[..k + 1] == items[..k] + [item];
      TotalOne(chunk, item);
      if chunk != [] && chunkCost + Cost(item) > size {
        OpenChunk(chunks, chunk, items[..k], item, size);
        TotalOne([], item);
        TotalNothing();
        assert [] + [item] == [item];
        chunks := chunks + [chunk];
        chunk := [];
        chunkCost := 0;
      } else {
        TotalNothing();
        AddToChunk(chunks, chunk, items[..k], item, size);
      }
      chunk := chunk + [item];
      chunkCost := chunkCost + Cost(item);
      k := k + 1;
    }
    assert items[..k] == items;
    CloseChunk(chunks, chunk, items, size);
    if chunk != [] {
      chunks := chunks + [chunk];
    }
  }

  lemma TotalNothing()
    ensures Total([]) == 0 && forall item :: Cost(item) <= 5
  {
  }

  lemma CloseChunk(chunks: seq<seq<Item>>, chunk: seq<Item>, items: seq<Item>, size: nat)
    requires Chunked(chunks, chunk, items, size)
    ensures var all := if chunk != [] then chunks + [chunk] else chunks;
            Flatten(all) == items && ChunksWithin(all, size) && ChunksFull(all, [], size)
  {
    assert (chunks + [chunk])[..|chunks|] == chunks;
    assert Flatten(chunks) + [] == Flatten(chunks);
  }

  // ----- The plan -----

  datatype Options = Options(place: Place, existing: int, available: Option<int>, chunkLimit: Option<int>, show: bool, labels: nat)

  datatype Plan = Plan(
    renderable: bool, existing: nat, reserve: nat, dynamicBudget: nat, view: View, items: seq<Item>, chunks: seq<seq<Item>>,
    chunkSize: nat, estimated: nat, selected: Topology)

  function Clamp(value: int, low: nat, high: nat): nat
    requires low <= high
  {
    if value < low then low else if value > high then high else value
  }

  function ItemsOf(view: View): seq<Item> {
    seq(|view.display.nodes|, k requires 0 <= k < |view.display.nodes| => NodeItem(view.display.nodes[k]))
    + seq(|view.display.links|, k requires 0 <= k < |view.display.links| => LinkItem(view.display.links[k]))
    + seq(|view.display.connectors|, k requires 0 <= k < |view.display.connectors| => ConnectorItem(view.display.connectors[k]))
    + seq(|view.routes|, k requires 0 <= k < |view.routes| => RouteItem(view.routes[k]))
  }

  function Elements(view: View): nat {
    |view.display.nodes| + |view.display.links| + |view.display.connectors| + |view.routes|
  }

  lemma ItemsTotal(view: View)
    ensures Total(ItemsOf(view)) == Elements(view)
  {
    TotalOfUnits(ItemsOf(view));
  }

  /** The presentation of what was chosen within a budget stays within it. */
  lemma PresentationFits(topology: Topology, show: bool, budget: nat, view: View, folded: seq<seq<Token>>, all: seq<Shown>, pool: Pool)
    requires Presented(topology, show, budget, view, folded, all, pool) && |topology.routes| <= budget
    ensures Elements(view) <= budget
  {
  }

  function TopologyItems(view: View, dynamicBudget: nat): seq<Item> {
    (if dynamicBudget >= 3 then [Canvas, Inspector] else if dynamicBudget >= 1 then [Canvas] else []) + ItemsOf(view)
  }

  lemma ChromeTotals()
    ensures Total([]) == 0 && Total([Canvas]) == 1 && Total([Canvas, Inspector]) == Total([Inspector]) + 1 == 3
  {
    assert [Canvas][..0] == [] && [Canvas, Inspector][..1] == [Canvas] && [Inspector][..0] == [];
  }

  /** In the topology view everything the presentation left is mounted. */
  method MountTopology(view: View, dynamicBudget: nat) returns (items: seq<Item>)
    requires Elements(view) <= if dynamicBudget < 3 then 0 else dynamicBudget - 3
    ensures Total(items) <= dynamicBudget
    ensures items == TopologyItems(view, dynamicBudget)
  {
    hide Total, ItemsOf, Elements;
    ItemsTotal(view);
    ChromeTotals();
    items := [];
    if Total(items) + Cost(Canvas) <= dynamicBudget {
      items := items + [Canvas];
      assert items == [Canvas];
    }
    if Total(items) + Cost(Inspector) <= dynamicBudget {
      items := items + [Inspector];
      assert items == [Canvas, Inspector];
    }
    ghost var head := items;
    assert Total(head) <= if dynamicBudget >= 3 then 3 else dynamicBudget;
    items := MountEach(items, ItemsOf(view), dynamicBudget);
  }

  /** Of the first n nodes, the first of each identifier, in order. */
  ghost predicate NodesSeen(nodes: seq<Node>, raw: seq<Node>, n: nat) {
    && n <= |raw| && InOrderOfArrival(IDsOf(nodes), IDsOf(raw[..n]))
    && forall k :: 0 <= k < |nodes| ==> FirstNode(nodes[k], raw)
  }

  ghost predicate FirstNode(node: Node, raw: seq<Node>) { exists m :: 0 <= m < |raw| && raw[m] == node && node.id !in IDsOf(raw[..m]) }

  /** All the nodes there are, or as many as there may be. */
  ghost predicate FirstNodes(nodes: seq<Node>, raw: seq<Node>, n: nat) { NodesSeen(nodes, raw, n) && (n == |raw| || |nodes| == DATA_NODES) }

  lemma NoNodes(raw: seq<Node>)
    ensures NodesSeen([], raw, 0)
  {
    assert IDsOf([]) == [] && raw[..0] == [];
    NoArrivals<string>();
  }

  lemma SeenAlready(nodes: seq<Node>, id: string)
    ensures id in IDsOf(nodes) <==> exists k :: 0 <= k < |nodes| && nodes[k].id == id
  {
    if k :| 0 <= k < |nodes| && nodes[k].id == id {
      assert IDsOf(nodes)[k] == id;
    }
  }

  lemma Arrived(order: seq<string>, stream: seq<string>, id: string)
    requires InOrderOfArrival(order, stream)
    ensures id in order <==> id in stream
  {
  }

  lemma FirstIs(raw: seq<Node>, i: nat)
    requires i < |raw| && raw[i].id !in IDsOf(raw[..i])
    ensures FirstNode(raw[i], raw)
  {
  }

  lemma NodeSeen(nodes: seq<Node>, raw: seq<Node>, i: nat)
    requires NodesSeen(nodes, raw, i) && i < |raw|
    ensures NodesSeen(if raw[i].id in IDsOf(nodes) then nodes else nodes + [raw[i]], raw, i + 1)
    ensures raw[i].id in IDsOf(nodes) <==> exists k :: 0 <= k < |nodes| && nodes[k].id == raw[i].id
  {
    hide InOrderOfArrival, FirstNode;
    var id := raw[i].id;
    OneMoreArrival(IDsOf(nodes), IDsOf(raw[..i]), id);
    assert IDsOf(raw[..i + 1]) == IDsOf(raw[..i]) + [id] && IDsOf(nodes + [raw[i]]) == IDsOf(nodes) + [id];
    SeenAlready(nodes, id);
    if id !in IDsOf(nodes) {
      Arrived(IDsOf(nodes), IDsOf(raw[..i]), id);
      FirstIs(raw, i);
    }
  }

  method FilterNodes(raw: seq<Node>) returns (nodes: seq<Node>, ids: set<string>)
    ensures |nodes| <= DATA_NODES && (forall j, k :: 0 <= j < k < |nodes| ==> nodes[j].id != nodes[k].id)
    ensures (forall n :: n in nodes ==> n in raw) && forall id :: id in ids <==> exists k :: 0 <= k < |nodes| && nodes[k].id == id
    ensures |nodes| < DATA_NODES ==> forall n :: n in raw ==> n.id in ids
    ensures exists n: nat :: FirstNodes(nodes, raw, n)
  {
    nodes, ids := [], {};
    var i := 0;
    NoNodes(raw);
    hide NodesSeen;
    while i < |raw| && |nodes| < DATA_NODES
      invariant i <= |raw| && |nodes| <= DATA_NODES && (forall n :: n in nodes ==> n in raw)
      invariant forall j, k :: 0 <= j < k < |nodes| ==> nodes[j].id != nodes[k].id
      invariant forall id :: id in ids <==> exists k :: 0 <= k < |nodes| && nodes[k].id == id
      invariant forall n :: n in raw[..i] ==> n.id in ids
      invariant NodesSeen(nodes, raw, i)
    {
      NodeSeen(nodes, raw, i);
      if raw[i].id !in ids {
        ghost var was := nodes;
        nodes := nodes + [raw[i]];
        ids := ids + {raw[i].id};
        assert nodes[|was|].id == raw[i].id;
        assert forall k :: 0 <= k < |was| ==> nodes[k] == was[k];
      }
      i := i + 1;
    }
    assert FirstNodes(nodes, raw, i);
  }

  /** The links between known nodes, in order: all there are, or as many as there may be. */
  ghost predicate FirstLinks(links: seq<Link>, raw: seq<Link>, ids: set<string>, n: nat) {
    n <= |raw| && links == LinksWithin(raw[..n], ids) && (n == |raw| || |links| == DATA_LINKS)
  }

  lemma NoLinks(ids: set<string>)
    ensures LinksWithin([], ids) == []
  {
  }

  lemma NextLink(raw: seq<Link>, ids: set<string>, i: nat)
    requires i < |raw|
    ensures LinksWithin(raw[..i + 1], ids) == LinksWithin(raw[..i], ids) + if raw[i].from in ids && raw[i].to in ids then [raw[i]] else []
  {
    assert raw[..i + 1][..i] == raw[..i];
  }

  method FilterLinks(raw: seq<Link>, ids: set<string>) returns (links: seq<Link>)
    ensures |links| <= DATA_LINKS && forall l :: l in links ==> l in raw && l.from in ids && l.to in ids
    ensures |links| < DATA_LINKS || |raw| <= DATA_LINKS ==> forall l :: l in raw && l.from in ids && l.to in ids ==> l in links
    ensures exists n: nat :: FirstLinks(links, raw, ids, n)
  {
    hide LinksWithin;
    links := [];
    var i := 0;
    NoLinks(ids);
    while i < |raw| && |links| < DATA_LINKS
      invariant |links| <= i <= |raw| && |links| <= DATA_LINKS && links == LinksWithin(raw[..i], ids)
    {
      NextLink(raw, ids, i);
      if raw[i].from in ids && raw[i].to in ids {
        links := links + [raw[i]];
      }
      i := i + 1;
    }
    assert i == |raw| ==> raw[..i] == raw;
    assert FirstLinks(links, raw, ids, i);
  }

  predicate Usable(route: Route, ids: set<string>) {
    route.ids != [] && forall k :: 0 <= k < |route.ids| ==> route.ids[k] in ids
  }

  function UsableRoutes(routes: seq<Route>, ids: set<string>): (r: seq<Route>)
    ensures forall x :: x in r <==> x in routes && Usable(x, ids)
  {
    if routes == [] then []
    else UsableRoutes(routes[..|routes| - 1], ids) + if Usable(routes[|routes| - 1], ids) then [routes[|routes| - 1]] else []
  }

  function Planned1(st: Planned): Route
    requires st.cursor <= |st.route.ids|
  {
    Route(st.route.result, st.route.attempt, st.route.ids[..st.cursor], st.route.complete && st.cursor == |st.route.ids|)
  }

  function PlannedRoutes(states: seq<Planned>): (r: seq<Route>)
    requires forall k :: 0 <= k < |states| ==> states[k].cursor <= |states[k].route.ids|
    ensures |r| == |states| && forall k :: 0 <= k < |r| ==> r[k] == Planned1(states[k])
  {
    seq(|states|, k requires 0 <= k < |states| && states[k].cursor <= |states[k].route.ids| => Planned1(states[k]))
  }

  function NodesOf(ids: seq<string>, byID: map<string, Node>): (r: seq<Node>)
    requires forall id :: id in ids ==> id in byID && byID[id].id == id
    ensures |r| == |ids| && forall k :: 0 <= k < |r| ==> r[k].id == ids[k]
  {
    seq(|ids|, k requires 0 <= k < |ids| && ids[k] in ids && ids[k] in byID => byID[ids[k]])
  }

  /** What the selection hands on: nodes of the data, links between them, and fronts of usable routes whose
      steps are among the links; `complete` only on whole routes. */
  ghost predicate SelectedFrom(selected: Topology, c: Chosen, data: Data) {
    && ChosenSound(c, data) && Settled(c.states) && Fair(c.states, data)
    && |selected.nodes| == |c.nodes| && (forall k :: 0 <= k < |c.nodes| ==> selected.nodes[k].id == c.nodes[k])
    && selected.links == c.links
    && |selected.routes| == |c.states|
    && forall k :: 0 <= k < |c.states| ==> c.states[k].cursor <= |c.states[k].route.ids| && selected.routes[k] == Planned1(c.states[k])
  }

  lemma {:induction false} ByIDIs(nodes: seq<Node>, id: string)
    requires id in ByID(nodes)
    ensures ByID(nodes)[id].id == id
  {
    if nodes != [] && nodes[|nodes| - 1].id != id {
      ByIDIs(nodes[..|nodes| - 1], id);
    }
  }

  lemma SelectedValid(selected: Topology, c: Chosen, data: Data)
    requires SelectedFrom(selected, c, data)
    ensures TopologyValid(selected)
  {
    ByIDHas(selected.nodes);
    forall o | 0 <= o < |selected.routes| ensures Named(selected.routes[o].ids, ByID(selected.nodes)) {
      var st := c.states[o];
      assert StateSound(st, c, data);
      forall p | 0 <= p < |selected.routes[o].ids| ensures selected.routes[o].ids[p] in ByID(selected.nodes) {
        assert st.route.ids[p] in c.nodes;
        var k :| 0 <= k < |c.nodes| && c.nodes[k] == st.route.ids[p];
        assert selected.nodes[k].id == st.route.ids[p];
      }
    }
  }

  /** With routes, none that would still fit is left out and nothing is chosen beside their fronts; without any, nodes in order while they
      fit, and then every link between them that fits. */
  ghost predicate WellChosen(c: Chosen, ids: seq<string>, links: seq<Link>, routes: seq<Route>, data: Data) {
    if routes != [] then (|c.states| < |routes| ==> Tight(c.cost, data)) && OnFronts(c)
    else
      && c.states == [] && c.nodes <= ids && (|c.nodes| < |ids| ==> Tight(c.cost, data))
      && forall l :: l in links && l.from in c.nodes && l.to in c.nodes && l !in c.links ==> Tight(c.cost, data)
  }

  method Select(nodes: seq<Node>, links: seq<Link>, routes: seq<Route>, data: Data) returns (selected: Topology, c: Chosen)
    requires forall j, k :: 0 <= j < k < |nodes| ==> nodes[j].id != nodes[k].id
    requires data.ids == ByID(nodes).Keys && data.links == LinkSet(links)
    requires forall l :: l in links ==> l.from in data.ids && l.to in data.ids
    requires forall r :: r in routes ==> RouteOf(r, data)
    ensures SelectedFrom(selected, c, data) && TopologyValid(selected)
    ensures Picked(RoutesOf(c.states), Rounds(Runs(Sorted(routes)))) && WellChosen(c, IDsOf(nodes), links, routes, data)
  {
    hide ChosenSound, Picked, RouteOf, Rounds, Runs, Sorted, SelectedFrom, TopologyValid, Tight, OnFronts;
    EmptySound(data);
    var selection := new DomSelection(data);
    var ordered := OrderRoutes(routes);
    if routes == [] {
      ByIDHas(nodes);
      NonePicked(Rounds(Runs(Sorted(routes))));
      selection.ChoosePlain(IDsOf(nodes), links);
    } else {
      selection.ChooseRoutes(ordered);
    }
    c := selection.Value();
    selected := Selected(c, nodes, data);
  }

  function IDsOf(nodes: seq<Node>): (r: seq<string>)
    ensures |r| == |nodes| && forall k :: 0 <= k < |r| ==> r[k] == nodes[k].id
  {
    seq(|nodes|, k requires 0 <= k < |nodes| => nodes[k].id)
  }

  method OrderRoutes(routes: seq<Route>) returns (ordered: seq<Route>)
    ensures multiset(ordered) == multiset(routes) && |ordered| == |routes| && forall r :: r in ordered <==> r in routes
    ensures ordered == Rounds(Runs(Sorted(routes)))
  {
    ordered := FairRouteOrder(Runs(Sorted(routes)));
    SortedKeeps(routes);
    assert |multiset(ordered)| == |ordered| && |multiset(routes)| == |routes|;
    assert forall r :: r in ordered <==> r in multiset(ordered);
  }

  method Selected(c: Chosen, nodes: seq<Node>, ghost data: Data) returns (selected: Topology)
    requires ChosenSound(c, data) && Settled(c.states) && Fair(c.states, data) && data.ids == ByID(nodes).Keys
    ensures SelectedFrom(selected, c, data) && TopologyValid(selected)
  {
    var byID := ByID(nodes);
    forall id | id in c.nodes ensures id in byID && byID[id].id == id {
      ByIDIs(nodes, id);
    }
    forall k | 0 <= k < |c.states| ensures c.states[k].cursor <= |c.states[k].route.ids| {
      assert StateSound(c.states[k], c, data);
    }
    selected := Topology(NodesOf(c.nodes, byID), c.links, PlannedRoutes(c.states));
    SelectedValid(selected, c, data);
  }

  function Results(routes: seq<Route>): (r: set<nat>) { set x | x in routes :: x.result }

  method SortedResults(routes: seq<Route>) returns (targets: seq<nat>)
    ensures |targets| <= |routes| && (forall t :: t in targets <==> t in Results(routes))
    ensures forall j, k :: 0 <= j < k < |targets| ==> targets[j] < targets[k]
  {
    var rest := Results(routes);
    targets := [];
    ResultsFew(routes);
    while rest != {}
      invariant forall t :: t in Results(routes) <==> t in rest || t in targets
      invariant forall j, k :: 0 <= j < k < |targets| ==> targets[j] < targets[k]
      invariant forall j, t :: 0 <= j < |targets| && t in rest ==> targets[j] < t
      invariant |targets| + |rest| <= |routes|
      decreases |rest|
    {
      var least := Least(rest);
      targets := targets + [least];
      rest := rest - {least};
    }
  }

  method Least(s: set<nat>) returns (m: nat)
    requires s != {}
    ensures m in s && forall x :: x in s ==> m <= x
  {
    m :| m in s;
    var rest := s - {m};
    while rest != {}
      invariant m in s && rest <= s && forall x :: x in s ==> x in rest || m <= x
      decreases |rest|
    {
      var x :| x in rest;
      if x < m {
        m := x;
      }
      rest := rest - {x};
    }
  }

  lemma {:induction false} ResultsFew(routes: seq<Route>)
    ensures |Results(routes)| <= |routes|
  {
    if routes != [] {
      var front, last := routes[..|routes| - 1], routes[|routes| - 1];
      ResultsFew(front);
      assert Results(routes) == Results(front) + {last.result};
    }
  }

  function Entries(targets: seq<nat>): (r: seq<Item>)
    ensures |r| == |targets| && Total(r) == |targets|
  {
    var r := seq(|targets|, k requires 0 <= k < |targets| => GeoTarget(targets[k]));
    TotalOfUnits(r);
    r
  }

  function LegendItems(targets: seq<nat>, dynamicBudget: nat): seq<Item> {
    if targets != [] then [GeoCanvas, GeoLegend] + Entries(targets) else if dynamicBudget >= 1 then [GeoCanvas] else []
  }

  function MarkerItems(markers: seq<string>): (r: seq<Item>)
    ensures |r| == |markers| && forall k :: 0 <= k < |r| ==> r[k] == GeoMarker(markers[k])
  {
    seq(|markers|, k requires 0 <= k < |markers| => GeoMarker(markers[k]))
  }

  function Rows(n: nat): (r: seq<Item>)
    ensures |r| == n && forall k :: 0 <= k < n ==> r[k] == LabelRow(k)
  {
    seq(n, k requires 0 <= k < n => LabelRow(k))
  }

  lemma LegendTotals()
    ensures Total([]) == 0 && Total([GeoCanvas]) == 1 && Total([GeoCanvas, GeoLegend]) == 3 && Total([LabelShell]) == 4
  {
    assert [GeoCanvas][..0] == [] && [GeoCanvas, GeoLegend][..1] == [GeoCanvas] && [LabelShell][..0] == [];
  }

  method MountLegend(targets: seq<nat>, dynamicBudget: nat) returns (items: seq<Item>)
    requires targets != [] ==> dynamicBudget >= 3 + |targets|
    ensures Total(items) <= dynamicBudget && items == LegendItems(targets, dynamicBudget)
  {
    hide Total;
    LegendTotals();
    items := [];
    if Total(items) + Cost(GeoCanvas) <= dynamicBudget {
      items := items + [GeoCanvas];
      assert items == [GeoCanvas];
    }
    if targets != [] {
      if Total(items) + Cost(GeoLegend) <= dynamicBudget {
        items := items + [GeoLegend];
        assert items == [GeoCanvas, GeoLegend];
        items := MountEach(items, Entries(targets), dynamicBudget);
      }
    }
  }

  /** The map's legend is mounted whole or nothing is; then the list with as many of its first places as fit. */
  method MountGeo(targets: seq<nat>, markers: seq<string>, dynamicBudget: nat) returns (renderable: bool, items: seq<Item>)
    ensures Total(items) <= dynamicBudget && (!renderable ==> items == [])
    ensures renderable == (targets == [] || dynamicBudget >= 3 + |targets|)
    ensures renderable ==> GeoMounted(LegendItems(targets, dynamicBudget), markers, dynamicBudget, items)
  {
    items := [];
    renderable := !(targets != [] && dynamicBudget < 3 + |targets|);
    LegendTotals();
    hide Total, LegendItems;
    if renderable {
      items := MountLegend(targets, dynamicBudget);
      if Total(items) + Cost(GeoList) <= dynamicBudget {
        TotalOne(items, GeoList);
        var count;
        items, count := MountWhile(items + [GeoList], MarkerItems(Front(markers, ACCESSIBLE_ITEMS)), dynamicBudget);
      }
    }
  }

  ghost predicate GeoMounted(legend: seq<Item>, markers: seq<string>, dynamicBudget: nat, items: seq<Item>) {
    if Total(legend) + 1 > dynamicBudget then items == legend
    else
      var places := MarkerItems(Front(markers, ACCESSIBLE_ITEMS));
      exists count: nat :: count <= |places| && items == legend + [GeoList] + places[..count]
                           && (count < |places| ==> Total(items) + 1 > dynamicBudget)
  }

  ghost predicate LabelsMounted(labels: nat, dynamicBudget: nat, items: seq<Item>) {
    if dynamicBudget < 4 then items == []
    else
      var rows := if labels < LABEL_PAGE then labels else LABEL_PAGE;
      && 1 <= |items| <= 1 + rows && items == [LabelShell] + Rows(|items| - 1)
      && (|items| < 1 + rows ==> Total(items) + 5 > dynamicBudget)
  }

  /** The shell and as many of the first rows of a page as fit. */
  method MountLabels(labels: nat, dynamicBudget: nat) returns (items: seq<Item>)
    ensures Total(items) <= dynamicBudget
    ensures LabelsMounted(labels, dynamicBudget, items)
  {
    LegendTotals();
    hide Total;
    items := [];
    if Total(items) + Cost(LabelShell) <= dynamicBudget {
      var few := if labels < LABEL_PAGE then labels else LABEL_PAGE;
      var count;
      items, count := MountWhile([LabelShell], Rows(few), dynamicBudget);
      assert Rows(few)[..count] == Rows(count);
    }
  }

  /** The raw model as it arrives. */
  datatype Model = Model(nodes: seq<Node>, links: seq<Link>, routes: seq<Route>, located: set<string>)

  /** The located nodes in the order they were chosen. */
  function MarkersOf(ids: seq<string>, located: set<string>): seq<string> {
    if ids == [] then []
    else MarkersOf(ids[..|ids| - 1], located) + if ids[|ids| - 1] in located then [ids[|ids| - 1]] else []
  }

  method Markers(ids: seq<string>, located: set<string>) returns (markers: seq<string>)
    ensures markers == MarkersOf(ids, located)
  {
    markers := [];
    var k := 0;
    while k < |ids|
      invariant k <= |ids| && markers == MarkersOf(ids[..k], located)
    {
      assert ids[..k + 1][..k] == ids[..k];
      if ids[k] in located {
        markers := markers + [ids[k]];
      }
      k := k + 1;
    }
    assert ids[..k] == ids;
  }

  ghost predicate Bounded(plan: Plan) {
    && (plan.renderable ==> plan.existing + plan.reserve + Total(plan.items) <= DOCUMENT)
    && (plan.renderable ==> plan.estimated == plan.existing + plan.reserve + Total(plan.items))
    && (!plan.renderable ==> plan.items == [] && plan.estimated == plan.existing <= DOCUMENT)
    && Total(plan.items) <= plan.dynamicBudget
    && Flatten(plan.chunks) == plan.items && ChunksWithin(plan.chunks, plan.chunkSize) && ChunksFull(plan.chunks, [], plan.chunkSize)
    && plan.chunkSize <= CHUNK
  }

  /** In the topology view nothing that the presentation left is dropped. */
  ghost predicate MountsAll(plan: Plan) {
    plan.items == TopologyItems(plan.view, plan.dynamicBudget)
  }

  /** Nodes of the model, each identifier once, and links of the model between them, up to the two caps. */
  ghost predicate DataFrom(data: Data, model: Model) {
    && (forall id :: id in data.ids ==> exists k :: 0 <= k < |model.nodes| && model.nodes[k].id == id)
    && |data.ids| <= DATA_NODES && (|data.ids| < DATA_NODES ==> forall k :: 0 <= k < |model.nodes| ==> model.nodes[k].id in data.ids)
    && (forall l :: l in data.links ==> l in model.links && l.from in data.ids && l.to in data.ids)
    && (|model.links| <= DATA_LINKS ==> forall l :: l in model.links && l.from in data.ids && l.to in data.ids ==> l in data.links)
  }

  /** The nodes, links and routes that can be used, in the model's order. */
  ghost predicate ReadFrom(model: Model, nodes: seq<Node>, links: seq<Link>, routes: seq<Route>, data: Data) {
    && (exists n: nat :: FirstNodes(nodes, model.nodes, n)) && (exists n: nat :: FirstLinks(links, model.links, data.ids, n))
    && routes == UsableRoutes(Front(model.routes, DATA_ROUTES), data.ids)
  }

  /** What is shown comes from the model: usable routes in fair order, cut to fronts whose steps are links of the
      model, and the presentation of exactly that. */
  ghost predicate Drawn(selected: Topology, view: View, model: Model, show: bool, budget: nat,
                        nodes: seq<Node>, links: seq<Link>, c: Chosen, data: Data, folded: seq<seq<Token>>, all: seq<Shown>, pool: Pool) {
    var routes := UsableRoutes(Front(model.routes, DATA_ROUTES), data.ids);
    && DataFrom(data, model) && SelectedFrom(selected, c, data) && TopologyValid(selected)
    && ReadFrom(model, nodes, links, routes, data) && WellChosen(c, IDsOf(nodes), links, routes, data)
    && Picked(RoutesOf(c.states), Rounds(Runs(Sorted(routes))))
    && Presented(selected, show, budget, view, folded, all, pool)
  }

  /** What the topology view leaves for nodes, links and routes: its canvas and inspector come first. */
  function Remaining(dynamicBudget: nat): nat { if dynamicBudget < CANVAS_COST + INSPECTOR_COST then 0 else dynamicBudget - CANVAS_COST - INSPECTOR_COST }

  /** The topology view selects and presents within what remains; the other views select without a budget. */
  ghost predicate Faithful(selected: Topology, view: View, model: Model, show: bool, place: Place, dynamicBudget: nat) {
    exists budget, nodes, links, c, data, folded, all, pool ::
      && Drawn(selected, view, model, show, budget, nodes, links, c, data, folded, all, pool)
      && data.budget == (if place == TopologyView then Some(Remaining(dynamicBudget)) else None)
      && budget == if place == TopologyView then Remaining(dynamicBudget) else |selected.routes| + NODE_CAP + LINK_CAP
  }

  lemma RoutesFit(selected: Topology, c: Chosen, data: Data)
    requires SelectedFrom(selected, c, data) && data.budget.Some?
    ensures |selected.routes| <= data.budget.value
  {
  }

  lemma DrawnIsFaithful(selected: Topology, view: View, model: Model, show: bool, budget: nat, place: Place, dynamicBudget: nat,
                        nodes: seq<Node>, links: seq<Link>, c: Chosen, data: Data, folded: seq<seq<Token>>, all: seq<Shown>, pool: Pool)
    requires Drawn(selected, view, model, show, budget, nodes, links, c, data, folded, all, pool)
    requires data.budget == (if place == TopologyView then Some(Remaining(dynamicBudget)) else None)
    requires budget == if place == TopologyView then Remaining(dynamicBudget) else |selected.routes| + NODE_CAP + LINK_CAP
    ensures Faithful(selected, view, model, show, place, dynamicBudget)
  {
    hide Drawn;
  }

  lemma DataIsFrom(model: Model, nodes: seq<Node>, links: seq<Link>, data: Data)
    requires |nodes| <= DATA_NODES && (forall j, k :: 0 <= j < k < |nodes| ==> nodes[j].id != nodes[k].id)
    requires (forall n :: n in nodes ==> n in model.nodes) && forall id :: id in data.ids <==> exists k :: 0 <= k < |nodes| && nodes[k].id == id
    requires |nodes| < DATA_NODES ==> forall n :: n in model.nodes ==> n.id in data.ids
    requires data.links == LinkSet(links) && |links| <= DATA_LINKS
    requires forall l :: l in links ==> l in model.links && l.from in data.ids && l.to in data.ids
    requires |model.links| <= DATA_LINKS ==> forall l :: l in model.links && l.from in data.ids && l.to in data.ids ==> l in links
    ensures DataFrom(data, model)
  {
    var named := IDsOf(nodes);
    assert forall id :: id in named <==> id in data.ids;
    DistinctSize(named, data.ids);
    forall id | id in data.ids ensures exists k :: 0 <= k < |model.nodes| && model.nodes[k].id == id {
      var k :| 0 <= k < |nodes| && nodes[k].id == id;
      assert nodes[k] in model.nodes;
    }
  }

  lemma {:induction false} DistinctSize(named: seq<string>, ids: set<string>)
    requires Distinct(named) && forall id :: id in named <==> id in ids
    ensures |ids| == |named|
  {
    if named == [] {
      assert ids == {};
    } else {
      var front, last := named[..|named| - 1], named[|named| - 1];
      assert named == front + [last];
      DistinctSize(front, ids - {last});
    }
  }

  /** The nodes, links and routes that can be used. */
  method ReadModel(model: Model, budget: Option<nat>) returns (nodes: seq<Node>, links: seq<Link>, routes: seq<Route>, data: Data)
    ensures forall j, k :: 0 <= j < k < |nodes| ==> nodes[j].id != nodes[k].id
    ensures data.ids == ByID(nodes).Keys && data.links == LinkSet(links) && data.budget == budget && DataFrom(data, model)
    ensures forall l :: l in links ==> l.from in data.ids && l.to in data.ids
    ensures routes == UsableRoutes(Front(model.routes, DATA_ROUTES), data.ids) && forall r :: r in routes ==> RouteOf(r, data)
    ensures ReadFrom(model, nodes, links, routes, data)
  {
    var ids;
    nodes, ids := FilterNodes(model.nodes);
    links := FilterLinks(model.links, ids);
    routes := UsableRoutes(Front(model.routes, DATA_ROUTES), ids);
    ByIDHas(nodes);
    data := Data(ids, LinkSet(links), budget);
    assert ids == ByID(nodes).Keys;
    DataIsFrom(model, nodes, links, data);
  }

  /** The selection and its presentation, for one budget. */
  method PlanSelection(model: Model, place: Place, show: bool, dynamicBudget: nat)
    returns (selected: Topology, view: View)
    ensures Faithful(selected, view, model, show, place, dynamicBudget)
    ensures place == TopologyView ==> Elements(view) <= Remaining(dynamicBudget)
  {
    hide DataFrom, SelectedFrom, TopologyValid, Picked, Presented, ByID, UsableRoutes, Front, Rounds, Runs, Sorted, RouteOf, ReadFrom, WellChosen, Faithful;
    var limit: Option<nat> := if place == TopologyView then Some(if dynamicBudget < 3 then 0 else dynamicBudget - 3) else None;
    var nodes, links, routes, data, c;
    nodes, links, routes, data := ReadModel(model, limit);
    selected, c := Select(nodes, links, routes, data);
    var budget := if limit.Some? then limit.value else |selected.routes| + NODE_CAP + LINK_CAP;
    var folded, all, pool;
    view, folded, all, pool := PresentTopology(selected, show, budget);
    if place == TopologyView {
      RoutesFit(selected, c, data);
      PresentationFits(selected, show, budget, view, folded, all, pool);
    }
    DrawnIsFaithful(selected, view, model, show, budget, place, dynamicBudget, nodes, links, c, data, folded, all, pool);
  }

  /** What each view mounts. */
  ghost predicate MountedAs(options: Options, view: View, selected: Topology, located: set<string>, dynamicBudget: nat,
                            renderable: bool, items: seq<Item>)
  {
    match options.place
    case TopologyView => renderable && items == TopologyItems(view, dynamicBudget)
    case GeoView =>
      exists targets :: GeoShown(targets, MarkersOf(IDsOf(selected.nodes), located), selected.routes, dynamicBudget, renderable, items)
    case LabelView => renderable && LabelsMounted(options.labels, dynamicBudget, items)
  }

  /** The legend names the targets of the chosen routes, each once; it is there whole or the map is not. */
  ghost predicate GeoShown(targets: seq<nat>, markers: seq<string>, routes: seq<Route>, dynamicBudget: nat,
                           renderable: bool, items: seq<Item>)
  {
    && (forall t :: t in targets <==> t in Results(routes)) && (forall j, k :: 0 <= j < k < |targets| ==> targets[j] < targets[k])
    && renderable == (targets == [] || dynamicBudget >= 3 + |targets|)
    && if renderable then GeoMounted(LegendItems(targets, dynamicBudget), markers, dynamicBudget, items) else items == []
  }

  method MountPlace(options: Options, view: View, selected: Topology, located: set<string>, dynamicBudget: nat)
    returns (renderable: bool, items: seq<Item>)
    requires options.place == TopologyView ==> Elements(view) <= if dynamicBudget < 3 then 0 else dynamicBudget - 3
    ensures Total(items) <= dynamicBudget && (!renderable ==> items == [])
    ensures MountedAs(options, view, selected, located, dynamicBudget, renderable, items)
  {
    hide Total, GeoMounted, LabelsMounted, TopologyItems, Results, MarkersOf, Elements;
    renderable := true;
    match options.place
    case TopologyView => items := MountTopology(view, dynamicBudget);
    case GeoView =>
      var targets := SortedResults(selected.routes);
      var markers := Markers(IDsOf(selected.nodes), located);
      renderable, items := MountGeo(targets, markers, dynamicBudget);
      assert GeoShown(targets, markers, selected.routes, dynamicBudget, renderable, items);
    case LabelView => items := MountLabels(options.labels, dynamicBudget);
  }

  method Complete(renderable: bool, existing: nat, reserve: nat, dynamicBudget: nat, view: View, items: seq<Item>, chunkSize: nat,
                  selected: Topology)
    returns (plan: Plan)
    requires Total(items) <= dynamicBudget && 5 <= chunkSize <= CHUNK && existing <= DOCUMENT
    requires if renderable then existing + reserve + dynamicBudget <= DOCUMENT else items == []
    ensures Bounded(plan) && plan.renderable == renderable && plan.existing == existing && plan.reserve == reserve
    ensures plan.dynamicBudget == dynamicBudget && plan.view == view && plan.items == items && plan.selected == selected
    ensures plan.chunkSize == chunkSize
  {
    hide Flatten, ChunksWithin, ChunksFull;
    var chunks := SplitChunks(items, chunkSize);
    var estimated := if renderable then existing + reserve + Total(items) else existing;
    plan := Plan(renderable, existing, reserve, dynamicBudget, view, items, chunks, chunkSize, estimated, selected);
  }

  /** When the document has room for the view's own elements, the view is mounted; otherwise nothing is. */
  ghost predicate Mounts(plan: Plan, options: Options, model: Model) {
    if plan.existing + plan.reserve <= DOCUMENT then
      MountedAs(options, plan.view, plan.selected, model.located, plan.dynamicBudget, plan.renderable, plan.items)
    else !plan.renderable && plan.items == []
  }

  function Least2(a: int, b: int): int { if a < b then a else b }

  /** The elements that exist already are counted up to the limit; the view has what is available, and no more than the document has left,
      after its own elements. */
  ghost predicate Budgeted(plan: Plan, options: Options) {
    var left := DOCUMENT - plan.existing;
    var available := if options.available.None? then left else Least2(Clamp(options.available.value, 0, DOCUMENT), left);
    && plan.existing == Clamp(options.existing, 0, DOCUMENT) && plan.reserve == Reserve(options.place)
    && plan.dynamicBudget == if available < plan.reserve then 0 else available - plan.reserve
  }

  lemma TopologyMounts(plan: Plan, options: Options, model: Model)
    requires Mounts(plan, options, model) && options.place == TopologyView && plan.reserve == Reserve(options.place)
    ensures plan.renderable == (plan.existing + 180 <= DOCUMENT) && (plan.renderable ==> MountsAll(plan))
  {
  }

  lemma ReserveIs(plan: Plan, options: Options)
    requires Budgeted(plan, options)
    ensures plan.reserve == Reserve(options.place)
  {
  }

  lemma ClampWithin(value: int)
    ensures Clamp(value, 0, DOCUMENT) <= DOCUMENT
  {
  }

  lemma IsBudgeted(plan: Plan, options: Options, explicit: int)
    requires plan.existing == Clamp(options.existing, 0, DOCUMENT) && plan.reserve == Reserve(options.place)
    requires explicit == if options.available.None? then DOCUMENT - plan.existing else Clamp(options.available.value, 0, DOCUMENT)
    requires var available := if explicit < DOCUMENT - plan.existing then explicit else DOCUMENT - plan.existing;
             plan.dynamicBudget == if available < plan.reserve then 0 else available - plan.reserve
    ensures Budgeted(plan, options)
  {
  }

  lemma RemainingIs()
    ensures forall dynamicBudget: nat :: Remaining(dynamicBudget) == if dynamicBudget < 3 then 0 else dynamicBudget - 3
  {
  }

  lemma IsMounted(plan: Plan, options: Options, model: Model)
    requires plan.existing + plan.reserve <= DOCUMENT ==>
               MountedAs(options, plan.view, plan.selected, model.located, plan.dynamicBudget, plan.renderable, plan.items)
    requires plan.existing + plan.reserve > DOCUMENT ==> !plan.renderable && plan.items == []
    ensures Mounts(plan, options, model)
  {
    hide MountedAs;
  }

  method BuildPlan(model: Model, options: Options, chunkSize: nat) returns (plan: Plan)
    requires 5 <= chunkSize <= CHUNK
    ensures Bounded(plan) && Budgeted(plan, options) && plan.chunkSize == chunkSize
    ensures Mounts(plan, options, model)
    ensures Faithful(plan.selected, plan.view, model, options.show, options.place, plan.dynamicBudget)
  {
    assert Total([]) == 0;
    hide Faithful, Total, Bounded, Budgeted, Elements, Mounts, MountedAs, Clamp, Reserve, Remaining;
    RemainingIs();
    ClampWithin(options.existing);
    var existing := Clamp(options.existing, 0, DOCUMENT);
    var documentRemaining := DOCUMENT - existing;
    var explicit := if options.available.None? then documentRemaining else Clamp(options.available.value, 0, DOCUMENT);
    var available := if explicit < documentRemaining then explicit else documentRemaining;
    var reserve := Reserve(options.place);
    var renderable := documentRemaining >= reserve;
    var dynamicBudget := if available < reserve then 0 else available - reserve;
    var selected, view := PlanSelection(model, options.place, options.show, dynamicBudget);
    var items: seq<Item> := [];
    if renderable {
      renderable, items := MountPlace(options, view, selected, model.located, dynamicBudget);
    }
    plan := Complete(renderable, existing, reserve, dynamicBudget, view, items, chunkSize, selected);
    IsBudgeted(plan, options, explicit);
    IsMounted(plan, options, model);
  }

  method PlanTopologyDOM(model: Model, options: Options) returns (r: Option<Plan>)
    ensures r.None? <==> options.chunkLimit.Some? && options.chunkLimit.value < 5
    ensures r.Some? && options.place == TopologyView ==> r.value.renderable == (r.value.existing + 180 <= DOCUMENT)
    ensures r.Some? && options.place == TopologyView && r.value.renderable ==> MountsAll(r.value)
    ensures r.Some? ==> Mounts(r.value, options, model)
    ensures r.Some? ==> Bounded(r.value) && Budgeted(r.value, options)
    ensures r.Some? ==> r.value.chunkSize == if options.chunkLimit.None? || options.chunkLimit.value > CHUNK then CHUNK else options.chunkLimit.value
    ensures r.Some? ==> Faithful(r.value.selected, r.value.view, model, options.show, options.place, r.value.dynamicBudget)
  {
    hide Faithful, Bounded, MountsAll, Mounts, Budgeted;
    if options.chunkLimit.Some? && options.chunkLimit.value < 5 {
      return None;
    }
    var plan := BuildPlan(model, options, if options.chunkLimit.None? || options.chunkLimit.value > CHUNK then CHUNK else options.chunkLimit.value);
    if options.place == TopologyView {
      ReserveIs(plan, options);
      TopologyMounts(plan, options, model);
    }
    r := Some(plan);
  }
}
