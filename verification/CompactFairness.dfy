/** What a whole selection promises its routes and results (backend/diagnostic/compact_topology.go:298-384): attempts of one
    result take turns, results take turns, nodes are selected in order of arrival, and a route is cut only for want of room. */
module CompactFairness {
  import opened CompactSelection
  import opened Arrivals

  // ----- Attempts of one result take turns -----

  /** Edges of a route that were tried: the accepted ones, and the one that blocked it. */
  function Tries(st: State, r: nat): nat
    requires r < |st.accepted| == |st.blocked|
  {
    st.accepted[r] + if st.blocked[r] then 1 else 0
  }

  ghost predicate Covered(paths: seq<Path>, group: seq<nat>, st: State) {
    |st.accepted| == |st.blocked| == |paths| && forall i :: 0 <= i < |group| ==> group[i] < |paths|
  }

  /** While a route can go on, no later route of its result is ahead of it, and no earlier one by more than one try. */
  ghost predicate FairRoutes(paths: seq<Path>, group: seq<nat>, st: State)
    requires Covered(paths, group, st)
  {
    forall i, j :: 0 <= i < j < |group| ==>
      && (Pending(paths, st, group[i]) ==> Tries(st, group[j]) <= Tries(st, group[i]))
      && (Pending(paths, st, group[j]) ==> Tries(st, group[i]) <= Tries(st, group[j]) + 1)
  }

  /** In lap `lap` the routes before the cursor have had their turn. */
  ghost predicate Lap(paths: seq<Path>, group: seq<nat>, st: State, cursor: nat, lap: nat)
    requires Covered(paths, group, st)
  {
    && (cursor == 0 || cursor < |group|)
    && forall i :: 0 <= i < |group| ==>
         var turns := if i < cursor then lap + 1 else lap;
         Tries(st, group[i]) <= turns && (Pending(paths, st, group[i]) ==> Tries(st, group[i]) == turns)
  }

  ghost predicate HasLap(paths: seq<Path>, group: seq<nat>, st: State, cursor: nat)
    requires Covered(paths, group, st)
  {
    exists lap: nat :: Lap(paths, group, st, cursor, lap)
  }

  lemma LapFair(paths: seq<Path>, group: seq<nat>, st: State, cursor: nat)
    requires Covered(paths, group, st) && HasLap(paths, group, st, cursor)
    ensures FairRoutes(paths, group, st)
  {
    var lap: nat :| Lap(paths, group, st, cursor, lap);
  }

  /** How many steps a circular scan from the cursor takes to reach position i. */
  function Steps(cursor: nat, n: nat, i: nat): nat
    requires cursor < n && i < n
  {
    if i >= cursor then i - cursor else i + n - cursor
  }

  lemma {:induction false} ScanIsFirst(paths: seq<Path>, group: seq<nat>, st: State, cursor: nat, scanned: nat)
    requires Covered(paths, group, st) && cursor < |group| && scanned <= |group|
    ensures var p := Scan(paths, group, st, cursor, scanned);
            p < |group| ==>
              && Pending(paths, st, group[p]) && scanned <= Steps(cursor, |group|, p)
              && forall i :: 0 <= i < |group| && scanned <= Steps(cursor, |group|, i) < Steps(cursor, |group|, p) ==> !Pending(paths, st, group[i])
    decreases |group| - scanned
  {
    if scanned < |group| {
      var n := |group|;
      var position := (cursor + scanned) % n;
      WrapOnce(n, cursor + scanned);
      assert Steps(cursor, n, position) == scanned;
      if !Pending(paths, st, group[position]) {
        ScanIsFirst(paths, group, st, cursor, scanned + 1);
      }
    }
  }

  lemma WrapOnce(n: nat, x: nat)
    requires x < 2 * n
    ensures x % n == if x < n then x else x - n
  {
    if x >= n {
      ModOf(n, 1, x - n);
    }
  }

  /** From st to t one more edge of route r was tried, and no other route changed. */
  ghost predicate Tried(paths: seq<Path>, st: State, t: State, r: nat) {
    && |st.accepted| == |st.blocked| == |t.accepted| == |t.blocked| == |paths| && r < |paths|
    && Tries(t, r) == Tries(st, r) + 1
    && forall q :: 0 <= q < |paths| && q != r ==> Tries(t, q) == Tries(st, q) && Pending(paths, t, q) == Pending(paths, st, q)
  }

  lemma AttemptAccepts(paths: seq<Path>, lim: Limits, st: State, r: nat)
    requires r < |paths| == |st.accepted| == |st.blocked| && Pending(paths, st, r)
    requires CompactSelection.Fits(lim, st, paths[r].EdgeAt(st.accepted[r]))
    ensures var e, t := paths[r].EdgeAt(st.accepted[r]), Attempt(paths, lim, st, r);
            && t.accepted == st.accepted[r := st.accepted[r] + 1] && t.blocked == st.blocked && t.trace == st.trace + [r]
            && t.order == AddKey(AddKey(st.order, e.from), e.to) && t.links == (if e.from != e.to then st.links + {e} else st.links)
            && t.cursors == st.cursors && t.nodeLimited == st.nodeLimited && t.linkLimited == st.linkLimited
  {
    hide AddKey, NodeCost, LinkCost;
  }

  lemma AttemptBlocks(paths: seq<Path>, lim: Limits, st: State, r: nat)
    requires r < |paths| == |st.accepted| == |st.blocked| && Pending(paths, st, r)
    requires !CompactSelection.Fits(lim, st, paths[r].EdgeAt(st.accepted[r]))
    ensures var byNodes := |st.order| + NodeCost(st.order, paths[r].EdgeAt(st.accepted[r])) > lim.maxNodes;
            Attempt(paths, lim, st, r) ==
              st.(blocked := st.blocked[r := true], nodeLimited := st.nodeLimited || byNodes, linkLimited := st.linkLimited || !byNodes)
  {
    hide AddKey, NodeCost, LinkCost;
  }

  lemma AttemptTries(paths: seq<Path>, lim: Limits, st: State, cursors: seq<nat>, r: nat)
    requires r < |paths| && |st.accepted| == |st.blocked| == |paths| && Pending(paths, st, r)
    ensures var t := Attempt(paths, lim, st.(cursors := cursors), r); Tried(paths, st, t, r) && t.cursors == cursors
  {
    var moved := st.(cursors := cursors);
    if CompactSelection.Fits(lim, moved, paths[r].EdgeAt(st.accepted[r])) {
      AttemptAccepts(paths, lim, moved, r);
    } else {
      AttemptBlocks(paths, lim, moved, r);
    }
    hide Attempt, AddKey, NodeCost, LinkCost, CompactSelection.Fits;
  }

  /** A turn is a try of the first route, from the cursor on, that can go on. */
  lemma TurnTries(paths: seq<Path>, groups: seq<seq<nat>>, lim: Limits, st: State, g: nat)
    requires Groups(paths, groups) && Shape(paths, groups, st) && g < |groups| && !lim.Reached(|st.trace|)
    ensures var p := Scan(paths, groups[g], st, st.cursors[g], 0);
            var (t, active) := Turn(paths, groups, lim, st, g);
            && active == (p < |groups[g]|)
            && (!active ==> t == st)
            && (active ==> t.cursors == st.cursors[g := (p + 1) % |groups[g]|] && Tried(paths, st, t, groups[g][p]))
  {
    hide Attempt, Scan, Tried;
    var p := Scan(paths, groups[g], st, st.cursors[g], 0);
    if p < |groups[g]| {
      AttemptTries(paths, lim, st, st.cursors[g := (p + 1) % |groups[g]|], groups[g][p]);
    }
  }

  lemma LapGoesOn(paths: seq<Path>, groups: seq<seq<nat>>, lim: Limits, st: State, g: nat)
    requires Groups(paths, groups) && Shape(paths, groups, st) && g < |groups| && !lim.Reached(|st.trace|)
    requires Distinct(groups[g]) && HasLap(paths, groups[g], st, st.cursors[g])
    ensures var t := Turn(paths, groups, lim, st, g).0; HasLap(paths, groups[g], t, t.cursors[g])
  {
    hide Attempt, Scan, Turn;
    var group, cursor, t := groups[g], st.cursors[g], Turn(paths, groups, lim, st, g).0;
    var p := Scan(paths, group, st, cursor, 0);
    TurnTries(paths, groups, lim, st, g);
    var lap: nat :| Lap(paths, group, st, cursor, lap);
    if p < |group| {
      ScanIsFirst(paths, group, st, cursor, 0);
      WrapOnce(|group|, p + 1);
      NextLap(paths, group, st, t, cursor, p, lap);
    }
  }

  lemma NextLap(paths: seq<Path>, group: seq<nat>, st: State, t: State, cursor: nat, p: nat, lap: nat)
    requires Covered(paths, group, st) && Covered(paths, group, t) && Distinct(group) && cursor < |group| && p < |group|
    requires Lap(paths, group, st, cursor, lap) && Pending(paths, st, group[p])
    requires forall i :: 0 <= i < |group| && Steps(cursor, |group|, i) < Steps(cursor, |group|, p) ==> !Pending(paths, st, group[i])
    requires Tries(t, group[p]) == Tries(st, group[p]) + 1
    requires forall i :: 0 <= i < |group| && i != p ==>
               Tries(t, group[i]) == Tries(st, group[i]) && Pending(paths, t, group[i]) == Pending(paths, st, group[i])
    ensures HasLap(paths, group, t, if p + 1 == |group| then 0 else p + 1)
  {
    var now := if p >= cursor then lap else lap + 1;
    if p + 1 == |group| {
      assert Lap(paths, group, t, 0, now + 1);
    } else {
      assert Lap(paths, group, t, p + 1, now);
    }
  }

  // ----- Results take turns -----

  function Turns(group: seq<nat>, st: State): nat
    requires |st.accepted| == |st.blocked| && forall i :: 0 <= i < |group| ==> group[i] < |st.accepted|
  {
    if group == [] then 0 else Turns(group[..|group| - 1], st) + Tries(st, group[|group| - 1])
  }

  ghost predicate HasPending(paths: seq<Path>, group: seq<nat>, st: State)
    requires Covered(paths, group, st)
  {
    exists i :: 0 <= i < |group| && Pending(paths, st, group[i])
  }

  /** While a result can go on, no later result has had more turns, and no earlier one more than one more. */
  ghost predicate FairResults(paths: seq<Path>, groups: seq<seq<nat>>, st: State)
    requires Groups(paths, groups) && Shape(paths, groups, st)
  {
    forall g, h :: 0 <= g < |groups| && 0 <= h < |groups| && HasPending(paths, groups[g], st) ==>
      Turns(groups[h], st) <= Turns(groups[g], st) + 1 && (g <= h ==> Turns(groups[h], st) <= Turns(groups[g], st))
  }

  ghost predicate Fair(paths: seq<Path>, groups: seq<seq<nat>>, st: State) {
    && Groups(paths, groups) && Shape(paths, groups, st) && FairResults(paths, groups, st)
    && forall g :: 0 <= g < |groups| ==> FairRoutes(paths, groups[g], st)
  }

  /** In round `round` the first n results have had their turn. */
  ghost predicate Level(paths: seq<Path>, groups: seq<seq<nat>>, st: State, round: nat, n: nat)
    requires Groups(paths, groups) && Shape(paths, groups, st)
  {
    forall g :: 0 <= g < |groups| ==>
      var turns := if g < n then round + 1 else round;
      Turns(groups[g], st) <= turns && (HasPending(paths, groups[g], st) ==> Turns(groups[g], st) == turns)
  }

  ghost predicate Steady(paths: seq<Path>, groups: seq<seq<nat>>, st: State, round: nat, n: nat) {
    && Groups(paths, groups) && Shape(paths, groups, st) && Level(paths, groups, st, round, n)
    && (forall g :: 0 <= g < |groups| ==> Distinct(groups[g]))
    && forall g :: 0 <= g < |groups| ==> HasLap(paths, groups[g], st, st.cursors[g])
  }

  lemma {:induction false} TurnsSame(group: seq<nat>, st: State, t: State)
    requires |st.accepted| == |st.blocked| == |t.accepted| == |t.blocked|
    requires forall i :: 0 <= i < |group| ==> group[i] < |st.accepted| && Tries(t, group[i]) == Tries(st, group[i])
    ensures Turns(group, t) == Turns(group, st)
  {
    if group != [] {
      TurnsSame(group[..|group| - 1], st, t);
    }
  }

  lemma {:induction false} TurnsOneMore(group: seq<nat>, st: State, t: State, p: nat)
    requires |st.accepted| == |st.blocked| == |t.accepted| == |t.blocked| && Distinct(group) && p < |group|
    requires forall i :: 0 <= i < |group| ==> group[i] < |st.accepted|
    requires forall i :: 0 <= i < |group| ==> Tries(t, group[i]) == Tries(st, group[i]) + if i == p then 1 else 0
    ensures Turns(group, t) == Turns(group, st) + 1
  {
    if p == |group| - 1 {
      TurnsSame(group[..p], st, t);
    } else {
      TurnsOneMore(group[..|group| - 1], st, t, p);
    }
  }

  lemma NothingPending(paths: seq<Path>, groups: seq<seq<nat>>, st: State, g: nat)
    requires Groups(paths, groups) && Shape(paths, groups, st) && g < |groups|
    requires Scan(paths, groups[g], st, st.cursors[g], 0) == |groups[g]|
    ensures !HasPending(paths, groups[g], st)
  {
    forall i | 0 <= i < |groups[g]| ensures !Pending(paths, st, groups[g][i]) {
      var k := Rotation(st.cursors[g], |groups[g]|, i);
      ScanExhausted(paths, groups[g], st, st.cursors[g], 0, k);
    }
  }

  lemma OthersSame(paths: seq<Path>, groups: seq<seq<nat>>, lim: Limits, st: State, g: nat, h: nat)
    requires Groups(paths, groups) && Shape(paths, groups, st) && g < |groups| && h < |groups| && g != h && !lim.Reached(|st.trace|)
    ensures var t := Turn(paths, groups, lim, st, g).0;
            && Turns(groups[h], t) == Turns(groups[h], st) && t.cursors[h] == st.cursors[h]
            && (HasPending(paths, groups[h], t) <==> HasPending(paths, groups[h], st))
            && (HasLap(paths, groups[h], st, st.cursors[h]) ==> HasLap(paths, groups[h], t, t.cursors[h]))
  {
    var t := Turn(paths, groups, lim, st, g).0;
    TurnTries(paths, groups, lim, st, g);
    forall i | 0 <= i < |groups[h]|
      ensures Tries(t, groups[h][i]) == Tries(st, groups[h][i]) && Pending(paths, t, groups[h][i]) == Pending(paths, st, groups[h][i])
    {
    }
    TurnsSame(groups[h], st, t);
    if HasLap(paths, groups[h], st, st.cursors[h]) {
      var lap: nat :| Lap(paths, groups[h], st, st.cursors[h], lap);
      assert Lap(paths, groups[h], t, t.cursors[h], lap);
    }
  }

  lemma TurnSteady(paths: seq<Path>, groups: seq<seq<nat>>, lim: Limits, st: State, round: nat, g: nat)
    requires Steady(paths, groups, st, round, g) && g < |groups| && !lim.Reached(|st.trace|)
    ensures Steady(paths, groups, Turn(paths, groups, lim, st, g).0, round, g + 1)
  {
    var t := Turn(paths, groups, lim, st, g).0;
    var p := Scan(paths, groups[g], st, st.cursors[g], 0);
    LapGoesOn(paths, groups, lim, st, g);
    TurnTries(paths, groups, lim, st, g);
    if p < |groups[g]| {
      TurnsOneMore(groups[g], st, t, p);
      assert HasPending(paths, groups[g], st);
    } else {
      NothingPending(paths, groups, st, g);
    }
    forall h | 0 <= h < |groups|
      ensures Turns(groups[h], t) <= (if h < g + 1 then round + 1 else round)
      ensures HasPending(paths, groups[h], t) ==> Turns(groups[h], t) == if h < g + 1 then round + 1 else round
      ensures HasLap(paths, groups[h], t, t.cursors[h])
    {
      if h != g {
        OthersSame(paths, groups, lim, st, g, h);
      }
    }
  }

  lemma SteadyFair(paths: seq<Path>, groups: seq<seq<nat>>, st: State, round: nat, n: nat)
    requires Steady(paths, groups, st, round, n)
    ensures Fair(paths, groups, st)
  {
    forall g | 0 <= g < |groups| ensures FairRoutes(paths, groups[g], st) {
      LapFair(paths, groups[g], st, st.cursors[g]);
    }
  }

  lemma CursorsDoNotMatter(paths: seq<Path>, groups: seq<seq<nat>>, st: State, t: State)
    requires Fair(paths, groups, st) && Shape(paths, groups, t) && t == st.(cursors := t.cursors)
    ensures Fair(paths, groups, t)
  {
    forall g | 0 <= g < |groups|
      ensures Turns(groups[g], t) == Turns(groups[g], st) && (HasPending(paths, groups[g], t) <==> HasPending(paths, groups[g], st))
    {
      TurnsSame(groups[g], st, t);
    }
    forall g | 0 <= g < |groups| ensures FairRoutes(paths, groups[g], t) {
      assert FairRoutes(paths, groups[g], st);
    }
  }

  lemma SteadyShape(paths: seq<Path>, groups: seq<seq<nat>>, st: State, round: nat, n: nat)
    requires Steady(paths, groups, st, round, n)
    ensures Groups(paths, groups) && Shape(paths, groups, st)
  {
  }

  lemma RoundIsOver(paths: seq<Path>, groups: seq<seq<nat>>, lim: Limits, st: State)
    requires Groups(paths, groups) && Shape(paths, groups, st)
    ensures Round(paths, groups, lim, st, |groups|).0 == st
  {
  }

  lemma {:induction false} RoundFair(paths: seq<Path>, groups: seq<seq<nat>>, lim: Limits, st: State, round: nat, g: nat)
    requires Steady(paths, groups, st, round, g) && g <= |groups| && !lim.Reached(|st.trace|)
    ensures var t := Round(paths, groups, lim, st, g).0;
            Fair(paths, groups, t) && (!lim.Reached(|t.trace|) ==> Steady(paths, groups, t, round, |groups|))
    decreases |groups| - g
  {
    hide Fair, Level, Turn, Round, Steady;
    SteadyShape(paths, groups, st, round, g);
    if g == |groups| {
      RoundIsOver(paths, groups, lim, st);
      SteadyFair(paths, groups, st, round, g);
    } else {
      TurnSteady(paths, groups, lim, st, round, g);
      var st1 := RoundUnfolds(paths, groups, lim, st, g);
      if lim.Reached(|st1.trace|) {
        SteadyFair(paths, groups, st1, round, g + 1);
        RoundExtends(paths, groups, lim, st1, g + 1);
        CursorsDoNotMatter(paths, groups, st1, Round(paths, groups, lim, st1, g + 1).0);
      } else {
        RoundFair(paths, groups, lim, st1, round, g + 1);
      }
    }
  }

  lemma {:induction false} RunFair(paths: seq<Path>, groups: seq<seq<nat>>, lim: Limits, st: State, round: nat)
    requires Steady(paths, groups, st, round, 0)
    ensures Fair(paths, groups, Run(paths, groups, lim, st))
    decreases Measure(paths, st)
  {
    var (t, active) := Round(paths, groups, lim, st, 0);
    if lim.Reached(|st.trace|) {
      SteadyFair(paths, groups, st, round, 0);
      RoundExtends(paths, groups, lim, st, 0);
      CursorsDoNotMatter(paths, groups, st, t);
    } else {
      RoundFair(paths, groups, lim, st, round, 0);
      if active && !lim.Reached(|t.trace|) {
        assert Steady(paths, groups, t, round + 1, 0);
        RunFair(paths, groups, lim, t, round + 1);
      }
    }
  }

  lemma {:induction false} GroupInOrder(paths: seq<Path>, g: nat, n: nat)
    requires n <= |paths|
    ensures Distinct(GroupOf(paths, g, n))
    ensures forall i, j :: 0 <= i < j < |GroupOf(paths, g, n)| ==> GroupOf(paths, g, n)[i] < GroupOf(paths, g, n)[j]
  {
    if n > 0 {
      GroupInOrder(paths, g, n - 1);
    }
  }

  lemma {:induction false} NoTurnsYet(group: seq<nat>, st: State)
    requires |st.accepted| == |st.blocked| && forall i :: 0 <= i < |group| ==> group[i] < |st.accepted|
    requires forall r :: 0 <= r < |st.accepted| ==> Tries(st, r) == 0
    ensures Turns(group, st) == 0
  {
    if group != [] {
      NoTurnsYet(group[..|group| - 1], st);
    }
  }

  /** Every selection is fair to the attempts of each result and to the results; attempts go in report order. */
  lemma SelectionIsFair(paths: seq<Path>, results: nat, lim: Limits)
    requires forall r :: 0 <= r < |paths| ==> paths[r].resultIndex < results
    ensures Fair(paths, GroupsOf(paths, results), Selected(paths, results, lim))
    ensures forall g, i, j :: 0 <= g < results && 0 <= i < j < |GroupsOf(paths, results)[g]| ==>
              GroupsOf(paths, results)[g][i] < GroupsOf(paths, results)[g][j]
  {
    var groups, st := GroupsOf(paths, results), Initial(paths, results);
    forall g | 0 <= g < results
      ensures Distinct(groups[g]) && Turns(groups[g], st) == 0 && HasLap(paths, groups[g], st, st.cursors[g])
      ensures forall i, j :: 0 <= i < j < |groups[g]| ==> groups[g][i] < groups[g][j]
    {
      GroupInOrder(paths, g, |paths|);
      NoTurnsYet(groups[g], st);
      assert Lap(paths, groups[g], st, 0, 0);
    }
    RunFair(paths, groups, lim, st, 0);
  }

  // ----- The selection retold from its accepted edges -----

  /** The accepted edges in the order in which they were accepted: the n-th time a route occurs is its n-th edge. */
  ghost function EdgesAlong(paths: seq<Path>, trace: seq<nat>): seq<Edge> {
    if trace == [] then []
    else
      var before, r := trace[..|trace| - 1], trace[|trace| - 1];
      var n := multiset(before)[r];
      EdgesAlong(paths, before) + if r < |paths| && n < paths[r].Edges() then [paths[r].EdgeAt(n)] else []
  }

  ghost function EndsOf(edges: seq<Edge>): seq<NodeKey> {
    if edges == [] then []
    else EndsOf(edges[..|edges| - 1]) + [edges[|edges| - 1].from, edges[|edges| - 1].to]
  }

  ghost function LinksOf(edges: seq<Edge>): set<Edge> { set e | e in edges && e.from != e.to }

  /** When the first n edges had been accepted, edge e did not fit: the node budget is looked at first. */
  ghost predicate CutAt(paths: seq<Path>, lim: Limits, seeds: seq<NodeKey>, trace: seq<nat>, e: Edge, n: nat, byNodes: bool) {
    && n <= |trace|
    && var edges := EdgesAlong(paths, trace[..n]);
       var nodes, links := Elements(seeds + EndsOf(edges)) + {e.from, e.to}, LinksOf(edges) + LinksOf([e]);
       if byNodes then |nodes| > lim.maxNodes else |nodes| <= lim.maxNodes && |links| > lim.maxLinks
  }

  ghost predicate CutRoute(paths: seq<Path>, lim: Limits, seeds: seq<NodeKey>, st: State, r: nat, byNodes: bool) {
    && r < |paths| == |st.accepted| == |st.blocked| && st.blocked[r] && st.accepted[r] < paths[r].Edges()
    && exists n: nat :: CutAt(paths, lim, seeds, st.trace, paths[r].EdgeAt(st.accepted[r]), n, byNodes)
  }

  /** The selection is its accepted edges, in order of arrival; a route is blocked only by a budget, and that budget's flag
      is raised for nothing else. */
  ghost predicate Retold(paths: seq<Path>, lim: Limits, seeds: seq<NodeKey>, st: State) {
    && InOrderOfArrival(st.order, seeds + EndsOf(EdgesAlong(paths, st.trace)))
    && st.links == LinksOf(EdgesAlong(paths, st.trace))
    && |st.blocked| == |paths|
    && (forall r :: 0 <= r < |paths| && st.blocked[r] ==>
          (st.nodeLimited && CutRoute(paths, lim, seeds, st, r, true)) || (st.linkLimited && CutRoute(paths, lim, seeds, st, r, false)))
    && (st.nodeLimited ==> exists r: nat :: CutRoute(paths, lim, seeds, st, r, true))
    && (st.linkLimited ==> exists r: nat :: CutRoute(paths, lim, seeds, st, r, false))
  }

  lemma CutStays(paths: seq<Path>, lim: Limits, seeds: seq<NodeKey>, st: State, t: State, r: nat, byNodes: bool)
    requires CutRoute(paths, lim, seeds, st, r, byNodes) && st.trace <= t.trace
    requires |t.accepted| == |t.blocked| == |paths| && t.blocked[r] && t.accepted[r] == st.accepted[r]
    ensures CutRoute(paths, lim, seeds, t, r, byNodes)
  {
    var e := paths[r].EdgeAt(st.accepted[r]);
    var n: nat :| CutAt(paths, lim, seeds, st.trace, e, n, byNodes);
    CutAtStays(paths, lim, seeds, st.trace, t.trace, e, n, byNodes);
    hide CutAt;
  }

  lemma CutAtStays(paths: seq<Path>, lim: Limits, seeds: seq<NodeKey>, trace: seq<nat>, more: seq<nat>, e: Edge, n: nat, byNodes: bool)
    requires CutAt(paths, lim, seeds, trace, e, n, byNodes) && trace <= more
    ensures CutAt(paths, lim, seeds, more, e, n, byNodes)
  {
    hide EdgesAlong, EndsOf, LinksOf;
    assert more[..n] == trace[..n];
  }

  lemma CutsStay(paths: seq<Path>, lim: Limits, seeds: seq<NodeKey>, st: State, t: State, r: nat)
    requires Retold(paths, lim, seeds, st) && st.trace <= t.trace && r < |paths| == |st.accepted| && !st.blocked[r]
    requires t.blocked == st.blocked && |t.accepted| == |paths|
    requires forall q :: 0 <= q < |paths| && q != r ==> t.accepted[q] == st.accepted[q]
    requires t.nodeLimited == st.nodeLimited && t.linkLimited == st.linkLimited
    ensures forall q :: 0 <= q < |paths| && t.blocked[q] ==>
              (t.nodeLimited && CutRoute(paths, lim, seeds, t, q, true)) || (t.linkLimited && CutRoute(paths, lim, seeds, t, q, false))
    ensures t.nodeLimited ==> exists q: nat :: CutRoute(paths, lim, seeds, t, q, true)
    ensures t.linkLimited ==> exists q: nat :: CutRoute(paths, lim, seeds, t, q, false)
  {
    forall q: nat, byNodes | CutRoute(paths, lim, seeds, st, q, byNodes) ensures CutRoute(paths, lim, seeds, t, q, byNodes) {
      CutStays(paths, lim, seeds, st, t, q, byNodes);
    }
  }

  lemma SizeWithEnds(order: seq<NodeKey>, e: Edge)
    requires Distinct(order)
    ensures |Elements(order) + {e.from, e.to}| == |order| + NodeCost(order, e)
  {
    DistinctSize(order);
    var s := Elements(order);
    var first := s + {e.from};
    assert |first| == |s| + if e.from in order then 0 else 1 by {
      if e.from in order { assert first == s; }
    }
    assert s + {e.from, e.to} == first + {e.to};
    if e.to in first { assert first + {e.to} == first; }
  }

  lemma SizeWithLink(links: set<Edge>, e: Edge)
    ensures |links + LinksOf([e])| == |links| + LinkCost(links, e)
  {
    if e.from != e.to {
      assert LinksOf([e]) == {e};
      if e in links { assert links + {e} == links; }
    } else {
      assert LinksOf([e]) == {};
      assert links + {} == links;
    }
  }

  lemma CutNow(paths: seq<Path>, lim: Limits, seeds: seq<NodeKey>, st: State, e: Edge, byNodes: bool)
    requires InOrderOfArrival(st.order, seeds + EndsOf(EdgesAlong(paths, st.trace))) && st.links == LinksOf(EdgesAlong(paths, st.trace))
    requires !CompactSelection.Fits(lim, st, e) && byNodes == (|st.order| + NodeCost(st.order, e) > lim.maxNodes)
    ensures CutAt(paths, lim, seeds, st.trace, e, |st.trace|, byNodes)
  {
    SizeWithEnds(st.order, e);
    SizeWithLink(st.links, e);
    hide EdgesAlong, EndsOf, LinksOf, NodeCost, LinkCost;
    assert st.trace[..|st.trace|] == st.trace;
    assert Elements(seeds + EndsOf(EdgesAlong(paths, st.trace))) == Elements(st.order);
  }

  lemma AttemptCuts(paths: seq<Path>, lim: Limits, seeds: seq<NodeKey>, st: State, r: nat)
    requires Retold(paths, lim, seeds, st) && r < |paths| == |st.accepted| && Pending(paths, st, r)
    requires !CompactSelection.Fits(lim, st, paths[r].EdgeAt(st.accepted[r]))
    ensures Retold(paths, lim, seeds, Attempt(paths, lim, st, r))
  {
    hide Attempt, CutAt, EdgesAlong, EndsOf, LinksOf, InOrderOfArrival, NodeCost, LinkCost, AddKey, CompactSelection.Fits;
    var e, t := paths[r].EdgeAt(st.accepted[r]), Attempt(paths, lim, st, r);
    var byNodes := |st.order| + NodeCost(st.order, e) > lim.maxNodes;
    CutNow(paths, lim, seeds, st, e, byNodes);
    AttemptBlocks(paths, lim, st, r);
    assert CutRoute(paths, lim, seeds, t, r, byNodes);
    forall q: nat, other | CutRoute(paths, lim, seeds, st, q, other) ensures CutRoute(paths, lim, seeds, t, q, other) {
      CutStays(paths, lim, seeds, st, t, q, other);
    }
    hide CutRoute;
  }

  lemma EdgesStep(paths: seq<Path>, trace: seq<nat>, r: nat)
    requires r < |paths| && multiset(trace)[r] < paths[r].Edges()
    ensures EdgesAlong(paths, trace + [r]) == EdgesAlong(paths, trace) + [paths[r].EdgeAt(multiset(trace)[r])]
  {
    assert (trace + [r])[..|trace|] == trace;
  }

  lemma EndsStep(edges: seq<Edge>, e: Edge)
    ensures EndsOf(edges + [e]) == EndsOf(edges) + [e.from] + [e.to]
    ensures LinksOf(edges + [e]) == if e.from != e.to then LinksOf(edges) + {e} else LinksOf(edges)
  {
    assert (edges + [e])[..|edges|] == edges;
  }

  lemma OneMoreEdge(paths: seq<Path>, seeds: seq<NodeKey>, st: State, r: nat)
    requires Counted(paths, st) && r < |paths| == |st.blocked| && Pending(paths, st, r)
    requires InOrderOfArrival(st.order, seeds + EndsOf(EdgesAlong(paths, st.trace))) && st.links == LinksOf(EdgesAlong(paths, st.trace))
    ensures var e := paths[r].EdgeAt(st.accepted[r]);
            && InOrderOfArrival(AddKey(AddKey(st.order, e.from), e.to), seeds + EndsOf(EdgesAlong(paths, st.trace + [r])))
            && (if e.from != e.to then st.links + {e} else st.links) == LinksOf(EdgesAlong(paths, st.trace + [r]))
  {
    hide EdgesAlong, EndsOf, LinksOf, InOrderOfArrival;
    var e, edges := paths[r].EdgeAt(st.accepted[r]), EdgesAlong(paths, st.trace);
    assert multiset(st.trace)[r] == st.accepted[r];
    hide Counted;
    EdgesStep(paths, st.trace, r);
    EndsStep(edges, e);
    OneMoreArrival(st.order, seeds + EndsOf(edges), e.from);
    OneMoreArrival(AddKey(st.order, e.from), seeds + EndsOf(edges) + [e.from], e.to);
    assert seeds + EndsOf(edges) + [e.from] + [e.to] == seeds + EndsOf(edges + [e]);
  }

  lemma AttemptArrives(paths: seq<Path>, lim: Limits, seeds: seq<NodeKey>, st: State, r: nat)
    requires Retold(paths, lim, seeds, st) && Counted(paths, st) && r < |paths| && Pending(paths, st, r)
    requires CompactSelection.Fits(lim, st, paths[r].EdgeAt(st.accepted[r]))
    ensures Retold(paths, lim, seeds, Attempt(paths, lim, st, r))
  {
    hide Attempt, EdgesAlong, EndsOf, LinksOf, InOrderOfArrival, AddKey, CutRoute, CompactSelection.Fits;
    assert |st.accepted| == |paths|;
    OneMoreEdge(paths, seeds, st, r);
    AttemptAccepts(paths, lim, st, r);
    hide Counted;
    CutsStay(paths, lim, seeds, st, Attempt(paths, lim, st, r), r);
  }

  lemma TurnRetold(paths: seq<Path>, groups: seq<seq<nat>>, lim: Limits, seeds: seq<NodeKey>, st: State, g: nat)
    requires Groups(paths, groups) && Shape(paths, groups, st) && g < |groups| && Counted(paths, st) && Retold(paths, lim, seeds, st)
    ensures Retold(paths, lim, seeds, Turn(paths, groups, lim, st, g).0)
  {
    hide Scan, Attempt;
    var p := Scan(paths, groups[g], st, st.cursors[g], 0);
    if p < |groups[g]| {
      var moved := st.(cursors := st.cursors[g := (p + 1) % |groups[g]|]);
      CursorsRetold(paths, lim, seeds, st, moved);
      if !lim.Reached(|st.trace|) {
        var r := groups[g][p];
        if CompactSelection.Fits(lim, moved, paths[r].EdgeAt(moved.accepted[r])) {
          AttemptArrives(paths, lim, seeds, moved, r);
        } else {
          AttemptCuts(paths, lim, seeds, moved, r);
        }
      }
    }
  }

  lemma CursorsRetold(paths: seq<Path>, lim: Limits, seeds: seq<NodeKey>, st: State, t: State)
    requires Retold(paths, lim, seeds, st) && t == st.(cursors := t.cursors) && |st.accepted| == |paths|
    ensures Retold(paths, lim, seeds, t)
  {
    forall q: nat, byNodes | CutRoute(paths, lim, seeds, st, q, byNodes) ensures CutRoute(paths, lim, seeds, t, q, byNodes) {
      CutStays(paths, lim, seeds, st, t, q, byNodes);
    }
  }

  lemma {:induction false} RoundRetold(paths: seq<Path>, groups: seq<seq<nat>>, lim: Limits, seeds: seq<NodeKey>, st: State, g: nat)
    requires Groups(paths, groups) && Sound(paths, groups, lim, Elements(seeds), st) && g <= |groups| && Retold(paths, lim, seeds, st)
    ensures Retold(paths, lim, seeds, Round(paths, groups, lim, st, g).0)
    decreases |groups| - g
  {
    hide Retold, Turn, Round, Closed, CompactSelection.Tight, Budgeted, Flagged;
    if g == |groups| {
      RoundIsOver(paths, groups, lim, st);
    } else {
      TurnSound(paths, groups, lim, Elements(seeds), st, g);
      TurnRetold(paths, groups, lim, seeds, st, g);
      var st1 := RoundUnfolds(paths, groups, lim, st, g);
      RoundRetold(paths, groups, lim, seeds, st1, g + 1);
    }
  }

  lemma {:induction false} RunRetold(paths: seq<Path>, groups: seq<seq<nat>>, lim: Limits, seeds: seq<NodeKey>, st: State)
    requires Groups(paths, groups) && Sound(paths, groups, lim, Elements(seeds), st) && Retold(paths, lim, seeds, st)
    ensures Retold(paths, lim, seeds, Run(paths, groups, lim, st))
    decreases Measure(paths, st)
  {
    hide Retold, Turn, Round, Closed, CompactSelection.Tight, Budgeted, Flagged;
    RoundSound(paths, groups, lim, Elements(seeds), st, 0);
    RoundRetold(paths, groups, lim, seeds, st, 0);
    var (t, active) := Round(paths, groups, lim, st, 0);
    if active && !lim.Reached(|t.trace|) {
      RunRetold(paths, groups, lim, seeds, t);
    }
  }

  lemma NothingToRetell(paths: seq<Path>, lim: Limits, seeds: seq<NodeKey>, st: State)
    requires |seeds| <= 1 && st.order == seeds && st.trace == [] && st.links == {} && !st.nodeLimited && !st.linkLimited
    requires |st.blocked| == |paths| && forall r :: 0 <= r < |paths| ==> !st.blocked[r]
    ensures Retold(paths, lim, seeds, st)
  {
    assert EdgesAlong(paths, st.trace) == [] && EndsOf([]) == [] && LinksOf([]) == {};
    assert seeds + [] == seeds;
    assert InOrderOfArrival(seeds, seeds);
    hide EdgesAlong, EndsOf, LinksOf, InOrderOfArrival, CutRoute;
  }

  /** Every selection can be retold from its accepted edges. */
  lemma SelectionIsRetold(paths: seq<Path>, results: nat, lim: Limits)
    requires forall r :: 0 <= r < |paths| ==> paths[r].resultIndex < results
    requires lim.maxNodes >= 1
    ensures Retold(paths, lim, Seed(paths), Selected(paths, results, lim))
  {
    hide Retold, Sound, Run, InOrderOfArrival;
    var groups, st := GroupsOf(paths, results), Initial(paths, results);
    InitialSound(paths, results, lim);
    SeedShort(paths);
    NothingToRetell(paths, lim, Seed(paths), st);
    RunRetold(paths, groups, lim, Seed(paths), st);
  }

  /** The local node is selected before any edge, exactly when some route starts with it. */
  lemma {:induction false} SeedIsLocal(paths: seq<Path>)
    ensures Seed(paths) == if exists r :: 0 <= r < |paths| && |paths[r].keys| > 0 && paths[r].keys[0] == Local then [Local] else []
  {
    if paths != [] && !(|paths[0].keys| > 0 && paths[0].keys[0] == Local) {
      SeedIsLocal(paths[1..]);
      assert forall r :: 1 <= r < |paths| ==> paths[r] == paths[1..][r - 1];
    }
  }
}
