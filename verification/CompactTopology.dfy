/** What the server builds from a selection (backend/diagnostic/compact_topology.go) and what the browser
    demands of it (normalizeCompactTopology in frontend/state.js). */
module CompactTopology {
  import opened Text
  import opened CompactSelection

  // ----- Raw routes -----

  datatype Status = Healthy | Degraded | Unclear | Failure {
    function Rank(): nat {
      match this
      case Healthy => 0
      case Degraded => 1
      case Unclear => 2
      case Failure => 3
    }
  }

  datatype RouteStatus = AllHealthy | SomeDegraded | Unreachable

  /** A Geo bundle reduced to its validity and to the bytes it adds to its node. */
  datatype Geo = Geo(valid: bool, bytes: nat)

  datatype Raw = Raw(hop: nat, status: Status, publicIP: bool, geo: Option<Geo>)

  datatype Observation = Observation(key: NodeKey, raws: seq<Raw>)

  datatype Route = Route(resultIndex: nat, attempt: int, status: RouteStatus, reached: bool,
                         nodes: seq<Observation>, edgeStatuses: seq<Status>) {
    function Path(): (p: CompactSelection.Path)
      ensures p.Edges() == if |nodes| == 0 then 0 else |nodes| - 1
    {
      CompactSelection.Path(resultIndex, seq(|nodes|, i requires 0 <= i < |nodes| => nodes[i].key))
    }
  }

  function Paths(routes: seq<Route>): (r: seq<CompactSelection.Path>) {
    seq(|routes|, i requires 0 <= i < |routes| => routes[i].Path())
  }

  // ----- Merging consecutive observations of one key -----

  function Flatten(nodes: seq<Observation>): seq<(NodeKey, Raw)> {
    if nodes == [] then [] else Flatten(nodes[..|nodes| - 1]) + Tagged(nodes[|nodes| - 1], |nodes[|nodes| - 1].raws|)
  }

  function Tagged(o: Observation, n: nat): seq<(NodeKey, Raw)>
    requires n <= |o.raws|
  {
    seq(n, i requires 0 <= i < n => (o.key, o.raws[i]))
  }

  /** Neighbouring keys differ and every observation holds at least one hop. */
  ghost predicate Merged(nodes: seq<Observation>) {
    && (forall i :: 0 <= i < |nodes| ==> nodes[i].raws != [])
    && (forall i :: 0 < i < |nodes| ==> nodes[i].key != nodes[i - 1].key)
  }

  lemma {:induction false} HopJoins(nodes: seq<Observation>, raw: Raw)
    requires Merged(nodes) && nodes != []
    ensures var last := |nodes| - 1;
            var now := nodes[last := nodes[last].(raws := nodes[last].raws + [raw])];
            Merged(now) && Flatten(now) == Flatten(nodes) + [(nodes[last].key, raw)]
  {
    var last := |nodes| - 1;
    var o := nodes[last].(raws := nodes[last].raws + [raw]);
    assert nodes[last := o][..last] == nodes[..last];
    assert Tagged(o, |o.raws|) == Tagged(nodes[last], |nodes[last].raws|) + [(o.key, raw)];
    hide Tagged;
  }

  lemma {:induction false} HopStarts(nodes: seq<Observation>, key: NodeKey, raw: Raw)
    requires Merged(nodes) && (nodes != [] ==> nodes[|nodes| - 1].key != key)
    ensures Merged(nodes + [Observation(key, [raw])]) && Flatten(nodes + [Observation(key, [raw])]) == Flatten(nodes) + [(key, raw)]
  {
    var o := Observation(key, [raw]);
    assert (nodes + [o])[..|nodes|] == nodes;
    assert Tagged(o, 1) == [(key, raw)];
    hide Tagged;
  }

  /** Merging keeps every hop in order and leaves no self edge. */
  method MergeNodes(hops: seq<(NodeKey, Raw)>) returns (nodes: seq<Observation>)
    ensures Merged(nodes) && Flatten(nodes) == hops
  {
    nodes := [];
    assert Merged([]) && Flatten([]) == hops[..0];
    hide Merged, Flatten;
    for i := 0 to |hops|
      invariant Merged(nodes) && Flatten(nodes) == hops[..i]
    {
      var (key, raw) := hops[i];
      var last := |nodes| - 1;
      assert hops[..i + 1] == hops[..i] + [(key, raw)];
      if |nodes| > 0 && nodes[last].key == key {
        HopJoins(nodes, raw);
        nodes := nodes[last := nodes[last].(raws := nodes[last].raws + [raw])];
      } else {
        HopStarts(nodes, key, raw);
        nodes := nodes + [Observation(key, [raw])];
      }
    }
    assert hops[..|hops|] == hops;
  }

  // ----- Aggregation -----

  datatype NodeAgg = NodeAgg(status: Status, hopMin: nat, hopMax: nat, observations: nat, publicIP: bool, geo: Option<Geo>)
  datatype LinkAgg = LinkAgg(status: Status, observations: nat)

  function Worst(a: Status, b: Status): (r: Status)
    ensures r == a || r == b
    ensures r.Rank() >= a.Rank() && r.Rank() >= b.Rank()
  {
    if b.Rank() > a.Rank() then b else a
  }

  function Observe(agg: Option<NodeAgg>, raw: Raw): NodeAgg {
    match agg
    case None => NodeAgg(raw.status, raw.hop, raw.hop, 1, raw.publicIP, raw.geo)
    case Some(a) => NodeAgg(Worst(a.status, raw.status), if raw.hop < a.hopMin then raw.hop else a.hopMin,
                            if raw.hop > a.hopMax then raw.hop else a.hopMax, a.observations + 1,
                            a.publicIP || raw.publicIP, if a.geo == None then raw.geo else a.geo)
  }

  function ObserveLink(agg: Option<LinkAgg>, status: Status): LinkAgg {
    match agg
    case None => LinkAgg(status, 1)
    case Some(a) => LinkAgg(Worst(a.status, status), a.observations + 1)
  }

  /** What the observations of one key add up to. */
  function NodeOf(seen: seq<(NodeKey, Raw)>, key: NodeKey): Option<NodeAgg> {
    if seen == [] then None
    else
      var before := NodeOf(seen[..|seen| - 1], key);
      var last := seen[|seen| - 1];
      if last.0 == key then Some(Observe(before, last.1)) else before
  }

  function LinkOf(seen: seq<(Edge, Status)>, edge: Edge): Option<LinkAgg> {
    if seen == [] then None
    else
      var before := LinkOf(seen[..|seen| - 1], edge);
      var last := seen[|seen| - 1];
      if last.0 == edge then Some(ObserveLink(before, last.1)) else before
  }

  /** How many nodes of a route are shown: its accepted edges and their ends, or a lone selected node. */
  function Shown(route: Route, accepted: nat, selected: set<NodeKey>): (n: nat)
    requires accepted <= route.Path().Edges()
    ensures n <= |route.nodes|
  {
    if accepted > 0 then accepted + 1
    else if |route.nodes| == 1 && route.nodes[0].key in selected then 1
    else 0
  }

  ghost predicate Fit(routes: seq<Route>, accepted: seq<nat>) {
    && |accepted| == |routes|
    && (forall r :: 0 <= r < |routes| ==>
          && accepted[r] <= routes[r].Path().Edges() && |routes[r].edgeStatuses| == routes[r].Path().Edges()
          && Merged(routes[r].nodes))
  }

  function ShownAll(routes: seq<Route>, accepted: seq<nat>, selected: set<NodeKey>): (s: seq<nat>)
    requires Fit(routes, accepted)
    ensures |s| == |routes| && forall r :: 0 <= r < |routes| ==> s[r] <= |routes[r].nodes|
  {
    seq(|routes|, r requires 0 <= r < |routes| => Shown(routes[r], accepted[r], selected))
  }

  /** Every shown hop of the first n routes, in order. */
  function SeenNodes(routes: seq<Route>, shown: seq<nat>, n: nat): seq<(NodeKey, Raw)>
    requires |shown| == |routes| && n <= |routes|
    requires forall r :: 0 <= r < |routes| ==> shown[r] <= |routes[r].nodes|
  {
    if n == 0 then [] else SeenNodes(routes, shown, n - 1) + Flatten(routes[n - 1].nodes[..shown[n - 1]])
  }

  function RouteLinks(route: Route, k: nat): seq<(Edge, Status)>
    requires k <= route.Path().Edges() == |route.edgeStatuses|
  {
    if k == 0 then []
    else
      var edge := route.Path().EdgeAt(k - 1);
      RouteLinks(route, k - 1) + (if edge.from != edge.to then [(edge, route.edgeStatuses[k - 1])] else [])
  }

  function SeenLinks(routes: seq<Route>, accepted: seq<nat>, n: nat): seq<(Edge, Status)>
    requires Fit(routes, accepted) && n <= |routes|
  {
    if n == 0 then [] else SeenLinks(routes, accepted, n - 1) + RouteLinks(routes[n - 1], accepted[n - 1])
  }

  // ----- The built topology -----

  datatype Node = Node(id: nat, key: NodeKey, status: Status, hopMin: nat, hopMax: nat, observations: nat,
                       publicIP: bool, geo: Option<Geo>)
  datatype Link = Link(from: nat, to: nat, status: Status, observations: nat)
  datatype Shortened = Shortened(resultIndex: nat, attempt: int, status: RouteStatus, reached: bool, complete: bool, ids: seq<nat>)
  datatype Count = Count(total: int, displayed: int, omitted: int)
  datatype RouteCount = RouteCount(total: int, displayed: int, complete: int, partial: int, omitted: int)
  datatype ResultCounts = ResultCounts(routes: RouteCount, nodes: Count, links: Count)
  datatype GeoCounts = GeoCounts(eligible: nat, available: nat, included: nat, omitted: nat, unavailable: nat)
  datatype Reason = NodeLimit | LinkLimit | ResponseSize | GeoLimit
  datatype Stats = Stats(nodes: Count, links: Count, routes: RouteCount, nodeObservations: Count, linkObservations: Count)
  datatype Topology = Topology(nodes: seq<Node>, links: seq<Link>, routes: seq<Shortened>, stats: Stats,
                               results: seq<ResultCounts>, geo: GeoCounts, truncated: bool, reasons: seq<Reason>)

  const MAX_GEO_BYTES: nat := 4096

  // ----- Counting -----

  /** The weights of the first n routes that belong to result g. */
  function PerResult(owners: seq<nat>, weights: seq<nat>, g: nat, n: nat): nat
    requires |weights| == |owners| && n <= |owners|
  {
    if n == 0 then 0 else PerResult(owners, weights, g, n - 1) + (if owners[n - 1] == g then weights[n - 1] else 0)
  }

  function Total(weights: seq<nat>, n: nat): nat
    requires n <= |weights|
  {
    if n == 0 then 0 else Total(weights, n - 1) + weights[n - 1]
  }

  function SumResults(owners: seq<nat>, weights: seq<nat>, n: nat, results: nat): nat
    requires |weights| == |owners| && n <= |owners|
  {
    if results == 0 then 0 else SumResults(owners, weights, n, results - 1) + PerResult(owners, weights, results - 1, n)
  }

  lemma {:induction false} SumResultsStep(owners: seq<nat>, weights: seq<nat>, n: nat, results: nat)
    requires |weights| == |owners| && n < |owners|
    ensures SumResults(owners, weights, n + 1, results) ==
            SumResults(owners, weights, n, results) + (if owners[n] < results then weights[n] else 0)
  {
    if results > 0 {
      SumResultsStep(owners, weights, n, results - 1);
    }
  }

  /** Summing per result and over all routes is the same when every route has a result. */
  lemma {:induction false} ResultsPartition(owners: seq<nat>, weights: seq<nat>, n: nat, results: nat)
    requires |weights| == |owners| && n <= |owners|
    requires forall r :: 0 <= r < |owners| ==> owners[r] < results
    ensures SumResults(owners, weights, n, results) == Total(weights, n)
  {
    if n > 0 {
      ResultsPartition(owners, weights, n - 1, results);
      SumResultsStep(owners, weights, n - 1, results);
    } else {
      NoRoutes(owners, weights, results);
    }
  }

  lemma {:induction false} NoRoutes(owners: seq<nat>, weights: seq<nat>, results: nat)
    requires |weights| == |owners|
    ensures SumResults(owners, weights, 0, results) == 0
  {
    if results > 0 {
      NoRoutes(owners, weights, results - 1);
    }
  }
}
