/** The topology a selection is turned into, and the proof that the browser's checks accept it. */
module CompactProducer {
  import opened Text
  import opened CompactSelection
  import opened CompactTopology

  /** A report reduced to its eligible routes and, per result, whether it is a traceroute. */
  datatype Report = Report(traceroute: seq<bool>, routes: seq<Route>)

  // ----- Numbering -----

  function KeptKeys(order: seq<NodeKey>, seen: seq<(NodeKey, Raw)>): (keys: seq<NodeKey>)
    ensures |keys| <= |order|
    ensures forall k :: k in keys <==> k in order && NodeOf(seen, k).Some?
    ensures Distinct(order) ==> Distinct(keys)
  {
    if order == [] then []
    else
      var front, last := order[..|order| - 1], order[|order| - 1];
      KeptKeys(front, seen) + (if NodeOf(seen, last).Some? then [last] else [])
  }

  /** One-based position: the number printed after "n" in a node's ID. Zero for a key without one. */
  function IdOf(keys: seq<NodeKey>, key: NodeKey): (id: nat)
    ensures id <= |keys|
    ensures key in keys ==> id > 0 && keys[id - 1] == key
  {
    if keys == [] then 0
    else if keys[|keys| - 1] == key then |keys|
    else IdOf(keys[..|keys| - 1], key)
  }

  predicate Carried(agg: NodeAgg, includeGeo: bool) {
    agg.publicIP && agg.geo.Some? && agg.geo.value.valid && includeGeo && agg.geo.value.bytes <= MAX_GEO_BYTES
  }

  function NodeFor(id: nat, key: NodeKey, agg: NodeAgg, includeGeo: bool): Node {
    CompactTopology.Node(id, key, agg.status, agg.hopMin, agg.hopMax, agg.observations, agg.publicIP,
                         if Carried(agg, includeGeo) then agg.geo else None)
  }

  function Nodes(keys: seq<NodeKey>, seen: seq<(NodeKey, Raw)>, includeGeo: bool): (nodes: seq<Node>)
    requires forall k :: k in keys ==> NodeOf(seen, k).Some?
    ensures |nodes| == |keys|
  {
    seq(|keys|, i requires 0 <= i < |keys| => NodeFor(i + 1, keys[i], NodeOf(seen, keys[i]).value, includeGeo))
  }

  function CountGeo(g: GeoCounts, agg: NodeAgg, includeGeo: bool): GeoCounts {
    if !agg.publicIP then g
    else if agg.geo == None || !agg.geo.value.valid then g.(eligible := g.eligible + 1, unavailable := g.unavailable + 1)
    else if Carried(agg, includeGeo) then g.(eligible := g.eligible + 1, available := g.available + 1, included := g.included + 1)
    else g.(eligible := g.eligible + 1, available := g.available + 1, omitted := g.omitted + 1)
  }

  function GeoOf(keys: seq<NodeKey>, seen: seq<(NodeKey, Raw)>, includeGeo: bool, n: nat): GeoCounts
    requires n <= |keys| && forall k :: k in keys ==> NodeOf(seen, k).Some?
  {
    if n == 0 then GeoCounts(0, 0, 0, 0, 0)
    else CountGeo(GeoOf(keys, seen, includeGeo, n - 1), NodeOf(seen, keys[n - 1]).value, includeGeo)
  }

  // ----- Links, in selection order of both ends -----

  function EdgesFrom(from: NodeKey, order: seq<NodeKey>, n: nat, seen: seq<(Edge, Status)>): (es: seq<Edge>)
    requires n <= |order|
    ensures forall e :: e in es <==> e.from == from && e.to in order[..n] && LinkOf(seen, e).Some?
    ensures Distinct(order) ==> Distinct(es)
  {
    if n == 0 then []
    else
      assert order[..n] == order[..n - 1] + [order[n - 1]];
      var edge := Edge(from, order[n - 1]);
      EdgesFrom(from, order, n - 1, seen) + (if LinkOf(seen, edge).Some? then [edge] else [])
  }

  function EdgeList(order: seq<NodeKey>, n: nat, seen: seq<(Edge, Status)>): (es: seq<Edge>)
    requires n <= |order|
    ensures forall e :: e in es <==> e.from in order[..n] && e.to in order && LinkOf(seen, e).Some?
    ensures Distinct(order) ==> Distinct(es)
  {
    if n == 0 then []
    else
      assert order[..n] == order[..n - 1] + [order[n - 1]];
      assert order[..|order|] == order;
      EdgeList(order, n - 1, seen) + EdgesFrom(order[n - 1], order, |order|, seen)
  }

  function LinkFor(keys: seq<NodeKey>, edge: Edge, agg: LinkAgg): Link {
    CompactTopology.Link(IdOf(keys, edge.from), IdOf(keys, edge.to), agg.status, agg.observations)
  }

  function Links(keys: seq<NodeKey>, edges: seq<Edge>, seen: seq<(Edge, Status)>): (links: seq<Link>)
    requires forall e :: e in edges ==> LinkOf(seen, e).Some?
    ensures |links| == |edges|
  {
    seq(|edges|, i requires 0 <= i < |edges| => LinkFor(keys, edges[i], LinkOf(seen, edges[i]).value))
  }

  // ----- Routes -----

  function Shorten(route: Route, accepted: nat, shown: nat, keys: seq<NodeKey>): Shortened
    requires accepted <= route.Path().Edges() && shown <= |route.nodes|
  {
    Shortened(route.resultIndex, route.attempt, route.status, route.reached, accepted == route.Path().Edges(),
              seq(shown, i requires 0 <= i < shown => IdOf(keys, route.nodes[i].key)))
  }

  function ShownRoutes(routes: seq<Route>, accepted: seq<nat>, shown: seq<nat>, keys: seq<NodeKey>, n: nat): (r: seq<Shortened>)
    requires Fit(routes, accepted) && |shown| == |routes| && n <= |routes|
    requires forall r :: 0 <= r < |routes| ==> shown[r] <= |routes[r].nodes|
    ensures |r| <= n
  {
    if n == 0 then []
    else
      ShownRoutes(routes, accepted, shown, keys, n - 1)
      + (if shown[n - 1] > 0 then [Shorten(routes[n - 1], accepted[n - 1], shown[n - 1], keys)] else [])
  }

  // ----- Counts -----

  /** Per route, what it adds to each of the eight running counts. */
  datatype Weights = Weights(one: seq<nat>, shown: seq<nat>, complete: seq<nat>, partial: seq<nat>,
                             nodes: seq<nat>, nodesShown: seq<nat>, links: seq<nat>, linksShown: seq<nat>)

  predicate Sized(w: Weights, n: nat) {
    |w.one| == |w.shown| == |w.complete| == |w.partial| == |w.nodes| == |w.nodesShown| == |w.links| == |w.linksShown| == n
  }

  function Bit(b: bool): nat { if b then 1 else 0 }

  function WeightsOf(routes: seq<Route>, accepted: seq<nat>, shown: seq<nat>): (w: Weights)
    requires Fit(routes, accepted) && |shown| == |routes|
    ensures Sized(w, |routes|)
  {
    var n := |routes|;
    Weights(seq(n, _ => 1),
            seq(n, i requires 0 <= i < n => Bit(shown[i] > 0)),
            seq(n, i requires 0 <= i < n => Bit(shown[i] > 0 && accepted[i] == routes[i].Path().Edges())),
            seq(n, i requires 0 <= i < n => Bit(shown[i] > 0 && accepted[i] < routes[i].Path().Edges())),
            seq(n, i requires 0 <= i < n => |routes[i].nodes|),
            shown,
            seq(n, i requires 0 <= i < n => |RouteLinks(routes[i], routes[i].Path().Edges())|),
            seq(n, i requires 0 <= i < n => |RouteLinks(routes[i], accepted[i])|))
  }

  function Owners(routes: seq<Route>): (o: seq<nat>)
    ensures |o| == |routes|
  {
    seq(|routes|, i requires 0 <= i < |routes| => routes[i].resultIndex)
  }

  function Balanced(total: int, displayed: int): Count { Count(total, displayed, total - displayed) }

  function CountsFor(owners: seq<nat>, w: Weights, g: nat, n: nat): ResultCounts
    requires Sized(w, |owners|) && n <= |owners|
  {
    var total, shown := PerResult(owners, w.one, g, n), PerResult(owners, w.shown, g, n);
    ResultCounts(RouteCount(total, shown, PerResult(owners, w.complete, g, n), PerResult(owners, w.partial, g, n), total - shown),
                 Balanced(PerResult(owners, w.nodes, g, n), PerResult(owners, w.nodesShown, g, n)),
                 Balanced(PerResult(owners, w.links, g, n), PerResult(owners, w.linksShown, g, n)))
  }

  function FullNodes(routes: seq<Route>, n: nat): set<NodeKey>
    requires n <= |routes|
  {
    if n == 0 then {} else FullNodes(routes, n - 1) + Elements(routes[n - 1].Path().keys)
  }

  function RouteEdgeSet(route: Route): set<Edge>
    requires |route.edgeStatuses| == route.Path().Edges()
  {
    set p | p in RouteLinks(route, route.Path().Edges()) :: p.0
  }

  function FullLinks(routes: seq<Route>, accepted: seq<nat>, n: nat): set<Edge>
    requires Fit(routes, accepted) && n <= |routes|
  {
    if n == 0 then {} else FullLinks(routes, accepted, n - 1) + RouteEdgeSet(routes[n - 1])
  }

  function Reasons(nodeLimited: bool, linkLimited: bool, geoLimited: bool): seq<Reason> {
    (if nodeLimited then [NodeLimit] else []) + (if linkLimited then [LinkLimit] else []) + (if geoLimited then [GeoLimit] else [])
  }

  /** Everything computed from one selection. */
  datatype Parts = Parts(shown: seq<nat>, seen: seq<(NodeKey, Raw)>, links: seq<(Edge, Status)>, keys: seq<NodeKey>, edges: seq<Edge>)

  function PartsOf(routes: seq<Route>, st: State): (p: Parts)
    requires Fit(routes, st.accepted)
    ensures |p.shown| == |routes| && forall r :: 0 <= r < |routes| ==> p.shown[r] <= |routes[r].nodes|
    ensures forall k :: k in p.keys ==> NodeOf(p.seen, k).Some?
    ensures forall e :: e in p.edges ==> LinkOf(p.links, e).Some?
  {
    var shown := ShownAll(routes, st.accepted, Elements(st.order));
    var seen := SeenNodes(routes, shown, |routes|);
    var links := SeenLinks(routes, st.accepted, |routes|);
    Parts(shown, seen, links, KeptKeys(st.order, seen), EdgeList(st.order, |st.order|, links))
  }

  function StatsOf(routes: seq<Route>, accepted: seq<nat>, shown: seq<nat>, nodes: nat, links: nat, listed: nat): Stats
    requires Fit(routes, accepted) && |shown| == |routes|
  {
    var n, w := |routes|, WeightsOf(routes, accepted, shown);
    Stats(Balanced(|FullNodes(routes, n)|, nodes), Balanced(|FullLinks(routes, accepted, n)|, links),
          RouteCount(n, listed, Total(w.complete, n), Total(w.partial, n), n - listed),
          Balanced(Total(w.nodes, n), Total(w.nodesShown, n)), Balanced(Total(w.links, n), Total(w.linksShown, n)))
  }

  function Assemble(report: Report, st: State, includeGeo: bool): Topology
    requires Fit(report.routes, st.accepted)
  {
    var routes, n := report.routes, |report.routes|;
    var p := PartsOf(routes, st);
    var w, owners := WeightsOf(routes, st.accepted, p.shown), Owners(routes);
    var nodes := Nodes(p.keys, p.seen, includeGeo);
    var links := Links(p.keys, p.edges, p.links);
    var shortened := ShownRoutes(routes, st.accepted, p.shown, p.keys, n);
    var geo := GeoOf(p.keys, p.seen, includeGeo, |p.keys|);
    var reasons := Reasons(st.nodeLimited, st.linkLimited, geo.omitted > 0);
    var stats := StatsOf(routes, st.accepted, p.shown, |nodes|, |links|, |shortened|);
    CompactTopology.Topology(nodes, links, shortened, stats,
             seq(|report.traceroute|, g requires 0 <= g < |report.traceroute| => CountsFor(owners, w, g, n)),
             geo, reasons != [], reasons)
  }

  lemma Assembled(report: Report, st: State, includeGeo: bool)
    requires Fit(report.routes, st.accepted)
    ensures var t, p := Assemble(report, st, includeGeo), PartsOf(report.routes, st);
            && t.nodes == Nodes(p.keys, p.seen, includeGeo) && t.links == Links(p.keys, p.edges, p.links)
            && t.routes == ShownRoutes(report.routes, st.accepted, p.shown, p.keys, |report.routes|)
            && t.geo == GeoOf(p.keys, p.seen, includeGeo, |p.keys|)
            && t.reasons == Reasons(st.nodeLimited, st.linkLimited, t.geo.omitted > 0) && (t.truncated <==> t.reasons != [])
  {
    hide PartsOf, Nodes, Links, ShownRoutes, GeoOf, Reasons, StatsOf, WeightsOf, CountsFor, Owners;
  }

  lemma AssembledCounts(report: Report, st: State, includeGeo: bool)
    requires Fit(report.routes, st.accepted)
    ensures var t, p := Assemble(report, st, includeGeo), PartsOf(report.routes, st);
            && t.stats == StatsOf(report.routes, st.accepted, p.shown, |p.keys|, |p.edges|, |t.routes|)
            && t.routes == ShownRoutes(report.routes, st.accepted, p.shown, p.keys, |report.routes|)
            && |t.results| == |report.traceroute|
            && forall g :: 0 <= g < |t.results| ==>
                 t.results[g] == CountsFor(Owners(report.routes), WeightsOf(report.routes, st.accepted, p.shown), g, |report.routes|)
  {
    hide PartsOf, Nodes, Links, ShownRoutes, GeoOf, Reasons, StatsOf, WeightsOf, CountsFor, Owners;
  }

  lemma NodesAt(keys: seq<NodeKey>, seen: seq<(NodeKey, Raw)>, includeGeo: bool, i: nat)
    requires (forall k :: k in keys ==> NodeOf(seen, k).Some?) && i < |keys|
    ensures keys[i] in keys && Nodes(keys, seen, includeGeo)[i] == NodeFor(i + 1, keys[i], NodeOf(seen, keys[i]).value, includeGeo)
  {
    hide NodeOf, NodeFor;
    assert keys[i] in keys;
  }

  lemma LinksAt(keys: seq<NodeKey>, edges: seq<Edge>, seen: seq<(Edge, Status)>, i: nat)
    requires (forall e :: e in edges ==> LinkOf(seen, e).Some?) && i < |edges|
    ensures edges[i] in edges && Links(keys, edges, seen)[i] == LinkFor(keys, edges[i], LinkOf(seen, edges[i]).value)
  {
    hide LinkOf, LinkFor;
    assert edges[i] in edges;
  }
}
