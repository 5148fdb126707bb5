/** Producer meets consumer: every check of the browser holds of every topology the server assembles. */
module CompactContract {
  import opened Text
  import opened CompactSelection
  import opened CompactTopology
  import opened CompactProducer
  import opened CompactConsumer
  import opened Sets

  // ----- Aggregates -----

  ghost predicate AggregateOk(a: NodeAgg, n: nat) { a.hopMin <= a.hopMax <= 255 && 1 <= a.observations <= n }

  lemma {:induction false} NodeAggregateOk(seen: seq<(NodeKey, Raw)>, key: NodeKey)
    requires forall i :: 0 <= i < |seen| ==> seen[i].1.hop <= 255
    ensures NodeOf(seen, key).Some? ==> AggregateOk(NodeOf(seen, key).value, |seen|)
  {
    if seen != [] {
      var front := seen[..|seen| - 1];
      NodeAggregateOk(front, key);
      assert forall i :: 0 <= i < |front| ==> front[i] == seen[i];
    }
  }

  lemma {:induction false} NodeSome(seen: seq<(NodeKey, Raw)>, key: NodeKey)
    ensures NodeOf(seen, key).Some? <==> exists i :: 0 <= i < |seen| && seen[i].0 == key
  {
    if seen != [] {
      var front := seen[..|seen| - 1];
      NodeSome(front, key);
      assert forall i :: 0 <= i < |front| ==> front[i] == seen[i];
    }
  }

  function EdgesOf(seen: seq<(Edge, Status)>): (es: seq<Edge>)
    ensures |es| == |seen|
  {
    seq(|seen|, i requires 0 <= i < |seen| => seen[i].0)
  }

  /** A link's observations count the accepted edges equal to it. */
  lemma {:induction false} LinkCounts(seen: seq<(Edge, Status)>, edge: Edge)
    ensures LinkOf(seen, edge).Some? <==> multiset(EdgesOf(seen))[edge] > 0
    ensures LinkOf(seen, edge).Some? ==> LinkOf(seen, edge).value.observations == multiset(EdgesOf(seen))[edge]
  {
    if seen != [] {
      var front := seen[..|seen| - 1];
      LinkCounts(front, edge);
      assert EdgesOf(seen) == EdgesOf(front) + [seen[|seen| - 1].0];
    }
  }

  /** The multiplicities of distinct elements that cover a multiset add up to its size. */
  function Multiplicities(es: seq<Edge>, m: multiset<Edge>): nat {
    if es == [] then 0 else Multiplicities(es[..|es| - 1], m) + m[es[|es| - 1]]
  }

  lemma {:induction false} DropElsewhere(es: seq<Edge>, m: multiset<Edge>, x: Edge)
    requires x !in es
    ensures Multiplicities(es, m[x := 0]) == Multiplicities(es, m)
  {
    if es != [] {
      DropElsewhere(es[..|es| - 1], m, x);
      assert es[|es| - 1] in es;
    }
  }

  lemma {:induction false} CoverSize(es: seq<Edge>, m: multiset<Edge>)
    requires Distinct(es) && forall x :: x in m ==> x in es
    ensures Multiplicities(es, m) == |m|
  {
    if es == [] {
      assert m == multiset{};
    } else {
      var front, last := es[..|es| - 1], es[|es| - 1];
      DropElsewhere(front, m, last);
      CoverSize(front, m[last := 0]);
    }
  }

  // ----- What is seen is what is shown -----

  lemma {:induction false} HopCountMonotone(nodes: seq<Observation>, k: nat, n: nat)
    requires k <= n <= |nodes|
    ensures HopCount(nodes, k) <= HopCount(nodes, n)
  {
    if k < n {
      HopCountMonotone(nodes, k, n - 1);
    }
  }

  lemma {:induction false} NodesWithinHops(nodes: seq<Observation>, n: nat)
    requires n <= |nodes| && Merged(nodes)
    ensures n <= HopCount(nodes, n)
  {
    if n > 0 {
      NodesWithinHops(nodes, n - 1);
    }
  }

  ghost predicate KeyAt(nodes: seq<Observation>, k: nat, j: nat, key: NodeKey) { j < k && j < |nodes| && nodes[j].key == key }

  ghost predicate HopsOk(seen: seq<(NodeKey, Raw)>) { forall i :: 0 <= i < |seen| ==> seen[i].1.hop <= 255 }

  ghost predicate Occurs(seen: seq<(NodeKey, Raw)>, key: NodeKey) { exists i :: 0 <= i < |seen| && seen[i].0 == key }

  lemma OccursAppend(a: seq<(NodeKey, Raw)>, b: seq<(NodeKey, Raw)>, key: NodeKey)
    ensures Occurs(a + b, key) <==> Occurs(a, key) || Occurs(b, key)
  {
    if Occurs(a, key) {
      var i :| 0 <= i < |a| && a[i].0 == key;
      assert (a + b)[i].0 == key;
    }
    if Occurs(b, key) {
      var i :| 0 <= i < |b| && b[i].0 == key;
      assert (a + b)[|a| + i].0 == key;
    }
  }

  lemma {:induction false} FlattenHops(nodes: seq<Observation>, k: nat)
    requires k <= |nodes|
    requires forall i, j :: 0 <= i < |nodes| && 0 <= j < |nodes[i].raws| ==> nodes[i].raws[j].hop <= 255
    ensures |Flatten(nodes[..k])| == HopCount(nodes, k) && HopsOk(Flatten(nodes[..k]))
  {
    if k > 0 {
      FlattenHops(nodes, k - 1);
      var last := Tagged(nodes[k - 1], |nodes[k - 1].raws|);
      assert nodes[..k][..k - 1] == nodes[..k - 1];
      assert Flatten(nodes[..k]) == Flatten(nodes[..k - 1]) + last;
    }
  }

  lemma {:induction false} FlattenOccurs(nodes: seq<Observation>, k: nat, key: NodeKey)
    requires k <= |nodes| && Merged(nodes)
    ensures Occurs(Flatten(nodes[..k]), key) <==> exists j :: KeyAt(nodes, k, j, key)
  {
    if k > 0 {
      var p := k - 1;
      FlattenOccurs(nodes, p, key);
      var last := Tagged(nodes[p], |nodes[p].raws|);
      assert nodes[..k][..p] == nodes[..p];
      assert Flatten(nodes[..k]) == Flatten(nodes[..p]) + last;
      OccursAppend(Flatten(nodes[..p]), last, key);
      assert Occurs(last, key) <==> nodes[p].key == key by {
        assert last[0].0 == nodes[p].key;
      }
      if j :| KeyAt(nodes, k, j, key) {
        assert j == p || KeyAt(nodes, p, j, key);
      }
      if j :| KeyAt(nodes, p, j, key) {
        assert KeyAt(nodes, k, j, key);
      }
      assert nodes[p].key == key ==> KeyAt(nodes, k, p, key);
    }
  }

  ghost predicate ShownAt(routes: seq<Route>, shown: seq<nat>, n: nat, r: nat, j: nat, key: NodeKey) {
    r < n && r < |routes| && r < |shown| && KeyAt(routes[r].nodes, shown[r], j, key)
  }

  ghost predicate AllShapes(routes: seq<Route>) { forall r :: 0 <= r < |routes| ==> RouteShape(routes[r]) }

  ghost predicate AllBounds(routes: seq<Route>) { forall r :: 0 <= r < |routes| ==> RouteBounds(routes[r]) }

  lemma {:induction false} SeenHops(routes: seq<Route>, shown: seq<nat>, n: nat)
    requires |shown| == |routes| && n <= |routes| && AllBounds(routes)
    requires forall r :: 0 <= r < |routes| ==> shown[r] <= |routes[r].nodes|
    ensures |SeenNodes(routes, shown, n)| <= 32 * n && HopsOk(SeenNodes(routes, shown, n))
  {
    if n > 0 {
      SeenHops(routes, shown, n - 1);
      var route, k := routes[n - 1], shown[n - 1];
      assert RouteBounds(route);
      FlattenHops(route.nodes, k);
      HopCountMonotone(route.nodes, k, |route.nodes|);
    }
  }

  lemma {:induction false} SeenOccurs(routes: seq<Route>, shown: seq<nat>, n: nat, key: NodeKey)
    requires |shown| == |routes| && n <= |routes| && AllShapes(routes)
    requires forall r :: 0 <= r < |routes| ==> shown[r] <= |routes[r].nodes|
    ensures Occurs(SeenNodes(routes, shown, n), key) <==> exists r, j :: ShownAt(routes, shown, n, r, j, key)
  {
    if n > 0 {
      var m := n - 1;
      SeenOccurs(routes, shown, m, key);
      assert RouteShape(routes[m]);
      FlattenOccurs(routes[m].nodes, shown[m], key);
      OccursAppend(SeenNodes(routes, shown, m), Flatten(routes[m].nodes[..shown[m]]), key);
      ShownStep(routes, shown, m, n, key);
    }
  }

  lemma ShownStep(routes: seq<Route>, shown: seq<nat>, m: nat, n: nat, key: NodeKey)
    requires |shown| == |routes| && m < |routes| && n == m + 1
    ensures (exists r, j :: ShownAt(routes, shown, n, r, j, key)) <==>
            (exists r, j :: ShownAt(routes, shown, m, r, j, key)) || (exists j :: KeyAt(routes[m].nodes, shown[m], j, key))
  {
    if r, j :| ShownAt(routes, shown, n, r, j, key) {
      assert ShownAt(routes, shown, m, r, j, key) || KeyAt(routes[m].nodes, shown[m], j, key);
    }
    if r, j :| ShownAt(routes, shown, m, r, j, key) {
      assert ShownAt(routes, shown, n, r, j, key);
    }
    if j :| KeyAt(routes[m].nodes, shown[m], j, key) {
      assert ShownAt(routes, shown, n, m, j, key);
    }
  }

  /** A key has an aggregate exactly when some shown position carries it. */
  lemma SeenKeys(routes: seq<Route>, shown: seq<nat>, key: NodeKey)
    requires |shown| == |routes| && AllShapes(routes)
    requires forall r :: 0 <= r < |routes| ==> shown[r] <= |routes[r].nodes|
    ensures NodeOf(SeenNodes(routes, shown, |routes|), key).Some? <==>
            exists r, j :: ShownAt(routes, shown, |routes|, r, j, key)
  {
    SeenOccurs(routes, shown, |routes|, key);
    NodeSome(SeenNodes(routes, shown, |routes|), key);
  }

  // ----- Links seen are edges accepted -----

  ghost predicate LinkOccurs(seen: seq<(Edge, Status)>, e: Edge) { exists i :: 0 <= i < |seen| && seen[i].0 == e }

  ghost predicate EdgeWithin(route: Route, k: nat, i: nat, e: Edge) {
    i < k && i < route.Path().Edges() && route.Path().EdgeAt(i) == e
  }

  lemma {:induction false} RouteLinkFacts(route: Route, k: nat, e: Edge)
    requires Merged(route.nodes) && k <= route.Path().Edges() == |route.edgeStatuses|
    ensures |RouteLinks(route, k)| == k
    ensures LinkOccurs(RouteLinks(route, k), e) <==> exists i :: EdgeWithin(route, k, i, e)
    ensures LinkOccurs(RouteLinks(route, k), e) ==> e.from != e.to
  {
    if k > 0 {
      RouteLinkFacts(route, k - 1, e);
      var edge := route.Path().EdgeAt(k - 1);
      assert edge.from == route.nodes[k - 1].key && edge.to == route.nodes[k].key;
      LinkOccursAppend(RouteLinks(route, k - 1), [(edge, route.edgeStatuses[k - 1])], e);
      assert [(edge, route.edgeStatuses[k - 1])][0].0 == edge;
      assert LinkOccurs([(edge, route.edgeStatuses[k - 1])], e) <==> e == edge;
      assert EdgeWithin(route, k, k - 1, edge);
      if i :| EdgeWithin(route, k, i, e) {
        assert i == k - 1 || EdgeWithin(route, k - 1, i, e);
      }
      var p := k - 1;
      if i :| EdgeWithin(route, p, i, e) {
        assert EdgeWithin(route, k, i, e);
      }
    }
  }

  lemma LinkOccursAppend(a: seq<(Edge, Status)>, b: seq<(Edge, Status)>, e: Edge)
    ensures LinkOccurs(a + b, e) <==> LinkOccurs(a, e) || LinkOccurs(b, e)
  {
    if LinkOccurs(a, e) {
      var i :| 0 <= i < |a| && a[i].0 == e;
      assert (a + b)[i].0 == e;
    }
    if LinkOccurs(b, e) {
      var i :| 0 <= i < |b| && b[i].0 == e;
      assert (a + b)[|a| + i].0 == e;
    }
  }

  lemma {:induction false} SeenLinkFacts(routes: seq<Route>, accepted: seq<nat>, n: nat, e: Edge)
    requires Fit(routes, accepted) && n <= |routes|
    ensures LinkOccurs(SeenLinks(routes, accepted, n), e) <==>
            exists r :: 0 <= r < n && LinkOccurs(RouteLinks(routes[r], accepted[r]), e)
    ensures LinkOccurs(SeenLinks(routes, accepted, n), e) ==> e.from != e.to
  {
    if n > 0 {
      hide RouteLinks, LinkOccurs, Fit;
      SeenLinkFacts(routes, accepted, n - 1, e);
      RouteLinkFacts(routes[n - 1], accepted[n - 1], e);
      LinkOccursAppend(SeenLinks(routes, accepted, n - 1), RouteLinks(routes[n - 1], accepted[n - 1]), e);
    }
  }

  lemma LinkSome(seen: seq<(Edge, Status)>, e: Edge)
    ensures LinkOf(seen, e).Some? <==> LinkOccurs(seen, e)
    ensures LinkOf(seen, e).Some? ==> 1 <= LinkOf(seen, e).value.observations <= |seen|
  {
    LinkCounts(seen, e);
    var es := EdgesOf(seen);
    if LinkOccurs(seen, e) {
      var i :| 0 <= i < |seen| && seen[i].0 == e;
      assert es[i] == e && e in multiset(es);
    }
    if e in multiset(es) {
      assert e in es;
    }
    assert multiset(es)[e] <= |multiset(es)| by {
      assert multiset(es) == multiset(es)[e := 0] + multiset{}[e := multiset(es)[e]];
    }
  }

  // ----- One assembled report -----

  /** A selected report, whatever its size. */
  ghost predicate Wired(report: Report, lim: Limits, st: State) {
    && AllShapes(report.routes)
    && (forall i :: 0 <= i < |report.routes| ==> report.routes[i].resultIndex < |report.traceroute|)
    && 1 <= lim.maxNodes && st == SelectionOf(report, lim)
  }

  ghost predicate Context(report: Report, lim: Limits, st: State) {
    Wired(report, lim, st) && Bounds(report) && lim.maxNodes <= 500 && lim.maxLinks <= 1000
  }

  lemma WiredFacts(report: Report, lim: Limits, st: State)
    requires Wired(report, lim, st)
    ensures Fit(report.routes, st.accepted) && Distinct(st.order) && Closed(Paths(report.routes), st)
    ensures |st.order| <= lim.maxNodes && |st.links| <= lim.maxLinks
  {
    SelectedSound(Paths(report.routes), |report.traceroute|, lim);
    forall r | 0 <= r < |report.routes|
      ensures Merged(report.routes[r].nodes) && |report.routes[r].edgeStatuses| == report.routes[r].Path().Edges()
    {
      assert RouteShape(report.routes[r]);
    }
  }

  lemma ContextFacts(report: Report, lim: Limits, st: State)
    requires Context(report, lim, st)
    ensures Fit(report.routes, st.accepted) && AllBounds(report.routes)
    ensures Distinct(st.order) && |st.order| <= 500 && |st.links| <= 1000
    ensures Closed(Paths(report.routes), st)
  {
    WiredFacts(report, lim, st);
  }

  lemma ShownKeysSelected(report: Report, lim: Limits, st: State, r: nat, j: nat)
    requires Wired(report, lim, st) && Fit(report.routes, st.accepted)
    requires r < |report.routes| && j < Shown(report.routes[r], st.accepted[r], Elements(st.order))
    ensures report.routes[r].nodes[j].key in st.order
  {
    hide Wired, Distinct;
    WiredFacts(report, lim, st);
    hide Fit;
    var paths := Paths(report.routes);
    if st.accepted[r] > 0 {
      var i := if j < st.accepted[r] then j else j - 1;
      assert AcceptedEdge(paths, st.accepted, r, i, paths[r].EdgeAt(i));
    }
  }

  /** The numbered keys are exactly the shown keys, and a linked pair is an accepted edge of numbered keys. */
  lemma PartsFacts(report: Report, lim: Limits, st: State, key: NodeKey)
    requires Wired(report, lim, st) && Fit(report.routes, st.accepted)
    ensures var p := PartsOf(report.routes, st);
            && (NodeOf(p.seen, key).Some? <==> key in p.keys)
            && (NodeOf(p.seen, key).Some? <==> exists r, j :: ShownAt(report.routes, p.shown, |report.routes|, r, j, key))
  {
    WiredFacts(report, lim, st);
    var p := PartsOf(report.routes, st);
    SeenKeys(report.routes, p.shown, key);
    if r, j :| ShownAt(report.routes, p.shown, |report.routes|, r, j, key) {
      ShownKeysSelected(report, lim, st, r, j);
    }
  }

  lemma NodeAggregates(report: Report, lim: Limits, st: State, key: NodeKey)
    requires Context(report, lim, st) && Fit(report.routes, st.accepted)
    ensures var p := PartsOf(report.routes, st);
            NodeOf(p.seen, key).Some? ==> AggregateOk(NodeOf(p.seen, key).value, 6400)
  {
    ContextFacts(report, lim, st);
    var p := PartsOf(report.routes, st);
    SeenHops(report.routes, p.shown, |report.routes|);
    NodeAggregateOk(p.seen, key);
  }

  lemma AcceptedKeys(report: Report, lim: Limits, st: State, r: nat, i: nat)
    requires Wired(report, lim, st) && Fit(report.routes, st.accepted)
    requires r < |report.routes| && i < st.accepted[r]
    ensures var p := PartsOf(report.routes, st);
            report.routes[r].nodes[i].key in p.keys && report.routes[r].nodes[i + 1].key in p.keys
  {
    var routes, p := report.routes, PartsOf(report.routes, st);
    PartsFacts(report, lim, st, routes[r].nodes[i].key);
    PartsFacts(report, lim, st, routes[r].nodes[i + 1].key);
    assert ShownAt(routes, p.shown, |routes|, r, i, routes[r].nodes[i].key);
    assert ShownAt(routes, p.shown, |routes|, r, i + 1, routes[r].nodes[i + 1].key);
  }

  lemma AcceptedLink(routes: seq<Route>, accepted: seq<nat>, r: nat, i: nat)
    requires Fit(routes, accepted) && r < |routes| && i < accepted[r]
    ensures var e := routes[r].Path().EdgeAt(i);
            && e == Edge(routes[r].nodes[i].key, routes[r].nodes[i + 1].key) && e.from != e.to
            && LinkOf(SeenLinks(routes, accepted, |routes|), e).Some?
            && AcceptedEdge(Paths(routes), accepted, r, i, e)
  {
    var e := routes[r].Path().EdgeAt(i);
    RouteLinkFacts(routes[r], accepted[r], e);
    assert EdgeWithin(routes[r], accepted[r], i, e);
    SeenLinkFacts(routes, accepted, |routes|, e);
    LinkSome(SeenLinks(routes, accepted, |routes|), e);
  }

  lemma AcceptedEnds(report: Report, lim: Limits, st: State, r: nat, i: nat)
    requires Wired(report, lim, st) && Fit(report.routes, st.accepted)
    requires r < |report.routes| && i < st.accepted[r]
    ensures var p := PartsOf(report.routes, st);
            var e := report.routes[r].Path().EdgeAt(i);
            && e.from in p.keys && e.to in p.keys && e.from != e.to && e in p.edges
            && e in st.links
  {
    AcceptedKeys(report, lim, st, r, i);
    AcceptedLink(report.routes, st.accepted, r, i);
    WiredFacts(report, lim, st);
    assert st.order[..|st.order|] == st.order;
  }

  lemma LinkedPairs(report: Report, lim: Limits, st: State, e: Edge)
    requires Wired(report, lim, st) && Fit(report.routes, st.accepted)
    requires LinkOf(PartsOf(report.routes, st).links, e).Some?
    ensures var p := PartsOf(report.routes, st);
            && e.from in p.keys && e.to in p.keys && e.from != e.to && e in p.edges && e in st.links
  {
    WiredFacts(report, lim, st);
    var routes, p := report.routes, PartsOf(report.routes, st);
    LinkSome(p.links, e);
    SeenLinkFacts(routes, st.accepted, |routes|, e);
    var r :| 0 <= r < |routes| && LinkOccurs(RouteLinks(routes[r], st.accepted[r]), e);
    RouteLinkFacts(routes[r], st.accepted[r], e);
    var i :| EdgeWithin(routes[r], st.accepted[r], i, e);
    AcceptedEnds(report, lim, st, r, i);
  }

  lemma NodeAt(report: Report, st: State, includeGeo: bool, i: nat)
    requires Fit(report.routes, st.accepted) && i < |PartsOf(report.routes, st).keys|
    ensures var t, p := Assemble(report, st, includeGeo), PartsOf(report.routes, st);
            && |t.nodes| == |p.keys|
            && t.nodes[i] == NodeFor(i + 1, p.keys[i], NodeOf(p.seen, p.keys[i]).value, includeGeo)
  {
    hide *;
    Assembled(report, st, includeGeo);
    var p := PartsOf(report.routes, st);
    NodesAt(p.keys, p.seen, includeGeo, i);
  }

  lemma NodesMeetContract(report: Report, lim: Limits, st: State, includeGeo: bool)
    requires Context(report, lim, st) && Fit(report.routes, st.accepted)
    ensures NodesAccepted(Assemble(report, st, includeGeo))
  {
    ContextFacts(report, lim, st);
    var t := Assemble(report, st, includeGeo);
    var keys := PartsOf(report.routes, st).keys;
    forall i | 0 <= i < |t.nodes|
      ensures var n := t.nodes[i];
              && n.id == i + 1 && n.hopMin <= n.hopMax <= 255 && 1 <= n.observations <= 8192
              && (n.geo.Some? ==> n.publicIP && n.geo.value.bytes <= MAX_GEO_BYTES)
    {
      NodeAt(report, st, includeGeo, i);
      NodeAggregates(report, lim, st, keys[i]);
    }
  }

  lemma IdFacts(keys: seq<NodeKey>, a: NodeKey, b: NodeKey)
    requires Distinct(keys) && a in keys && b in keys
    ensures IdOf(keys, a) == IdOf(keys, b) <==> a == b
  {
  }

  lemma LinkAt(report: Report, st: State, includeGeo: bool, i: nat)
    requires Fit(report.routes, st.accepted) && i < |PartsOf(report.routes, st).edges|
    ensures var t, p := Assemble(report, st, includeGeo), PartsOf(report.routes, st);
            t.links[i] == LinkFor(p.keys, p.edges[i], LinkOf(p.links, p.edges[i]).value)
  {
    hide *;
    Assembled(report, st, includeGeo);
    var p := PartsOf(report.routes, st);
    LinksAt(p.keys, p.edges, p.links, i);
  }

  lemma NodeForId(id: nat, key: NodeKey, agg: NodeAgg, includeGeo: bool)
    ensures NodeFor(id, key, agg, includeGeo).id == id && NodeFor(id, key, agg, includeGeo).key == key
  {
  }

  lemma KnownKey(report: Report, st: State, includeGeo: bool, key: NodeKey)
    requires Fit(report.routes, st.accepted) && key in PartsOf(report.routes, st).keys
    ensures HasNode(Assemble(report, st, includeGeo), IdOf(PartsOf(report.routes, st).keys, key))
  {
    hide Assemble, PartsOf, NodeOf, NodeFor;
    var t, p := Assemble(report, st, includeGeo), PartsOf(report.routes, st);
    var id := IdOf(p.keys, key);
    NodeAt(report, st, includeGeo, id - 1);
    NodeForId(id, key, NodeOf(p.seen, key).value, includeGeo);
    assert t.nodes[id - 1].id == id;
  }

  lemma EdgesBounded(report: Report, lim: Limits, st: State)
    requires Context(report, lim, st) && Fit(report.routes, st.accepted)
    ensures |PartsOf(report.routes, st).edges| <= 1000 && Distinct(PartsOf(report.routes, st).edges)
  {
    ContextFacts(report, lim, st);
    var edges := PartsOf(report.routes, st).edges;
    forall e | e in edges
      ensures e in st.links
    {
      LinkedPairs(report, lim, st, e);
    }
    DistinctSize(edges);
    SubsetSize(Elements(edges), st.links);
  }

  lemma LinksMeetContract(report: Report, lim: Limits, st: State, includeGeo: bool)
    requires Context(report, lim, st) && Fit(report.routes, st.accepted)
    ensures LinksAccepted(Assemble(report, st, includeGeo))
  {
    ContextFacts(report, lim, st);
    EdgesBounded(report, lim, st);
    SeenLinksShort(report.routes, st.accepted, |report.routes|);
    var t, p := Assemble(report, st, includeGeo), PartsOf(report.routes, st);
    forall i | 0 <= i < |t.links|
      ensures var l := t.links[i];
              && HasNode(t, l.from) && HasNode(t, l.to) && l.from != l.to && 1 <= l.observations <= 16384
    {
      LinkAt(report, st, includeGeo, i);
      var e := p.edges[i];
      LinkedPairs(report, lim, st, e);
      KnownKey(report, st, includeGeo, e.from);
      KnownKey(report, st, includeGeo, e.to);
      IdFacts(p.keys, e.from, e.to);
      LinkSome(p.links, e);
    }
    forall i, j | 0 <= i < j < |t.links|
      ensures t.links[i].from != t.links[j].from || t.links[i].to != t.links[j].to
    {
      LinkAt(report, st, includeGeo, i);
      LinkAt(report, st, includeGeo, j);
      LinkedPairs(report, lim, st, p.edges[i]);
      LinkedPairs(report, lim, st, p.edges[j]);
      IdFacts(p.keys, p.edges[i].from, p.edges[j].from);
      IdFacts(p.keys, p.edges[i].to, p.edges[j].to);
    }
  }

  lemma {:induction false} SeenLinksShort(routes: seq<Route>, accepted: seq<nat>, n: nat)
    requires Fit(routes, accepted) && n <= |routes| && AllBounds(routes)
    ensures |SeenLinks(routes, accepted, n)| <= 32 * n
  {
    if n > 0 {
      SeenLinksShort(routes, accepted, n - 1);
      var r := routes[n - 1];
      assert RouteBounds(r);
      RouteLinkFacts(r, accepted[n - 1], Edge(Local, Local));
      NodesWithinHops(r.nodes, |r.nodes|);
    }
  }

  // ----- Routes -----

  lemma {:induction false} ListedFrom(routes: seq<Route>, accepted: seq<nat>, shown: seq<nat>, keys: seq<NodeKey>, n: nat, i: nat)
    returns (r: nat)
    requires Fit(routes, accepted) && |shown| == |routes| && n <= |routes|
    requires forall r :: 0 <= r < |routes| ==> shown[r] <= |routes[r].nodes|
    requires i < |ShownRoutes(routes, accepted, shown, keys, n)|
    ensures r < n && shown[r] > 0
    ensures ShownRoutes(routes, accepted, shown, keys, n)[i] == Shorten(routes[r], accepted[r], shown[r], keys)
  {
    if i < |ShownRoutes(routes, accepted, shown, keys, n - 1)| {
      r := ListedFrom(routes, accepted, shown, keys, n - 1, i);
    } else {
      r := n - 1;
    }
  }

  lemma KnownLink(report: Report, st: State, includeGeo: bool, e: Edge)
    requires Fit(report.routes, st.accepted) && e in PartsOf(report.routes, st).edges
    ensures var t, keys := Assemble(report, st, includeGeo), PartsOf(report.routes, st).keys;
            HasLink(t, IdOf(keys, e.from), IdOf(keys, e.to))
  {
    var t, p := Assemble(report, st, includeGeo), PartsOf(report.routes, st);
    var i :| 0 <= i < |p.edges| && p.edges[i] == e;
    LinkAt(report, st, includeGeo, i);
    assert t.links[i].from == IdOf(p.keys, e.from);
  }

  lemma ShortenedAccepted(report: Report, lim: Limits, st: State, includeGeo: bool, r: nat)
    requires Context(report, lim, st) && Fit(report.routes, st.accepted) && r < |report.routes|
    requires PartsOf(report.routes, st).shown[r] > 0
    ensures var t, p := Assemble(report, st, includeGeo), PartsOf(report.routes, st);
            RouteAccepted(t, Shorten(report.routes[r], st.accepted[r], p.shown[r], p.keys), report.traceroute)
  {
    ContextFacts(report, lim, st);
    var t, p := Assemble(report, st, includeGeo), PartsOf(report.routes, st);
    var route := report.routes[r];
    var s := Shorten(route, st.accepted[r], p.shown[r], p.keys);
    assert RouteBounds(route);
    NodesWithinHops(route.nodes, |route.nodes|);
    forall j | 0 <= j < |s.ids|
      ensures HasNode(t, s.ids[j])
    {
      var key := route.nodes[j].key;
      PartsFacts(report, lim, st, key);
      assert ShownAt(report.routes, p.shown, |report.routes|, r, j, key);
      KnownKey(report, st, includeGeo, key);
    }
    forall j | 0 < j < |s.ids|
      ensures s.ids[j] != s.ids[j - 1] && HasLink(t, s.ids[j - 1], s.ids[j])
    {
      AcceptedEnds(report, lim, st, r, j - 1);
      var e := route.Path().EdgeAt(j - 1);
      KnownLink(report, st, includeGeo, e);
      IdFacts(p.keys, e.from, e.to);
    }
  }

  lemma RoutesMeetContract(report: Report, lim: Limits, st: State, includeGeo: bool)
    requires Context(report, lim, st) && Fit(report.routes, st.accepted)
    ensures RoutesAccepted(Assemble(report, st, includeGeo), report.traceroute)
  {
    var t, p := Assemble(report, st, includeGeo), PartsOf(report.routes, st);
    forall i | 0 <= i < |t.routes|
      ensures RouteAccepted(t, t.routes[i], report.traceroute)
    {
      var r := ListedFrom(report.routes, st.accepted, p.shown, p.keys, |report.routes|, i);
      ShortenedAccepted(report, lim, st, includeGeo, r);
    }
  }

  // ----- Counts -----

  /** A weight that is a measure of the shown routes. */
  ghost predicate Weighs(routes: seq<Route>, accepted: seq<nat>, shown: seq<nat>, keys: seq<NodeKey>, w: seq<nat>, m: Measure)
    requires Fit(routes, accepted) && |shown| == |routes|
    requires forall r :: 0 <= r < |routes| ==> shown[r] <= |routes[r].nodes|
  {
    && |w| == |routes|
    && forall r :: 0 <= r < |routes| ==>
         w[r] == if shown[r] > 0 then m.Of(Shorten(routes[r], accepted[r], shown[r], keys)) else 0
  }

  /** The browser's recount of the listed routes is the server's running count. */
  lemma {:induction false} RecountAgrees(routes: seq<Route>, accepted: seq<nat>, shown: seq<nat>, keys: seq<NodeKey>,
                                         w: seq<nat>, m: Measure, g: nat, n: nat)
    requires Fit(routes, accepted) && |shown| == |routes| && n <= |routes|
    requires forall r :: 0 <= r < |routes| ==> shown[r] <= |routes[r].nodes|
    requires Weighs(routes, accepted, shown, keys, w, m)
    ensures |ShownRoutes(routes, accepted, shown, keys, n)| <= n
    ensures var listed := ShownRoutes(routes, accepted, shown, keys, n);
            Tally(listed, m) == Total(w, n) && Listed(listed, m, g) == PerResult(Owners(routes), w, g, n)
  {
    hide Fit, Shorten, ShownRoutes, Tally, Listed, Owners, Total, PerResult;
    if n == 0 {
      NothingRecounted(routes, accepted, shown, keys, w, m, g);
    } else {
      RecountAgrees(routes, accepted, shown, keys, w, m, g, n - 1);
      ShownRoutesStep(routes, accepted, shown, keys, n);
      SumsStep(Owners(routes), w, g, n);
      FitAt(routes, accepted, n - 1);
      var last := Shorten(routes[n - 1], accepted[n - 1], shown[n - 1], keys);
      var before := ShownRoutes(routes, accepted, shown, keys, n - 1);
      assert w[n - 1] == if shown[n - 1] > 0 then m.Of(last) else 0;
      hide Weighs;
      if shown[n - 1] > 0 {
        TallyAppend(before, last, m, g);
        ShortenOwner(routes, accepted[n - 1], shown[n - 1], keys, n - 1);
      } else {
        assert before + [] == before;
      }
    }
  }

  lemma FitAt(routes: seq<Route>, accepted: seq<nat>, r: nat)
    requires Fit(routes, accepted) && r < |routes|
    ensures |accepted| == |routes| && accepted[r] <= routes[r].Path().Edges()
  {
  }

  lemma NothingRecounted(routes: seq<Route>, accepted: seq<nat>, shown: seq<nat>, keys: seq<NodeKey>, w: seq<nat>, m: Measure, g: nat)
    requires Fit(routes, accepted) && |shown| == |routes| == |w|
    requires forall r :: 0 <= r < |routes| ==> shown[r] <= |routes[r].nodes|
    ensures ShownRoutes(routes, accepted, shown, keys, 0) == [] && Tally([], m) == Total(w, 0) && Listed([], m, g) == PerResult(Owners(routes), w, g, 0)
  {
  }

  lemma ShownRoutesStep(routes: seq<Route>, accepted: seq<nat>, shown: seq<nat>, keys: seq<NodeKey>, n: nat)
    requires Fit(routes, accepted) && |shown| == |routes| && 0 < n <= |routes|
    requires forall r :: 0 <= r < |routes| ==> shown[r] <= |routes[r].nodes|
    ensures ShownRoutes(routes, accepted, shown, keys, n) ==
            ShownRoutes(routes, accepted, shown, keys, n - 1)
            + if shown[n - 1] > 0 then [Shorten(routes[n - 1], accepted[n - 1], shown[n - 1], keys)] else []
  {
    hide Shorten;
  }

  lemma SumsStep(owners: seq<nat>, w: seq<nat>, g: nat, n: nat)
    requires |w| == |owners| && 0 < n <= |owners|
    ensures Total(w, n) == Total(w, n - 1) + w[n - 1]
    ensures PerResult(owners, w, g, n) == PerResult(owners, w, g, n - 1) + if owners[n - 1] == g then w[n - 1] else 0
  {
  }

  lemma ShortenOwner(routes: seq<Route>, accepted: nat, shown: nat, keys: seq<NodeKey>, r: nat)
    requires r < |routes| && accepted <= routes[r].Path().Edges() && shown <= |routes[r].nodes|
    ensures Owners(routes)[r] == Shorten(routes[r], accepted, shown, keys).resultIndex
  {
  }

  lemma TallyAppend(listed: seq<Shortened>, last: Shortened, m: Measure, g: nat)
    ensures Tally(listed + [last], m) == Tally(listed, m) + m.Of(last)
    ensures Listed(listed + [last], m, g) == Listed(listed, m, g) + (if last.resultIndex == g then m.Of(last) else 0)
  {
    assert (listed + [last])[..|listed|] == listed;
  }

  lemma WeightAt(routes: seq<Route>, accepted: seq<nat>, shown: seq<nat>, keys: seq<NodeKey>, r: nat)
    requires Fit(routes, accepted) && |shown| == |routes| && r < |routes| && shown[r] <= |routes[r].nodes|
    requires shown[r] > 0 ==> shown[r] == accepted[r] + 1
    requires shown[r] == 0 ==> accepted[r] == 0
    ensures var w, s := WeightsOf(routes, accepted, shown), Shorten(routes[r], accepted[r], shown[r], keys);
            && w.shown[r] == (if shown[r] > 0 then ListedRoutes.Of(s) else 0)
            && w.complete[r] == (if shown[r] > 0 then ListedComplete.Of(s) else 0)
            && w.partial[r] == (if shown[r] > 0 then ListedPartial.Of(s) else 0)
            && w.nodesShown[r] == (if shown[r] > 0 then ListedNodes.Of(s) else 0)
            && w.linksShown[r] == (if shown[r] > 0 then ListedLinks.Of(s) else 0)
  {
    RouteLinkFacts(routes[r], accepted[r], Edge(Local, Local));
  }

  lemma WeightsAreMeasures(routes: seq<Route>, st: State)
    requires Fit(routes, st.accepted)
    ensures var p := PartsOf(routes, st);
            var w := WeightsOf(routes, st.accepted, p.shown);
            && Weighs(routes, st.accepted, p.shown, p.keys, w.shown, ListedRoutes)
            && Weighs(routes, st.accepted, p.shown, p.keys, w.complete, ListedComplete)
            && Weighs(routes, st.accepted, p.shown, p.keys, w.partial, ListedPartial)
            && Weighs(routes, st.accepted, p.shown, p.keys, w.nodesShown, ListedNodes)
            && Weighs(routes, st.accepted, p.shown, p.keys, w.linksShown, ListedLinks)
  {
    var p := PartsOf(routes, st);
    forall r | 0 <= r < |routes|
      ensures var w, s := WeightsOf(routes, st.accepted, p.shown), Shorten(routes[r], st.accepted[r], p.shown[r], p.keys);
            && w.shown[r] == (if p.shown[r] > 0 then ListedRoutes.Of(s) else 0)
            && w.complete[r] == (if p.shown[r] > 0 then ListedComplete.Of(s) else 0)
            && w.partial[r] == (if p.shown[r] > 0 then ListedPartial.Of(s) else 0)
            && w.nodesShown[r] == (if p.shown[r] > 0 then ListedNodes.Of(s) else 0)
            && w.linksShown[r] == (if p.shown[r] > 0 then ListedLinks.Of(s) else 0)
    {
      assert p.shown[r] == Shown(routes[r], st.accepted[r], Elements(st.order));
      WeightAt(routes, st.accepted, p.shown, p.keys, r);
    }
  }

  ghost predicate Below(a: seq<nat>, b: seq<nat>, c: nat) {
    |a| == |b| && forall i :: 0 <= i < |a| ==> a[i] <= b[i] <= c
  }

  lemma {:induction false} SumsBelow(owners: seq<nat>, a: seq<nat>, b: seq<nat>, c: nat, g: nat, n: nat)
    requires Below(a, b, c) && |owners| == |a| && n <= |a|
    ensures Total(a, n) <= Total(b, n) <= c * n
    ensures PerResult(owners, a, g, n) <= PerResult(owners, b, g, n) <= Total(b, n)
  {
    if n > 0 {
      SumsBelow(owners, a, b, c, g, n - 1);
      SumsStep(owners, a, g, n);
      SumsStep(owners, b, g, n);
      assert a[n - 1] <= b[n - 1] <= c && c * n == c * (n - 1) + c;
      hide Total, PerResult, Below;
    }
  }

  lemma {:induction false} SumsAdd(owners: seq<nat>, a: seq<nat>, b: seq<nat>, c: seq<nat>, g: nat, n: nat)
    requires |a| == |b| == |c| == |owners| && n <= |a| && forall i :: 0 <= i < |a| ==> c[i] == a[i] + b[i]
    ensures Total(c, n) == Total(a, n) + Total(b, n)
    ensures PerResult(owners, c, g, n) == PerResult(owners, a, g, n) + PerResult(owners, b, g, n)
  {
    if n > 0 {
      SumsAdd(owners, a, b, c, g, n - 1);
    }
  }

  lemma WeightBoundAt(routes: seq<Route>, st: State, r: nat)
    requires Fit(routes, st.accepted) && r < |routes| && RouteBounds(routes[r])
    ensures var p := PartsOf(routes, st);
            var w := WeightsOf(routes, st.accepted, p.shown);
            && w.one[r] == 1 && w.shown[r] <= 1 && w.shown[r] == w.complete[r] + w.partial[r]
            && w.nodesShown[r] <= w.nodes[r] <= 32 && w.linksShown[r] <= w.links[r] <= 32
  {
    NodesWithinHops(routes[r].nodes, |routes[r].nodes|);
    RouteLinkFacts(routes[r], st.accepted[r], Edge(Local, Local));
    RouteLinkFacts(routes[r], routes[r].Path().Edges(), Edge(Local, Local));
  }

  /** What the weights of a report within bounds satisfy. */
  ghost predicate WeightsOk(w: Weights, n: nat) {
    && Sized(w, n) && n <= 200
    && Below(w.shown, w.one, 1) && Below(w.nodesShown, w.nodes, 32) && Below(w.linksShown, w.links, 32) && Below(w.one, w.one, 1)
    && (forall r :: 0 <= r < n ==> w.shown[r] == w.complete[r] + w.partial[r])
  }

  lemma WeightBounds(routes: seq<Route>, st: State)
    requires Fit(routes, st.accepted) && AllBounds(routes) && |routes| <= 200
    ensures WeightsOk(WeightsOf(routes, st.accepted, PartsOf(routes, st).shown), |routes|)
  {
    var w := WeightsOf(routes, st.accepted, PartsOf(routes, st).shown);
    forall r | 0 <= r < |routes|
      ensures w.one[r] == 1 && w.shown[r] <= 1 && w.shown[r] == w.complete[r] + w.partial[r]
      ensures w.nodesShown[r] <= w.nodes[r] <= 32 && w.linksShown[r] <= w.links[r] <= 32
    {
      WeightBoundAt(routes, st, r);
    }
  }

  lemma ResultRecounted(routes: seq<Route>, st: State, g: nat)
    requires Fit(routes, st.accepted)
    ensures var p, n := PartsOf(routes, st), |routes|;
            var c := CountsFor(Owners(routes), WeightsOf(routes, st.accepted, p.shown), g, n);
            var listed := ShownRoutes(routes, st.accepted, p.shown, p.keys, n);
            && c.routes.displayed == Listed(listed, ListedRoutes, g) && c.routes.complete == Listed(listed, ListedComplete, g)
            && c.routes.partial == Listed(listed, ListedPartial, g) && c.nodes.displayed == Listed(listed, ListedNodes, g)
            && c.links.displayed == Listed(listed, ListedLinks, g)
  {
    var p, n := PartsOf(routes, st), |routes|;
    var w := WeightsOf(routes, st.accepted, p.shown);
    WeightsAreMeasures(routes, st);
    RecountAgrees(routes, st.accepted, p.shown, p.keys, w.shown, ListedRoutes, g, n);
    RecountAgrees(routes, st.accepted, p.shown, p.keys, w.complete, ListedComplete, g, n);
    RecountAgrees(routes, st.accepted, p.shown, p.keys, w.partial, ListedPartial, g, n);
    RecountAgrees(routes, st.accepted, p.shown, p.keys, w.nodesShown, ListedNodes, g, n);
    RecountAgrees(routes, st.accepted, p.shown, p.keys, w.linksShown, ListedLinks, g, n);
  }

  lemma ResultBounded(owners: seq<nat>, w: Weights, g: nat)
    requires WeightsOk(w, |owners|)
    ensures var c := CountsFor(owners, w, g, |owners|);
            RouteCountAccepted(c.routes) && CountAccepted(c.nodes, 8192) && CountAccepted(c.links, 16384)
  {
    var n := |owners|;
    SumsBelow(owners, w.shown, w.one, 1, g, n);
    SumsBelow(owners, w.nodesShown, w.nodes, 32, g, n);
    SumsBelow(owners, w.linksShown, w.links, 32, g, n);
    SumsAdd(owners, w.complete, w.partial, w.shown, g, n);
  }

  lemma ForeignCounts(owners: seq<nat>, w: Weights, g: nat)
    requires WeightsOk(w, |owners|) && g !in owners
    ensures CountsFor(owners, w, g, |owners|) == ResultCounts(RouteCount(0, 0, 0, 0, 0), Count(0, 0, 0), Count(0, 0, 0))
  {
    var n := |owners|;
    ForeignResult(owners, w.one, g, n);
    ForeignResult(owners, w.shown, g, n);
    ForeignResult(owners, w.complete, g, n);
    ForeignResult(owners, w.partial, g, n);
    ForeignResult(owners, w.nodes, g, n);
    ForeignResult(owners, w.nodesShown, g, n);
    ForeignResult(owners, w.links, g, n);
    ForeignResult(owners, w.linksShown, g, n);
  }

  lemma ResultAt(report: Report, st: State, includeGeo: bool, g: nat)
    requires Fit(report.routes, st.accepted) && g < |report.traceroute|
    ensures var t, p := Assemble(report, st, includeGeo), PartsOf(report.routes, st);
            && |t.results| == |report.traceroute|
            && t.results[g] == CountsFor(Owners(report.routes), WeightsOf(report.routes, st.accepted, p.shown), g, |report.routes|)
            && t.routes == ShownRoutes(report.routes, st.accepted, p.shown, p.keys, |report.routes|)
  {
    hide *;
    AssembledCounts(report, st, includeGeo);
  }

  /** The counts of one result are bounded, balanced, and equal to the browser's recount. */
  lemma ResultMeetsContract(report: Report, lim: Limits, st: State, includeGeo: bool, g: nat)
    requires Context(report, lim, st) && Fit(report.routes, st.accepted) && g < |report.traceroute|
    requires WeightsOk(WeightsOf(report.routes, st.accepted, PartsOf(report.routes, st).shown), |report.routes|)
    ensures g < |Assemble(report, st, includeGeo).results|
    ensures ResultAccepted(Assemble(report, st, includeGeo), g, report.traceroute[g])
  {
    ResultAt(report, st, includeGeo, g);
    ResultRecounted(report.routes, st, g);
    var w := WeightsOf(report.routes, st.accepted, PartsOf(report.routes, st).shown);
    ResultBounded(Owners(report.routes), w, g);
    if !report.traceroute[g] {
      assert g !in Owners(report.routes);
      ForeignCounts(Owners(report.routes), w, g);
    }
  }

  lemma {:induction false} ForeignResult(owners: seq<nat>, w: seq<nat>, g: nat, n: nat)
    requires |w| == |owners| && n <= |owners| && g !in owners
    ensures PerResult(owners, w, g, n) == 0
  {
    if n > 0 {
      ForeignResult(owners, w, g, n - 1);
    }
  }

  // ----- Sums over results -----

  /** The weights whose per-result sums a field reports: a total, or a total less what is displayed. */
  function PlusOf(f: Field, w: Weights): seq<nat> {
    match f
    case RoutesTotal | RoutesOmitted => w.one
    case RoutesDisplayed => w.shown
    case RoutesComplete => w.complete
    case RoutesPartial => w.partial
    case NodesTotal | NodesOmitted => w.nodes
    case NodesDisplayed => w.nodesShown
    case LinksTotal | LinksOmitted => w.links
    case LinksDisplayed => w.linksShown
  }

  function MinusOf(f: Field, w: Weights): seq<nat> {
    match f
    case RoutesOmitted => w.shown
    case NodesOmitted => w.nodesShown
    case LinksOmitted => w.linksShown
    case _ => seq(|w.one|, _ => 0)
  }

  lemma {:induction false} ZeroSums(owners: seq<nat>, g: nat, n: nat)
    requires n <= |owners|
    ensures PerResult(owners, seq(|owners|, _ => 0), g, n) == 0 && Total(seq(|owners|, _ => 0), n) == 0
  {
    if n > 0 {
      ZeroSums(owners, g, n - 1);
    }
  }

  lemma FieldOfCounts(owners: seq<nat>, w: Weights, g: nat, f: Field)
    requires Sized(w, |owners|)
    ensures f.Of(CountsFor(owners, w, g, |owners|)) ==
            PerResult(owners, PlusOf(f, w), g, |owners|) as int - PerResult(owners, MinusOf(f, w), g, |owners|)
  {
    ZeroSums(owners, g, |owners|);
  }

  lemma {:induction false} SumOfResults(owners: seq<nat>, w: Weights, results: seq<ResultCounts>, f: Field)
    requires Sized(w, |owners|)
    requires forall g :: 0 <= g < |results| ==> results[g] == CountsFor(owners, w, g, |owners|)
    ensures SumOf(results, f) ==
            SumResults(owners, PlusOf(f, w), |owners|, |results|) as int - SumResults(owners, MinusOf(f, w), |owners|, |results|)
  {
    if results != [] {
      var last := |results| - 1;
      SumOfResults(owners, w, results[..last], f);
      FieldOfCounts(owners, w, last, f);
    }
  }

  lemma SumMeets(owners: seq<nat>, w: Weights, results: seq<ResultCounts>, f: Field)
    requires Sized(w, |owners|) && forall r :: 0 <= r < |owners| ==> owners[r] < |results|
    requires forall g :: 0 <= g < |results| ==> results[g] == CountsFor(owners, w, g, |owners|)
    ensures SumOf(results, f) == Total(PlusOf(f, w), |owners|) as int - Total(MinusOf(f, w), |owners|)
  {
    hide CountsFor, SumOf, PlusOf, MinusOf, Total;
    SumOfResults(owners, w, results, f);
    FieldSized(f, w, |owners|);
    ResultsPartition(owners, PlusOf(f, w), |owners|, |results|);
    ResultsPartition(owners, MinusOf(f, w), |owners|, |results|);
  }

  lemma FieldSized(f: Field, w: Weights, n: nat)
    requires Sized(w, n)
    ensures |PlusOf(f, w)| == n == |MinusOf(f, w)|
  {
  }

  lemma FieldSums(report: Report, st: State, includeGeo: bool, f: Field)
    requires Fit(report.routes, st.accepted) && forall r :: 0 <= r < |report.routes| ==> report.routes[r].resultIndex < |report.traceroute|
    ensures var t := Assemble(report, st, includeGeo); SumOf(t.results, f) == f.Global(t.stats)
  {
    hide Assemble, PartsOf, WeightsOf, CountsFor, StatsOf, ShownRoutes, SumOf, PlusOf, MinusOf, Total;
    AssembledCounts(report, st, includeGeo);
    ListedCount(report.routes, st);
    var t, p := Assemble(report, st, includeGeo), PartsOf(report.routes, st);
    var w := WeightsOf(report.routes, st.accepted, p.shown);
    SumMeets(Owners(report.routes), w, t.results, f);
    GlobalField(report.routes, st.accepted, p.shown, |p.keys|, |p.edges|, f);
  }

  lemma SumsMeetContract(report: Report, lim: Limits, st: State, includeGeo: bool)
    requires Context(report, lim, st) && Fit(report.routes, st.accepted)
    ensures SumsAccepted(Assemble(report, st, includeGeo))
  {
    hide Assemble, SumOf;
    var t := Assemble(report, st, includeGeo);
    forall f: Field ensures SumOf(t.results, f) == f.Global(t.stats) {
      FieldSums(report, st, includeGeo, f);
    }
  }

  lemma GlobalField(routes: seq<Route>, accepted: seq<nat>, shown: seq<nat>, nodes: nat, links: nat, f: Field)
    requires Fit(routes, accepted) && |shown| == |routes|
    ensures var w, n := WeightsOf(routes, accepted, shown), |routes|;
            f.Global(StatsOf(routes, accepted, shown, nodes, links, Total(w.shown, n))) ==
              Total(PlusOf(f, w), n) as int - Total(MinusOf(f, w), n)
  {
    hide FullNodes, FullLinks, RouteLinks;
    var w, n := WeightsOf(routes, accepted, shown), |routes|;
    OnesTotal(w.one, n);
    NoTotal(n);
    hide WeightsOf, Total;
  }

  lemma NoTotal(n: nat)
    ensures Total(seq(n, _ => 0), n) == 0
  {
    ZeroSums(seq(n, _ => 0), 0, n);
  }

  lemma ListedCount(routes: seq<Route>, st: State)
    requires Fit(routes, st.accepted)
    ensures var p, n := PartsOf(routes, st), |routes|;
            |ShownRoutes(routes, st.accepted, p.shown, p.keys, n)| == Total(WeightsOf(routes, st.accepted, p.shown).shown, n)
  {
    var p, n := PartsOf(routes, st), |routes|;
    var w := WeightsOf(routes, st.accepted, p.shown);
    hide PartsOf, WeightsOf, ShownRoutes;
    WeightsAreMeasures(routes, st);
    RecountAgrees(routes, st.accepted, p.shown, p.keys, w.shown, ListedRoutes, 0, n);
    TallyOne(ShownRoutes(routes, st.accepted, p.shown, p.keys, n));
  }

  lemma {:induction false} TallyOne(listed: seq<Shortened>)
    ensures Tally(listed, ListedRoutes) == |listed|
  {
    if listed != [] {
      TallyOne(listed[..|listed| - 1]);
    }
  }

  lemma {:induction false} OnesTotal(w: seq<nat>, n: nat)
    requires n <= |w| && forall i :: 0 <= i < |w| ==> w[i] == 1
    ensures Total(w, n) == n
  {
    if n > 0 {
      OnesTotal(w, n - 1);
    }
  }

  // ----- Global statistics -----

  lemma {:induction false} FullNodesBounded(routes: seq<Route>, n: nat)
    requires n <= |routes| && AllBounds(routes)
    ensures |FullNodes(routes, n)| <= 32 * n
  {
    if n > 0 {
      FullNodesBounded(routes, n - 1);
      var route := routes[n - 1];
      assert RouteBounds(route);
      NodesWithinHops(route.nodes, |route.nodes|);
      ElementsSize(route.Path().keys);
      UnionSize(FullNodes(routes, n - 1), Elements(route.Path().keys));
    }
  }

  lemma {:induction false} InFullNodes(routes: seq<Route>, n: nat, r: nat, j: nat)
    requires r < n <= |routes| && j < |routes[r].nodes|
    ensures routes[r].nodes[j].key in FullNodes(routes, n)
  {
    if r < n - 1 {
      InFullNodes(routes, n - 1, r, j);
    } else {
      assert routes[r].Path().keys[j] in Elements(routes[r].Path().keys);
    }
  }

  lemma {:induction false} ElementsSize<T>(s: seq<T>)
    ensures |Elements(s)| <= |s|
  {
    if s != [] {
      var front := s[..|s| - 1];
      ElementsSize(front);
      assert Elements(s) == Elements(front) + {s[|s| - 1]};
      UnionSize(Elements(front), {s[|s| - 1]});
    }
  }

  lemma UnionSize<T>(a: set<T>, b: set<T>)
    ensures |a + b| <= |a| + |b|
  {
    assert |a + b| + |a * b| == |a| + |b|;
  }

  lemma EdgeSetFacts(route: Route, e: Edge)
    requires |route.edgeStatuses| == route.Path().Edges()
    ensures var links := RouteLinks(route, route.Path().Edges());
            |RouteEdgeSet(route)| <= |links| && (LinkOccurs(links, e) ==> e in RouteEdgeSet(route))
  {
    var links := RouteLinks(route, route.Path().Edges());
    forall x | x in RouteEdgeSet(route)
      ensures x in Elements(EdgesOf(links))
    {
      var q :| q in links && q.0 == x;
      var i :| 0 <= i < |links| && links[i] == q;
      assert EdgesOf(links)[i] == x;
    }
    ElementsSize(EdgesOf(links));
    SubsetSize(RouteEdgeSet(route), Elements(EdgesOf(links)));
  }

  lemma RouteEdgesBounded(route: Route)
    requires RouteBounds(route)
    ensures |RouteEdgeSet(route)| <= 32
  {
    NodesWithinHops(route.nodes, |route.nodes|);
    RouteLinkFacts(route, route.Path().Edges(), Edge(Local, Local));
    EdgeSetFacts(route, Edge(Local, Local));
  }

  lemma NoFullLinks(routes: seq<Route>, accepted: seq<nat>)
    requires Fit(routes, accepted)
    ensures FullLinks(routes, accepted, 0) == {}
  {
  }

  lemma FullLinksStep(routes: seq<Route>, accepted: seq<nat>, n: nat)
    requires Fit(routes, accepted) && 0 < n <= |routes|
    ensures |FullLinks(routes, accepted, n)| <= |FullLinks(routes, accepted, n - 1)| + |RouteEdgeSet(routes[n - 1])|
  {
    hide RouteEdgeSet, RouteLinks;
    UnionSize(FullLinks(routes, accepted, n - 1), RouteEdgeSet(routes[n - 1]));
  }

  lemma {:induction false} FullLinksBounded(routes: seq<Route>, accepted: seq<nat>, n: nat)
    requires Fit(routes, accepted) && n <= |routes| && AllBounds(routes)
    ensures |FullLinks(routes, accepted, n)| <= 32 * n
  {
    hide Fit, RouteEdgeSet, RouteLinks, RouteBounds, FullLinks;
    if n > 0 {
      FullLinksBounded(routes, accepted, n - 1);
      assert RouteBounds(routes[n - 1]);
      hide AllBounds;
      RouteEdgesBounded(routes[n - 1]);
      FullLinksStep(routes, accepted, n);
    } else {
      NoFullLinks(routes, accepted);
    }
  }

  lemma {:induction false} InFullLinks(routes: seq<Route>, accepted: seq<nat>, n: nat, r: nat, e: Edge)
    requires Fit(routes, accepted) && r < n <= |routes|
    requires LinkOccurs(RouteLinks(routes[r], routes[r].Path().Edges()), e)
    ensures e in FullLinks(routes, accepted, n)
  {
    if r < n - 1 {
      InFullLinks(routes, accepted, n - 1, r, e);
    } else {
      EdgeSetFacts(routes[r], e);
    }
  }

  lemma NodeTotals(report: Report, lim: Limits, st: State)
    requires Context(report, lim, st) && Fit(report.routes, st.accepted)
    ensures |PartsOf(report.routes, st).keys| <= |FullNodes(report.routes, |report.routes|)| <= 6400
  {
    ContextFacts(report, lim, st);
    var routes, p, n := report.routes, PartsOf(report.routes, st), |report.routes|;
    FullNodesBounded(routes, n);
    forall key | key in Elements(p.keys)
      ensures key in FullNodes(routes, n)
    {
      PartsFacts(report, lim, st, key);
      var r, j :| ShownAt(routes, p.shown, n, r, j, key);
      InFullNodes(routes, n, r, j);
    }
    DistinctSize(p.keys);
    SubsetSize(Elements(p.keys), FullNodes(routes, n));
  }

  lemma LinkTotals(report: Report, lim: Limits, st: State)
    requires Context(report, lim, st) && Fit(report.routes, st.accepted)
    ensures |PartsOf(report.routes, st).edges| <= |FullLinks(report.routes, st.accepted, |report.routes|)| <= 6400
  {
    ContextFacts(report, lim, st);
    var routes, p, n := report.routes, PartsOf(report.routes, st), |report.routes|;
    FullLinksBounded(routes, st.accepted, n);
    forall e | e in Elements(p.edges)
      ensures e in FullLinks(routes, st.accepted, n)
    {
      LinkSome(p.links, e);
      SeenLinkFacts(routes, st.accepted, n, e);
      var r :| 0 <= r < n && LinkOccurs(RouteLinks(routes[r], st.accepted[r]), e);
      RouteLinkFacts(routes[r], st.accepted[r], e);
      RouteLinkFacts(routes[r], routes[r].Path().Edges(), e);
      var i :| EdgeWithin(routes[r], st.accepted[r], i, e);
      assert EdgeWithin(routes[r], routes[r].Path().Edges(), i, e);
      InFullLinks(routes, st.accepted, n, r, e);
    }
    EdgesBounded(report, lim, st);
    DistinctSize(p.edges);
    SubsetSize(Elements(p.edges), FullLinks(routes, st.accepted, n));
  }

  lemma {:induction false} ObservationsAreMultiplicities(keys: seq<NodeKey>, edges: seq<Edge>, seen: seq<(Edge, Status)>)
    requires forall e :: e in edges ==> LinkOf(seen, e).Some?
    ensures LinkObservations(Links(keys, edges, seen)) == Multiplicities(edges, multiset(EdgesOf(seen)))
  {
    if edges != [] {
      var front := edges[..|edges| - 1];
      ObservationsAreMultiplicities(keys, front, seen);
      LinkCounts(seen, edges[|edges| - 1]);
      var links := Links(keys, edges, seen);
      assert links[..|links| - 1] == Links(keys, front, seen);
    }
  }

  lemma {:induction false} SeenLinksTotal(routes: seq<Route>, accepted: seq<nat>, w: seq<nat>, n: nat)
    requires Fit(routes, accepted) && n <= |routes| == |w|
    requires forall r :: 0 <= r < |routes| ==> w[r] == |RouteLinks(routes[r], accepted[r])|
    ensures |SeenLinks(routes, accepted, n)| == Total(w, n)
  {
    if n > 0 {
      SeenLinksTotal(routes, accepted, w, n - 1);
    }
  }

  /** Every accepted edge is counted on exactly one listed link. */
  lemma LinkObservationsMeet(report: Report, lim: Limits, st: State, includeGeo: bool)
    requires Context(report, lim, st) && Fit(report.routes, st.accepted)
    ensures LinkObservations(Assemble(report, st, includeGeo).links) ==
            Total(WeightsOf(report.routes, st.accepted, PartsOf(report.routes, st).shown).linksShown, |report.routes|)
  {
    var p := PartsOf(report.routes, st);
    EdgesBounded(report, lim, st);
    ObservationsAreMultiplicities(p.keys, p.edges, p.links);
    forall e | e in multiset(EdgesOf(p.links))
      ensures e in p.edges
    {
      LinkCounts(p.links, e);
      LinkedPairs(report, lim, st, e);
    }
    CoverSize(p.edges, multiset(EdgesOf(p.links)));
    SeenLinksTotal(report.routes, st.accepted, WeightsOf(report.routes, st.accepted, p.shown).linksShown, |report.routes|);
  }

  lemma StatsMeetContract(report: Report, lim: Limits, st: State, includeGeo: bool)
    requires Context(report, lim, st) && Fit(report.routes, st.accepted)
    ensures StatsAccepted(Assemble(report, st, includeGeo))
  {
    ContextFacts(report, lim, st);
    var routes, p, n := report.routes, PartsOf(report.routes, st), |report.routes|;
    var w := WeightsOf(routes, st.accepted, p.shown);
    WeightBounds(routes, st);
    NodeTotals(report, lim, st);
    LinkTotals(report, lim, st);
    LinkObservationsMeet(report, lim, st, includeGeo);
    GlobalRoutes(routes, st);
    SumsBelow(Owners(routes), w.nodesShown, w.nodes, 32, 0, n);
    SumsBelow(Owners(routes), w.linksShown, w.links, 32, 0, n);
  }

  lemma GlobalRoutes(routes: seq<Route>, st: State)
    requires Fit(routes, st.accepted) && |routes| <= 200
    requires WeightsOk(WeightsOf(routes, st.accepted, PartsOf(routes, st).shown), |routes|)
    ensures var p, n := PartsOf(routes, st), |routes|;
            var w, listed := WeightsOf(routes, st.accepted, p.shown), ShownRoutes(routes, st.accepted, p.shown, p.keys, n);
            && Total(w.complete, n) == Tally(listed, ListedComplete) && Total(w.partial, n) == Tally(listed, ListedPartial)
            && |listed| == Total(w.complete, n) + Total(w.partial, n) && |listed| <= n
  {
    var p, n := PartsOf(routes, st), |routes|;
    var w := WeightsOf(routes, st.accepted, p.shown);
    WeightsAreMeasures(routes, st);
    RecountAgrees(routes, st.accepted, p.shown, p.keys, w.shown, ListedRoutes, 0, n);
    RecountAgrees(routes, st.accepted, p.shown, p.keys, w.complete, ListedComplete, 0, n);
    RecountAgrees(routes, st.accepted, p.shown, p.keys, w.partial, ListedPartial, 0, n);
    TallyOne(ShownRoutes(routes, st.accepted, p.shown, p.keys, n));
    SumsAdd(Owners(routes), w.complete, w.partial, w.shown, 0, n);
  }

  // ----- Geo and truncation -----

  lemma {:induction false} GeoRecounted(keys: seq<NodeKey>, seen: seq<(NodeKey, Raw)>, includeGeo: bool, n: nat)
    requires n <= |keys| && forall k :: k in keys ==> NodeOf(seen, k).Some?
    ensures var g, nodes := GeoOf(keys, seen, includeGeo, n), Nodes(keys, seen, includeGeo);
            && g.eligible == PublicNodes(nodes, n, false) && g.included == PublicNodes(nodes, n, true)
            && g.eligible == g.available + g.unavailable && g.available == g.included + g.omitted && g.eligible <= n
  {
    if n > 0 {
      GeoRecounted(keys, seen, includeGeo, n - 1);
    }
  }

  lemma GeoMeetsContract(report: Report, lim: Limits, st: State, includeGeo: bool)
    requires Context(report, lim, st) && Fit(report.routes, st.accepted)
    ensures GeoAccepted(Assemble(report, st, includeGeo))
  {
    ContextFacts(report, lim, st);
    var p := PartsOf(report.routes, st);
    GeoRecounted(p.keys, p.seen, includeGeo, |p.keys|);
  }

  lemma ResultsMeetContract(report: Report, lim: Limits, st: State, includeGeo: bool)
    requires Context(report, lim, st) && Fit(report.routes, st.accepted)
    ensures ResultsAccepted(Assemble(report, st, includeGeo), report.traceroute)
  {
    ContextFacts(report, lim, st);
    WeightBounds(report.routes, st);
    forall g | 0 <= g < |report.traceroute|
      ensures ResultAccepted(Assemble(report, st, includeGeo), g, report.traceroute[g])
    {
      ResultMeetsContract(report, lim, st, includeGeo, g);
    }
  }

  lemma ReasonsMeetContract(report: Report, st: State, includeGeo: bool)
    requires Fit(report.routes, st.accepted)
    ensures ReasonsAccepted(Assemble(report, st, includeGeo))
  {
    hide Assemble, PartsOf, GeoOf;
    Assembled(report, st, includeGeo);
  }

  lemma SelectedContext(report: Report, lim: Limits)
    requires Bounds(report) && 1 <= lim.maxNodes <= 500 && lim.maxLinks <= 1000
    ensures Context(report, lim, SelectionOf(report, lim))
  {
  }

  lemma WholeContract(report: Report, lim: Limits, st: State, includeGeo: bool)
    requires Context(report, lim, st)
    ensures Fit(report.routes, st.accepted) && Accepted(Assemble(report, st, includeGeo), report.traceroute)
  {
    hide Assemble, Fit, Context, AllBounds, Closed, Distinct, NodesAccepted, LinksAccepted, RoutesAccepted, StatsAccepted, ResultsAccepted,
         SumsAccepted, GeoAccepted, ReasonsAccepted;
    ContextFacts(report, lim, st);
    NodesMeetContract(report, lim, st, includeGeo);
    LinksMeetContract(report, lim, st, includeGeo);
    RoutesMeetContract(report, lim, st, includeGeo);
    StatsMeetContract(report, lim, st, includeGeo);
    ResultsMeetContract(report, lim, st, includeGeo);
    SumsMeetContract(report, lim, st, includeGeo);
    GeoMeetsContract(report, lim, st, includeGeo);
    ReasonsMeetContract(report, st, includeGeo);
  }

  /** The whole contract: whatever the report within its bounds, whatever the transaction limit, with or
      without Geo, the browser accepts the topology the server assembles. */
  lemma ProducerMeetsConsumer(report: Report, lim: Limits, includeGeo: bool)
    requires Bounds(report) && 1 <= lim.maxNodes <= 500 && lim.maxLinks <= 1000
    ensures Fit(report.routes, SelectionOf(report, lim).accepted)
    ensures Accepted(Assemble(report, SelectionOf(report, lim), includeGeo), report.traceroute)
  {
    var st := SelectionOf(report, lim);
    SelectedContext(report, lim);
    WholeContract(report, lim, st, includeGeo);
  }
}
