/** The loops of buildCompactTopology, each proved to compute its part of the specified topology. */
module CompactBuilder {
  import opened Text
  import opened CompactSelection
  import opened CompactTopology
  import opened CompactProducer
  import CompactConsumer
  import CompactContract

  method CountShown(routes: seq<Route>, accepted: seq<nat>, selected: set<NodeKey>) returns (shown: seq<nat>)
    requires Fit(routes, accepted)
    ensures shown == ShownAll(routes, accepted, selected)
  {
    shown := [];
    for r := 0 to |routes|
      invariant |shown| == r && forall i :: 0 <= i < r ==> shown[i] == Shown(routes[i], accepted[i], selected)
    {
      var nodeCount := 0;
      if accepted[r] > 0 {
        nodeCount := accepted[r] + 1;
      } else if accepted[r] == routes[r].Path().Edges() && |routes[r].nodes| == 1 {
        if routes[r].nodes[0].key in selected {
          nodeCount := 1;
        }
      }
      shown := shown + [nodeCount];
    }
  }

  ghost predicate NodeMap(m: map<NodeKey, NodeAgg>, seen: seq<(NodeKey, Raw)>) {
    forall k :: (k in m <==> NodeOf(seen, k).Some?) && (k in m ==> m[k] == NodeOf(seen, k).value)
  }

  ghost predicate LinkMap(m: map<Edge, LinkAgg>, seen: seq<(Edge, Status)>) {
    forall e :: (e in m <==> LinkOf(seen, e).Some?) && (e in m ==> m[e] == LinkOf(seen, e).value)
  }

  lemma NodeStep(seen: seq<(NodeKey, Raw)>, key: NodeKey, raw: Raw, k: NodeKey)
    ensures NodeOf(seen + [(key, raw)], k) == if k == key then Some(Observe(NodeOf(seen, k), raw)) else NodeOf(seen, k)
  {
    assert (seen + [(key, raw)])[..|seen|] == seen;
  }

  lemma LinkStep(seen: seq<(Edge, Status)>, edge: Edge, status: Status, e: Edge)
    ensures LinkOf(seen + [(edge, status)], e) == if e == edge then Some(ObserveLink(LinkOf(seen, e), status)) else LinkOf(seen, e)
  {
    assert (seen + [(edge, status)])[..|seen|] == seen;
  }

  /** One shown observation: every raw hop behind it joins the aggregate of its key. */
  method AddObservation(aggs: map<NodeKey, NodeAgg>, o: Observation, ghost seen: seq<(NodeKey, Raw)>)
    returns (aggs': map<NodeKey, NodeAgg>)
    requires NodeMap(aggs, seen)
    ensures NodeMap(aggs', seen + Tagged(o, |o.raws|))
  {
    aggs' := aggs;
    assert seen + Tagged(o, 0) == seen;
    for i := 0 to |o.raws|
      invariant NodeMap(aggs', seen + Tagged(o, i))
    {
      var raw := o.raws[i];
      ghost var before := seen + Tagged(o, i);
      forall k
        ensures NodeOf(before + [(o.key, raw)], k) == if k == o.key then Some(Observe(NodeOf(before, k), raw)) else NodeOf(before, k)
      {
        NodeStep(before, o.key, raw, k);
      }
      assert seen + Tagged(o, i + 1) == before + [(o.key, raw)];
      if o.key !in aggs' {
        aggs' := aggs'[o.key := NodeAgg(raw.status, raw.hop, raw.hop, 1, raw.publicIP, raw.geo)];
      } else {
        var a := aggs'[o.key];
        var status := if raw.status.Rank() > a.status.Rank() then raw.status else a.status;
        var hopMin := if raw.hop < a.hopMin then raw.hop else a.hopMin;
        var hopMax := if raw.hop > a.hopMax then raw.hop else a.hopMax;
        var geo := if a.geo == None then raw.geo else a.geo;
        aggs' := aggs'[o.key := NodeAgg(status, hopMin, hopMax, a.observations + 1, a.publicIP || raw.publicIP, geo)];
      }
    }
  }

  method AggregateNodes(routes: seq<Route>, shown: seq<nat>) returns (aggs: map<NodeKey, NodeAgg>)
    requires |shown| == |routes| && forall r :: 0 <= r < |routes| ==> shown[r] <= |routes[r].nodes|
    ensures NodeMap(aggs, SeenNodes(routes, shown, |routes|))
  {
    aggs := map[];
    for r := 0 to |routes|
      invariant NodeMap(aggs, SeenNodes(routes, shown, r))
    {
      var nodes := routes[r].nodes;
      ghost var before := SeenNodes(routes, shown, r);
      assert before + Flatten(nodes[..0]) == before;
      for i := 0 to shown[r]
        invariant NodeMap(aggs, before + Flatten(nodes[..i]))
      {
        aggs := AddObservation(aggs, nodes[i], before + Flatten(nodes[..i]));
        assert nodes[..i + 1][..i] == nodes[..i];
        assert before + Flatten(nodes[..i + 1]) == before + Flatten(nodes[..i]) + Tagged(nodes[i], |nodes[i].raws|);
      }
    }
  }

  method AggregateLinks(routes: seq<Route>, accepted: seq<nat>) returns (aggs: map<Edge, LinkAgg>)
    requires Fit(routes, accepted)
    ensures LinkMap(aggs, SeenLinks(routes, accepted, |routes|))
  {
    aggs := map[];
    for r := 0 to |routes|
      invariant LinkMap(aggs, SeenLinks(routes, accepted, r))
    {
      var route := routes[r];
      ghost var before := SeenLinks(routes, accepted, r);
      assert before + RouteLinks(route, 0) == before;
      for i := 0 to accepted[r]
        invariant LinkMap(aggs, before + RouteLinks(route, i))
      {
        var edge, status := route.Path().EdgeAt(i), route.edgeStatuses[i];
        ghost var seen := before + RouteLinks(route, i);
        assert before + RouteLinks(route, i + 1) == seen + (if edge.from != edge.to then [(edge, status)] else []);
        if edge.from != edge.to {
          forall e
            ensures LinkOf(seen + [(edge, status)], e) == if e == edge then Some(ObserveLink(LinkOf(seen, e), status)) else LinkOf(seen, e)
          {
            LinkStep(seen, edge, status, e);
          }
          if edge !in aggs {
            aggs := aggs[edge := LinkAgg(status, 1)];
          } else {
            var worst := if status.Rank() > aggs[edge].status.Rank() then status else aggs[edge].status;
            aggs := aggs[edge := LinkAgg(worst, aggs[edge].observations + 1)];
          }
        }
      }
    }
  }

  lemma KeptStep(order: seq<NodeKey>, i: nat, seen: seq<(NodeKey, Raw)>)
    requires i < |order|
    ensures KeptKeys(order[..i + 1], seen) ==
            KeptKeys(order[..i], seen) + (if NodeOf(seen, order[i]).Some? then [order[i]] else [])
  {
    assert order[..i + 1][..i] == order[..i];
  }

  lemma IdStep(keys: seq<NodeKey>, key: NodeKey, k: NodeKey)
    ensures IdOf(keys + [key], k) == if k == key then |keys| + 1 else IdOf(keys, k)
  {
    assert (keys + [key])[..|keys|] == keys;
  }

  method DecideGeo(a: NodeAgg, includeGeo: bool, geo: GeoCounts, limited: bool)
    returns (geo': GeoCounts, limited': bool, carried: Option<Geo>)
    requires limited == (geo.omitted > 0)
    ensures geo' == CountGeo(geo, a, includeGeo) && limited' == (geo'.omitted > 0)
    ensures carried == if Carried(a, includeGeo) then a.geo else None
  {
    geo', limited', carried := geo, limited, None;
    if a.publicIP {
      geo' := geo'.(eligible := geo'.eligible + 1);
      if a.geo.Some? {
        if !a.geo.value.valid {
          geo' := geo'.(unavailable := geo'.unavailable + 1);
        } else if includeGeo && a.geo.value.bytes <= MAX_GEO_BYTES {
          geo' := geo'.(available := geo'.available + 1, included := geo'.included + 1);
          carried := a.geo;
        } else {
          geo' := geo'.(available := geo'.available + 1, omitted := geo'.omitted + 1);
          limited' := true;
        }
      } else {
        geo' := geo'.(unavailable := geo'.unavailable + 1);
      }
    }
  }

  ghost predicate Numbered(nodes: seq<Node>, keys: seq<NodeKey>, includeGeo: bool, seen: seq<(NodeKey, Raw)>) {
    && |nodes| == |keys|
    && (forall j :: 0 <= j < |keys| ==> NodeOf(seen, keys[j]).Some?)
    && (forall j :: 0 <= j < |keys| ==> nodes[j] == NodeFor(j + 1, keys[j], NodeOf(seen, keys[j]).value, includeGeo))
  }

  ghost predicate Identifies(ids: map<NodeKey, nat>, keys: seq<NodeKey>) {
    forall k :: (k in ids <==> k in keys) && (k in ids ==> ids[k] == IdOf(keys, k))
  }

  lemma IdentifiesNext(ids: map<NodeKey, nat>, keys: seq<NodeKey>, key: NodeKey)
    requires Identifies(ids, keys)
    ensures Identifies(ids[key := |keys| + 1], keys + [key])
  {
    forall k
      ensures IdOf(keys + [key], k) == if k == key then |keys| + 1 else IdOf(keys, k)
    {
      IdStep(keys, key, k);
    }
  }

  /** The next selected key takes the next ID and its Geo decision is counted. */
  method NumberKey(order: seq<NodeKey>, i: nat, a: NodeAgg, includeGeo: bool, ghost seen: seq<(NodeKey, Raw)>,
                   nodes: seq<Node>, ids: map<NodeKey, nat>, geo: GeoCounts, limited: bool, ghost keys: seq<NodeKey>)
    returns (nodes': seq<Node>, ids': map<NodeKey, nat>, geo': GeoCounts, limited': bool)
    requires i < |order| && NodeOf(seen, order[i]) == Some(a)
    requires Progress(order[..i], seen, includeGeo, keys, nodes, ids, geo) && limited == (geo.omitted > 0)
    ensures Progress(order[..i + 1], seen, includeGeo, keys + [order[i]], nodes', ids', geo') && limited' == (geo'.omitted > 0)
  {
    var id := |nodes| + 1;
    var carried;
    geo', limited', carried := DecideGeo(a, includeGeo, geo, limited);
    var node := CompactTopology.Node(id, order[i], a.status, a.hopMin, a.hopMax, a.observations, a.publicIP, carried);
    Advance(order, i, seen, includeGeo, keys, nodes, ids, geo, node);
    ids' := ids[order[i] := id];
    nodes' := nodes + [node];
  }

  /** Nodes are numbered in selection order, skipping selected keys nothing shown refers to. */
  method NumberNodes(order: seq<NodeKey>, aggs: map<NodeKey, NodeAgg>, includeGeo: bool, ghost seen: seq<(NodeKey, Raw)>)
    returns (nodes: seq<Node>, ids: map<NodeKey, nat>, geo: GeoCounts, geoLimited: bool, ghost keys: seq<NodeKey>)
    requires NodeMap(aggs, seen)
    ensures keys == KeptKeys(order, seen) && nodes == Nodes(keys, seen, includeGeo)
    ensures geo == GeoOf(keys, seen, includeGeo, |keys|) && geoLimited == (geo.omitted > 0)
    ensures Identifies(ids, keys)
  {
    nodes, ids, geo, geoLimited, keys := [], map[], GeoCounts(0, 0, 0, 0, 0), false, [];
    for i := 0 to |order|
      invariant Progress(order[..i], seen, includeGeo, keys, nodes, ids, geo)
      invariant geoLimited == (geo.omitted > 0)
    {
      if order[i] in aggs {
        nodes, ids, geo, geoLimited := NumberKey(order, i, aggs[order[i]], includeGeo, seen, nodes, ids, geo, geoLimited, keys);
        keys := keys + [order[i]];
      } else {
        Skip(order, i, seen, includeGeo, keys, nodes, ids, geo);
      }
    }
    Finish(order, seen, includeGeo, keys, nodes, ids, geo);
  }

  /** The numbering after some of the order has been walked. */
  ghost predicate Progress(walked: seq<NodeKey>, seen: seq<(NodeKey, Raw)>, includeGeo: bool, keys: seq<NodeKey>,
                           nodes: seq<Node>, ids: map<NodeKey, nat>, geo: GeoCounts)
  {
    && keys == KeptKeys(walked, seen) && Numbered(nodes, keys, includeGeo, seen) && Identifies(ids, keys)
    && geo == GeoOf(keys, seen, includeGeo, |keys|)
  }

  lemma Advance(order: seq<NodeKey>, i: nat, seen: seq<(NodeKey, Raw)>, includeGeo: bool, keys: seq<NodeKey>,
                nodes: seq<Node>, ids: map<NodeKey, nat>, geo: GeoCounts, node: Node)
    requires i < |order| && Progress(order[..i], seen, includeGeo, keys, nodes, ids, geo)
    requires NodeOf(seen, order[i]).Some? && node == NodeFor(|nodes| + 1, order[i], NodeOf(seen, order[i]).value, includeGeo)
    ensures Progress(order[..i + 1], seen, includeGeo, keys + [order[i]], nodes + [node], ids[order[i] := |nodes| + 1],
                     CountGeo(geo, NodeOf(seen, order[i]).value, includeGeo))
  {
    KeptStep(order, i, seen);
    GeoPrefix(keys, order[i], seen, includeGeo);
    IdentifiesNext(ids, keys, order[i]);
    NumberedNext(nodes, keys, includeGeo, seen, order[i], node);
  }

  lemma Skip(order: seq<NodeKey>, i: nat, seen: seq<(NodeKey, Raw)>, includeGeo: bool, keys: seq<NodeKey>,
             nodes: seq<Node>, ids: map<NodeKey, nat>, geo: GeoCounts)
    requires i < |order| && Progress(order[..i], seen, includeGeo, keys, nodes, ids, geo) && NodeOf(seen, order[i]).None?
    ensures Progress(order[..i + 1], seen, includeGeo, keys, nodes, ids, geo)
  {
    KeptStep(order, i, seen);
  }

  lemma Finish(order: seq<NodeKey>, seen: seq<(NodeKey, Raw)>, includeGeo: bool, keys: seq<NodeKey>,
               nodes: seq<Node>, ids: map<NodeKey, nat>, geo: GeoCounts)
    requires Progress(order[..|order|], seen, includeGeo, keys, nodes, ids, geo)
    ensures keys == KeptKeys(order, seen) && nodes == Nodes(keys, seen, includeGeo) && Identifies(ids, keys)
    ensures geo == GeoOf(keys, seen, includeGeo, |keys|)
  {
    assert order[..|order|] == order;
    NumberedIsNodes(nodes, keys, includeGeo, seen);
  }

  lemma NumberedNext(nodes: seq<Node>, keys: seq<NodeKey>, includeGeo: bool, seen: seq<(NodeKey, Raw)>, key: NodeKey, node: Node)
    requires Numbered(nodes, keys, includeGeo, seen) && NodeOf(seen, key).Some?
    requires node == NodeFor(|keys| + 1, key, NodeOf(seen, key).value, includeGeo)
    ensures Numbered(nodes + [node], keys + [key], includeGeo, seen)
  {
  }

  lemma NumberedIsNodes(nodes: seq<Node>, keys: seq<NodeKey>, includeGeo: bool, seen: seq<(NodeKey, Raw)>)
    requires Numbered(nodes, keys, includeGeo, seen)
    ensures forall k :: k in keys ==> NodeOf(seen, k).Some?
    ensures nodes == Nodes(keys, seen, includeGeo)
  {
  }

  lemma GeoPrefix(keys: seq<NodeKey>, key: NodeKey, seen: seq<(NodeKey, Raw)>, includeGeo: bool)
    requires NodeOf(seen, key).Some? && forall k :: k in keys ==> NodeOf(seen, k).Some?
    ensures forall k :: k in keys + [key] ==> NodeOf(seen, k).Some?
    ensures GeoOf(keys + [key], seen, includeGeo, |keys| + 1) ==
            CountGeo(GeoOf(keys, seen, includeGeo, |keys|), NodeOf(seen, key).value, includeGeo)
  {
    GeoSame(keys, keys + [key], seen, includeGeo, |keys|);
  }

  lemma {:induction false} GeoSame(a: seq<NodeKey>, b: seq<NodeKey>, seen: seq<(NodeKey, Raw)>, includeGeo: bool, n: nat)
    requires a <= b && n <= |a|
    requires (forall k :: k in a ==> NodeOf(seen, k).Some?) && (forall k :: k in b ==> NodeOf(seen, k).Some?)
    ensures GeoOf(a, seen, includeGeo, n) == GeoOf(b, seen, includeGeo, n)
  {
    if n > 0 {
      GeoSame(a, b, seen, includeGeo, n - 1);
    }
  }

  ghost predicate Linked(links: seq<Link>, edges: seq<Edge>, keys: seq<NodeKey>, seen: seq<(Edge, Status)>) {
    && |links| == |edges|
    && (forall j :: 0 <= j < |edges| ==> LinkOf(seen, edges[j]).Some?)
    && (forall j :: 0 <= j < |edges| ==> links[j] == LinkFor(keys, edges[j], LinkOf(seen, edges[j]).value))
  }

  method LinksFrom(from: NodeKey, order: seq<NodeKey>, aggs: map<Edge, LinkAgg>, ids: map<NodeKey, nat>,
                   ghost keys: seq<NodeKey>, ghost seen: seq<(Edge, Status)>)
    returns (links: seq<Link>, edges: seq<Edge>)
    requires LinkMap(aggs, seen) && Identifies(ids, keys)
    requires forall e :: LinkOf(seen, e).Some? ==> e.from in keys && e.to in keys
    ensures edges == EdgesFrom(from, order, |order|, seen) && Linked(links, edges, keys, seen)
  {
    links, edges := [], [];
    for k := 0 to |order|
      invariant edges == EdgesFrom(from, order, k, seen) && Linked(links, edges, keys, seen)
    {
      var edge := Edge(from, order[k]);
      if edge in aggs {
        edges := edges + [edge];
        links := links + [CompactTopology.Link(ids[from], ids[order[k]], aggs[edge].status, aggs[edge].observations)];
      }
    }
  }

  /** Links are listed in selection order of their two ends. */
  method ListLinks(order: seq<NodeKey>, aggs: map<Edge, LinkAgg>, ids: map<NodeKey, nat>, ghost keys: seq<NodeKey>,
                   ghost seen: seq<(Edge, Status)>)
    returns (links: seq<Link>, edges: seq<Edge>)
    requires LinkMap(aggs, seen) && Identifies(ids, keys)
    requires forall e :: LinkOf(seen, e).Some? ==> e.from in keys && e.to in keys
    ensures edges == EdgeList(order, |order|, seen) && links == Links(keys, edges, seen)
  {
    links, edges := [], [];
    for i := 0 to |order|
      invariant edges == EdgeList(order, i, seen) && Linked(links, edges, keys, seen)
    {
      var out, more := LinksFrom(order[i], order, aggs, ids, keys, seen);
      LinkedAppend(links, edges, out, more, keys, seen);
      EdgeListStep(order, i, seen);
      links, edges := links + out, edges + more;
    }
    LinkedIsLinks(links, edges, keys, seen);
  }

  lemma EdgeListStep(order: seq<NodeKey>, i: nat, seen: seq<(Edge, Status)>)
    requires i < |order|
    ensures EdgeList(order, i + 1, seen) == EdgeList(order, i, seen) + EdgesFrom(order[i], order, |order|, seen)
  {
  }

  lemma LinkedAppend(links: seq<Link>, edges: seq<Edge>, out: seq<Link>, more: seq<Edge>, keys: seq<NodeKey>, seen: seq<(Edge, Status)>)
    requires Linked(links, edges, keys, seen) && Linked(out, more, keys, seen)
    ensures Linked(links + out, edges + more, keys, seen)
  {
  }

  lemma LinkedIsLinks(links: seq<Link>, edges: seq<Edge>, keys: seq<NodeKey>, seen: seq<(Edge, Status)>)
    requires Linked(links, edges, keys, seen)
    ensures forall e :: e in edges ==> LinkOf(seen, e).Some?
    ensures links == Links(keys, edges, seen)
  {
  }

  /** Displayed routes keep only the IDs of their shown prefix. */
  method ListRoutes(routes: seq<Route>, accepted: seq<nat>, shown: seq<nat>, ids: map<NodeKey, nat>, ghost keys: seq<NodeKey>)
    returns (listed: seq<Shortened>)
    requires Fit(routes, accepted) && |shown| == |routes| && Identifies(ids, keys)
    requires forall r :: 0 <= r < |routes| ==> shown[r] <= |routes[r].nodes|
    requires forall r, j :: 0 <= r < |routes| && 0 <= j < shown[r] ==> routes[r].nodes[j].key in keys
    ensures listed == ShownRoutes(routes, accepted, shown, keys, |routes|)
  {
    listed := [];
    for r := 0 to |routes|
      invariant listed == ShownRoutes(routes, accepted, shown, keys, r)
    {
      if shown[r] > 0 {
        var route := routes[r];
        var nodeIDs := [];
        for i := 0 to shown[r]
          invariant |nodeIDs| == i && forall j :: 0 <= j < i ==> nodeIDs[j] == IdOf(keys, route.nodes[j].key)
        {
          nodeIDs := nodeIDs + [ids[route.nodes[i].key]];
        }
        listed := listed + [Shortened(route.resultIndex, route.attempt, route.status, route.reached,
                                      accepted[r] == route.Path().Edges(), nodeIDs)];
        assert listed[|listed| - 1] == Shorten(route, accepted[r], shown[r], keys);
      }
    }
  }

  /** The running per-result counts, route by route. */
  method AccountRoutes(routes: seq<Route>, accepted: seq<nat>, shown: seq<nat>, results: nat) returns (counts: seq<ResultCounts>)
    requires Fit(routes, accepted) && |shown| == |routes|
    requires forall r :: 0 <= r < |routes| ==> routes[r].resultIndex < results
    requires forall r :: 0 <= r < |routes| ==> shown[r] == 0 ==> accepted[r] == 0
    ensures |counts| == results
    ensures forall g :: 0 <= g < results ==>
              counts[g] == CountsFor(Owners(routes), WeightsOf(routes, accepted, shown), g, |routes|)
  {
    ghost var owners, w := Owners(routes), WeightsOf(routes, accepted, shown);
    counts := seq(results, _ => ResultCounts(RouteCount(0, 0, 0, 0, 0), Count(0, 0, 0), Count(0, 0, 0)));
    for r := 0 to |routes|
      invariant |counts| == results
      invariant forall g :: 0 <= g < results ==> counts[g] == CountsFor(owners, w, g, r)
    {
      var g := routes[r].resultIndex;
      var c := counts[g];
      var nodeTotal := |routes[r].nodes|;
      var linkTotal := CountLinks(routes[r], routes[r].Path().Edges());
      var nodeShown, linkShown, one, complete, partial := 0, 0, 0, 0, 0;
      if shown[r] > 0 {
        one, nodeShown := 1, shown[r];
        linkShown := CountLinks(routes[r], accepted[r]);
        if accepted[r] == routes[r].Path().Edges() {
          complete := 1;
        } else {
          partial := 1;
        }
      }
      c := AddCounts(c, one, complete, partial, nodeTotal, nodeShown, linkTotal, linkShown);
      CountsStep(owners, w, g, r);
      forall h | 0 <= h < results && h != g
        ensures CountsFor(owners, w, h, r + 1) == CountsFor(owners, w, h, r)
      {
        CountsStep(owners, w, h, r);
      }
      WeightsAt(routes, accepted, shown, r);
      counts := counts[g := c];
    }
  }

  function AddCounts(c: ResultCounts, one: nat, complete: nat, partial: nat, nodes: nat, nodesShown: nat, links: nat, linksShown: nat): ResultCounts {
    ResultCounts(RouteCount(c.routes.total + 1, c.routes.displayed + one, c.routes.complete + complete,
                            c.routes.partial + partial, c.routes.omitted + 1 - one),
                 Balanced(c.nodes.total + nodes, c.nodes.displayed + nodesShown),
                 Balanced(c.links.total + links, c.links.displayed + linksShown))
  }

  lemma CountsStep(owners: seq<nat>, w: Weights, g: nat, r: nat)
    requires Sized(w, |owners|) && r < |owners|
    ensures CountsFor(owners, w, g, r + 1) ==
            if owners[r] == g && w.one[r] == 1 then
              AddCounts(CountsFor(owners, w, g, r), w.shown[r], w.complete[r], w.partial[r], w.nodes[r], w.nodesShown[r],
                        w.links[r], w.linksShown[r])
            else CountsFor(owners, w, g, r + 1)
    ensures owners[r] != g ==> CountsFor(owners, w, g, r + 1) == CountsFor(owners, w, g, r)
  {
  }

  lemma WeightsAt(routes: seq<Route>, accepted: seq<nat>, shown: seq<nat>, r: nat)
    requires Fit(routes, accepted) && |shown| == |routes| && r < |routes| && (shown[r] == 0 ==> accepted[r] == 0)
    ensures var w := WeightsOf(routes, accepted, shown);
            && w.one[r] == 1 && w.shown[r] == Bit(shown[r] > 0) && w.nodes[r] == |routes[r].nodes| && w.nodesShown[r] == shown[r]
            && w.complete[r] == Bit(shown[r] > 0 && accepted[r] == routes[r].Path().Edges())
            && w.partial[r] == Bit(shown[r] > 0 && accepted[r] < routes[r].Path().Edges())
            && w.links[r] == |RouteLinks(routes[r], routes[r].Path().Edges())|
            && w.linksShown[r] == |RouteLinks(routes[r], accepted[r])|
            && (shown[r] == 0 ==> w.linksShown[r] == 0)
  {
  }

  method CountLinks(route: Route, prefix: nat) returns (count: nat)
    requires prefix <= route.Path().Edges() == |route.edgeStatuses|
    ensures count == |RouteLinks(route, prefix)|
  {
    count := 0;
    for i := 0 to prefix
      invariant count == |RouteLinks(route, i)|
    {
      var edge := route.Path().EdgeAt(i);
      if edge.from != edge.to {
        count := count + 1;
      }
    }
  }

  method CountAll(routes: seq<Route>, accepted: seq<nat>) returns (nodes: set<NodeKey>, links: set<Edge>)
    requires Fit(routes, accepted)
    ensures nodes == FullNodes(routes, |routes|) && links == FullLinks(routes, accepted, |routes|)
  {
    nodes, links := {}, {};
    for r := 0 to |routes|
      invariant nodes == FullNodes(routes, r) && links == FullLinks(routes, accepted, r)
    {
      nodes := nodes + Elements(routes[r].Path().keys);
      var own := LinksOf(routes[r]);
      links := links + own;
    }
  }

  method LinksOf(route: Route) returns (own: set<Edge>)
    requires |route.edgeStatuses| == route.Path().Edges()
    ensures own == RouteEdgeSet(route)
  {
    own := {};
    var n := route.Path().Edges();
    for i := 0 to n
      invariant own == set p | p in RouteLinks(route, i) :: p.0
    {
      var edge := route.Path().EdgeAt(i);
      if edge.from != edge.to {
        EdgeJoins(RouteLinks(route, i), edge, route.edgeStatuses[i]);
        own := own + {edge};
      }
    }
  }

  lemma EdgeJoins(links: seq<(Edge, Status)>, edge: Edge, status: Status)
    ensures (set p | p in links + [(edge, status)] :: p.0) == (set p | p in links :: p.0) + {edge}
  {
    assert (edge, status) in links + [(edge, status)];
  }

  /** The numbered keys cover every shown node and both ends of every link. */
  lemma KeysCover(report: Report, lim: Limits, st: State)
    requires CompactContract.Wired(report, lim, st) && Fit(report.routes, st.accepted)
    ensures var p := PartsOf(report.routes, st);
            && (forall r, j :: 0 <= r < |report.routes| && 0 <= j < p.shown[r] ==> report.routes[r].nodes[j].key in p.keys)
            && (forall e :: LinkOf(p.links, e).Some? ==> e.from in p.keys && e.to in p.keys)
            && (forall r :: 0 <= r < |report.routes| ==> p.shown[r] == 0 ==> st.accepted[r] == 0)
  {
    var routes, p := report.routes, PartsOf(report.routes, st);
    forall r, j | 0 <= r < |routes| && 0 <= j < p.shown[r]
      ensures routes[r].nodes[j].key in p.keys
    {
      CompactContract.PartsFacts(report, lim, st, routes[r].nodes[j].key);
      assert CompactContract.ShownAt(routes, p.shown, |routes|, r, j, routes[r].nodes[j].key);
    }
    forall e | LinkOf(p.links, e).Some?
      ensures e.from in p.keys && e.to in p.keys
    {
      CompactContract.LinkedPairs(report, lim, st, e);
    }
  }

  method SumCounts(counts: seq<ResultCounts>, f: CompactConsumer.Field) returns (total: int)
    ensures total == CompactConsumer.SumOf(counts, f)
  {
    total := 0;
    for i := 0 to |counts|
      invariant total == CompactConsumer.SumOf(counts[..i], f)
    {
      total := total + f.Of(counts[i]);
      assert counts[..i + 1][..i] == counts[..i];
    }
    assert counts[..|counts|] == counts;
  }

  lemma SummedField(report: Report, st: State, includeGeo: bool, f: CompactConsumer.Field)
    requires Fit(report.routes, st.accepted)
    requires forall i :: 0 <= i < |report.routes| ==> report.routes[i].resultIndex < |report.traceroute|
    ensures var t := Assemble(report, st, includeGeo); f.Global(t.stats) == CompactConsumer.SumOf(t.results, f)
  {
    CompactContract.FieldSums(report, st, includeGeo, f);
  }

  lemma StatsShape(report: Report, st: State, includeGeo: bool)
    requires Fit(report.routes, st.accepted)
    ensures var t, n := Assemble(report, st, includeGeo), |report.routes|;
            var s := t.stats;
            && s.nodes == Balanced(|FullNodes(report.routes, n)|, |t.nodes|)
            && s.links == Balanced(|FullLinks(report.routes, st.accepted, n)|, |t.links|)
            && s.routes.total == n && s.routes.displayed == |t.routes| && s.routes.omitted == n - |t.routes|
            && s.nodeObservations == Balanced(s.nodeObservations.total, s.nodeObservations.displayed)
            && s.linkObservations == Balanced(s.linkObservations.total, s.linkObservations.displayed)
  {
  }

  function StatsFrom(nodes: Count, links: Count, routes: nat, listed: nat, counts: seq<ResultCounts>): Stats {
    Stats(nodes, links,
          RouteCount(routes, listed, CompactConsumer.SumOf(counts, CompactConsumer.RoutesComplete),
                     CompactConsumer.SumOf(counts, CompactConsumer.RoutesPartial), routes - listed),
          Balanced(CompactConsumer.SumOf(counts, CompactConsumer.NodesTotal), CompactConsumer.SumOf(counts, CompactConsumer.NodesDisplayed)),
          Balanced(CompactConsumer.SumOf(counts, CompactConsumer.LinksTotal), CompactConsumer.SumOf(counts, CompactConsumer.LinksDisplayed)))
  }

  lemma SummedStats(report: Report, st: State, includeGeo: bool, t: Topology, n: nat)
    requires Fit(report.routes, st.accepted) && t == Assemble(report, st, includeGeo) && n == |report.routes|
    requires forall i :: 0 <= i < |report.routes| ==> report.routes[i].resultIndex < |report.traceroute|
    ensures t.stats == StatsFrom(Balanced(|FullNodes(report.routes, n)|, |t.nodes|),
                                 Balanced(|FullLinks(report.routes, st.accepted, n)|, |t.links|), n, |t.routes|, t.results)
  {
    forall f: CompactConsumer.Field
      ensures CompactConsumer.SumOf(t.results, f) == f.Global(t.stats)
    {
      SummedField(report, st, includeGeo, f);
    }
    StatsShape(report, st, includeGeo);
    StatsAre(t, t.stats.nodes, t.stats.links, n);
  }

  lemma StatsAre(t: Topology, nodes: Count, links: Count, routes: nat)
    requires CompactConsumer.SumsAccepted(t)
    requires t.stats.nodes == nodes && t.stats.links == links
    requires t.stats.routes.total == routes && t.stats.routes.displayed == |t.routes|
    requires t.stats.routes.omitted == routes - |t.routes|
    requires t.stats.nodeObservations == Balanced(t.stats.nodeObservations.total, t.stats.nodeObservations.displayed)
    requires t.stats.linkObservations == Balanced(t.stats.linkObservations.total, t.stats.linkObservations.displayed)
    ensures t.stats == StatsFrom(nodes, links, routes, |t.routes|, t.results)
  {
    SumsSay(t, CompactConsumer.RoutesComplete);
    SumsSay(t, CompactConsumer.RoutesPartial);
    SumsSay(t, CompactConsumer.NodesTotal);
    SumsSay(t, CompactConsumer.NodesDisplayed);
    SumsSay(t, CompactConsumer.LinksTotal);
    SumsSay(t, CompactConsumer.LinksDisplayed);
  }

  lemma SumsSay(t: Topology, f: CompactConsumer.Field)
    requires CompactConsumer.SumsAccepted(t)
    ensures CompactConsumer.SumOf(t.results, f) == f.Global(t.stats)
  {
  }

  /** The global statistics, added up from the per-result ones. */
  method AddUp(counts: seq<ResultCounts>, nodes: Count, links: Count, routes: nat, listed: nat) returns (stats: Stats)
    ensures stats == StatsFrom(nodes, links, routes, listed, counts)
  {
    var complete := SumCounts(counts, CompactConsumer.RoutesComplete);
    var partial := SumCounts(counts, CompactConsumer.RoutesPartial);
    var nodesTotal := SumCounts(counts, CompactConsumer.NodesTotal);
    var nodesShown := SumCounts(counts, CompactConsumer.NodesDisplayed);
    var linksTotal := SumCounts(counts, CompactConsumer.LinksTotal);
    var linksShown := SumCounts(counts, CompactConsumer.LinksDisplayed);
    stats := Stats(nodes, links, RouteCount(routes, listed, complete, partial, routes - listed),
                   Balanced(nodesTotal, nodesShown), Balanced(linksTotal, linksShown));
  }

  /** The assembled topology, one part at a time. */
  lemma AssembledParts(report: Report, st: State, includeGeo: bool, counts: seq<ResultCounts>)
    requires Fit(report.routes, st.accepted) && |counts| == |report.traceroute|
    requires var p := PartsOf(report.routes, st);
             forall g :: 0 <= g < |counts| ==>
               counts[g] == CountsFor(Owners(report.routes), WeightsOf(report.routes, st.accepted, p.shown), g, |report.routes|)
    ensures var t, p := Assemble(report, st, includeGeo), PartsOf(report.routes, st);
            && t.nodes == Nodes(p.keys, p.seen, includeGeo) && t.links == Links(p.keys, p.edges, p.links)
            && t.routes == ShownRoutes(report.routes, st.accepted, p.shown, p.keys, |report.routes|)
            && t.results == counts && t.geo == GeoOf(p.keys, p.seen, includeGeo, |p.keys|)
            && t.reasons == Reasons(st.nodeLimited, st.linkLimited, t.geo.omitted > 0) && t.truncated == (t.reasons != [])
  {
    var t := Assemble(report, st, includeGeo);
    forall g | 0 <= g < |counts|
      ensures t.results[g] == counts[g]
    {
      CompactContract.ResultAt(report, st, includeGeo, g);
    }
  }

  /** Aggregation and numbering of one selection. */
  method BuildGraph(report: Report, accepted: seq<nat>, order: seq<NodeKey>, shown: seq<nat>, includeGeo: bool,
                    ghost lim: Limits, ghost st: State)
    returns (nodes: seq<Node>, links: seq<Link>, listed: seq<Shortened>, geo: GeoCounts, geoLimited: bool)
    requires CompactContract.Wired(report, lim, st) && Fit(report.routes, st.accepted)
    requires accepted == st.accepted && order == st.order && shown == PartsOf(report.routes, st).shown
    ensures var p := PartsOf(report.routes, st);
            && nodes == Nodes(p.keys, p.seen, includeGeo) && links == Links(p.keys, p.edges, p.links)
            && listed == ShownRoutes(report.routes, accepted, shown, p.keys, |report.routes|)
            && geo == GeoOf(p.keys, p.seen, includeGeo, |p.keys|) && geoLimited == (geo.omitted > 0)
  {
    ghost var p := PartsOf(report.routes, st);
    KeysCover(report, lim, st);
    var nodeAggs := AggregateNodes(report.routes, shown);
    var linkAggs := AggregateLinks(report.routes, accepted);
    var ids;
    ghost var keys;
    nodes, ids, geo, geoLimited, keys := NumberNodes(order, nodeAggs, includeGeo, p.seen);
    var edges;
    links, edges := ListLinks(order, linkAggs, ids, keys, p.links);
    listed := ListRoutes(report.routes, accepted, shown, ids, keys);
  }

  method ListReasons(nodeLimited: bool, linkLimited: bool, geoLimited: bool) returns (reasons: seq<Reason>)
    ensures reasons == Reasons(nodeLimited, linkLimited, geoLimited)
  {
    reasons := [];
    if nodeLimited { reasons := reasons + [NodeLimit]; }
    if linkLimited { reasons := reasons + [LinkLimit]; }
    if geoLimited { reasons := reasons + [GeoLimit]; }
  }

  method BuildFrom(report: Report, accepted: seq<nat>, order: seq<NodeKey>, selected: set<NodeKey>,
                   nodeLimited: bool, linkLimited: bool, includeGeo: bool, ghost lim: Limits, ghost st: State)
    returns (topology: Topology)
    requires CompactContract.Wired(report, lim, st) && Fit(report.routes, st.accepted)
    requires accepted == st.accepted && order == st.order && selected == Elements(st.order)
    requires nodeLimited == st.nodeLimited && linkLimited == st.linkLimited
    ensures topology == Assemble(report, st, includeGeo)
  {
    var fullNodes, fullLinks := CountAll(report.routes, accepted);
    var shown := CountShown(report.routes, accepted, selected);
    KeysCover(report, lim, st);
    var nodes, links, listed, geo, geoLimited := BuildGraph(report, accepted, order, shown, includeGeo, lim, st);
    var counts := AccountRoutes(report.routes, accepted, shown, |report.traceroute|);
    var stats := AddUp(counts, Balanced(|fullNodes|, |nodes|), Balanced(|fullLinks|, |links|), |report.routes|, |listed|);
    var reasons := ListReasons(nodeLimited, linkLimited, geoLimited);
    AssembledParts(report, st, includeGeo, counts);
    SummedStats(report, st, includeGeo, Assemble(report, st, includeGeo), |report.routes|);
    topology := CompactTopology.Topology(nodes, links, listed, stats, counts, geo, |reasons| > 0, reasons);
  }

  /** The whole build: the specified topology of the specified selection, which the browser accepts whenever
      the report is within the declared bounds. */
  method BuildCompactTopology(report: Report, lim: Limits, includeGeo: bool) returns (topology: Topology, transactions: nat)
    requires forall i :: 0 <= i < |report.routes| ==> report.routes[i].resultIndex < |report.traceroute|
    requires CompactContract.AllShapes(report.routes) && lim.maxNodes >= 1
    ensures var st := CompactConsumer.SelectionOf(report, lim);
            && Fit(report.routes, st.accepted) && transactions == |st.trace|
            && topology == Assemble(report, st, includeGeo)
    ensures CompactConsumer.Bounds(report) && lim.maxNodes <= 500 && lim.maxLinks <= 1000 ==>
              CompactConsumer.Accepted(topology, report.traceroute)
  {
    var selector := new Selector(Paths(report.routes), |report.traceroute|, lim);
    selector.Select();
    ghost var st := selector.Model();
    CompactContract.WiredFacts(report, lim, st);
    transactions := selector.transactions;
    topology := BuildFrom(report, selector.accepted, selector.order, selector.selected,
                          selector.nodeLimited, selector.linkLimited, includeGeo, lim, st);
    if CompactConsumer.Bounds(report) && lim.maxNodes <= 500 && lim.maxLinks <= 1000 {
      CompactContract.ProducerMeetsConsumer(report, lim, includeGeo);
    }
  }
}
