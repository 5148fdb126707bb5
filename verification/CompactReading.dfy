/** What an assembled topology says, read off the report and the accepted edges alone: every listed node, link and route,
    every total and every reason (backend/diagnostic/compact_topology.go:386-559). */
module CompactReading {
  import opened Text
  import opened CompactSelection
  import opened CompactTopology
  import opened CompactProducer
  import opened CompactConsumer
  import opened CompactContract
  import opened Sets

  // ----- What the hops of one node, or the statuses of one link, add up to -----

  function FirstGeo(raws: seq<Raw>): Option<Geo> {
    if raws == [] then None else if raws[0].geo.Some? then raws[0].geo else FirstGeo(raws[1..])
  }

  /** The worst status, the extreme hops, how many, whether any is public, and the first bundle present. */
  ghost predicate Summarises(a: NodeAgg, raws: seq<Raw>) {
    && a.observations == |raws| > 0
    && (exists i :: 0 <= i < |raws| && raws[i].status == a.status)
    && (exists i :: 0 <= i < |raws| && raws[i].hop == a.hopMin) && (exists i :: 0 <= i < |raws| && raws[i].hop == a.hopMax)
    && (forall i :: 0 <= i < |raws| ==> a.hopMin <= raws[i].hop <= a.hopMax && raws[i].status.Rank() <= a.status.Rank())
    && (a.publicIP <==> exists i :: 0 <= i < |raws| && raws[i].publicIP)
    && a.geo == FirstGeo(raws)
  }

  ghost predicate LinkSummarises(status: Status, observations: nat, statuses: seq<Status>) {
    && observations == |statuses| > 0 && status in statuses
    && forall i :: 0 <= i < |statuses| ==> statuses[i].Rank() <= status.Rank()
  }

  function HopsOf(seen: seq<(NodeKey, Raw)>, key: NodeKey): seq<Raw> {
    if seen == [] then []
    else HopsOf(seen[..|seen| - 1], key) + if seen[|seen| - 1].0 == key then [seen[|seen| - 1].1] else []
  }

  function StatusesOf(seen: seq<(Edge, Status)>, e: Edge): seq<Status> {
    if seen == [] then []
    else StatusesOf(seen[..|seen| - 1], e) + if seen[|seen| - 1].0 == e then [seen[|seen| - 1].1] else []
  }

  lemma {:induction false} FirstGeoAppend(raws: seq<Raw>, raw: Raw)
    ensures FirstGeo(raws + [raw]) == if FirstGeo(raws).Some? then FirstGeo(raws) else raw.geo
  {
    if raws == [] {
      assert [raw][1..] == [];
    } else {
      assert (raws + [raw])[1..] == raws[1..] + [raw];
      FirstGeoAppend(raws[1..], raw);
    }
  }

  lemma ObserveOne(raw: Raw)
    ensures Summarises(Observe(None, raw), [raw])
  {
    assert [raw][1..] == [] && [raw][0] == raw;
  }

  lemma ObserveMore(a: NodeAgg, raws: seq<Raw>, raw: Raw)
    requires Summarises(a, raws)
    ensures Summarises(Observe(Some(a), raw), raws + [raw])
  {
    FirstGeoAppend(raws, raw);
    var b, more := Observe(Some(a), raw), raws + [raw];
    var s :| 0 <= s < |raws| && raws[s].status == a.status;
    var low :| 0 <= low < |raws| && raws[low].hop == a.hopMin;
    var high :| 0 <= high < |raws| && raws[high].hop == a.hopMax;
    assert more[|raws|] == raw && more[s] == raws[s] && more[low] == raws[low] && more[high] == raws[high];
    if i :| 0 <= i < |raws| && raws[i].publicIP {
      assert more[i].publicIP;
    }
  }

  /** The aggregate of a key is there when it was seen at all, and says the worst, the extremes, the number and the first. */
  lemma {:induction false} NodeLaw(seen: seq<(NodeKey, Raw)>, key: NodeKey)
    ensures NodeOf(seen, key).Some? <==> HopsOf(seen, key) != []
    ensures NodeOf(seen, key).Some? ==> Summarises(NodeOf(seen, key).value, HopsOf(seen, key))
  {
    if seen != [] {
      var front, last := seen[..|seen| - 1], seen[|seen| - 1];
      NodeLaw(front, key);
      hide Summarises, Observe;
      if last.0 != key {
        assert HopsOf(front, key) + [] == HopsOf(front, key);
      } else if NodeOf(front, key).Some? {
        ObserveMore(NodeOf(front, key).value, HopsOf(front, key), last.1);
      } else {
        ObserveOne(last.1);
        assert [] + [last.1] == [last.1];
      }
    }
  }

  lemma LinkMore(a: LinkAgg, statuses: seq<Status>, status: Status)
    requires LinkSummarises(a.status, a.observations, statuses)
    ensures var b := ObserveLink(Some(a), status); LinkSummarises(b.status, b.observations, statuses + [status])
  {
    assert (statuses + [status])[|statuses|] == status;
  }

  lemma {:induction false} LinkLaw(seen: seq<(Edge, Status)>, e: Edge)
    ensures LinkOf(seen, e).Some? <==> StatusesOf(seen, e) != []
    ensures LinkOf(seen, e).Some? ==> LinkSummarises(LinkOf(seen, e).value.status, LinkOf(seen, e).value.observations, StatusesOf(seen, e))
  {
    if seen != [] {
      var front, last := seen[..|seen| - 1], seen[|seen| - 1];
      LinkLaw(front, e);
      if last.0 == e && LinkOf(front, e).Some? {
        LinkMore(LinkOf(front, e).value, StatusesOf(front, e), last.1);
      }
    }
  }

  // ----- The shown hops and accepted edges of a report -----

  /** The hops of one key among the first n nodes of a route. */
  function NodeHops(nodes: seq<Observation>, n: nat, key: NodeKey): seq<Raw>
    requires n <= |nodes|
  {
    if n == 0 then [] else NodeHops(nodes, n - 1, key) + if nodes[n - 1].key == key then nodes[n - 1].raws else []
  }

  function ShownHops(routes: seq<Route>, shown: seq<nat>, key: NodeKey, n: nat): seq<Raw>
    requires |shown| == |routes| && n <= |routes| && forall r :: 0 <= r < |routes| ==> shown[r] <= |routes[r].nodes|
  {
    if n == 0 then [] else ShownHops(routes, shown, key, n - 1) + NodeHops(routes[n - 1].nodes, shown[n - 1], key)
  }

  /** The statuses of one edge among the first k steps of a route. */
  function StepStatuses(route: Route, k: nat, e: Edge): seq<Status>
    requires k <= |route.edgeStatuses| && (k > 0 ==> k < |route.nodes|)
  {
    if k == 0 then []
    else StepStatuses(route, k - 1, e) + if Edge(route.nodes[k - 1].key, route.nodes[k].key) == e then [route.edgeStatuses[k - 1]] else []
  }

  function AcceptedStatuses(routes: seq<Route>, accepted: seq<nat>, e: Edge, n: nat): seq<Status>
    requires Fit(routes, accepted) && n <= |routes|
  {
    if n == 0 then [] else AcceptedStatuses(routes, accepted, e, n - 1) + StepStatuses(routes[n - 1], accepted[n - 1], e)
  }

  lemma {:induction false} HopsAppend(a: seq<(NodeKey, Raw)>, b: seq<(NodeKey, Raw)>, key: NodeKey)
    ensures HopsOf(a + b, key) == HopsOf(a, key) + HopsOf(b, key)
  {
    if b == [] {
      assert a + b == a;
    } else {
      HopsAppend(a, b[..|b| - 1], key);
      assert (a + b)[..|a + b| - 1] == a + b[..|b| - 1];
    }
  }

  lemma {:induction false} TaggedHops(o: Observation, n: nat, key: NodeKey)
    requires n <= |o.raws|
    ensures HopsOf(Tagged(o, n), key) == if o.key == key then o.raws[..n] else []
  {
    if n > 0 {
      TaggedHops(o, n - 1, key);
      assert Tagged(o, n)[..n - 1] == Tagged(o, n - 1);
      assert o.raws[..n] == o.raws[..n - 1] + [o.raws[n - 1]];
    }
  }

  lemma {:induction false} FlattenedHops(nodes: seq<Observation>, n: nat, key: NodeKey)
    requires n <= |nodes|
    ensures HopsOf(Flatten(nodes[..n]), key) == NodeHops(nodes, n, key)
  {
    if n > 0 {
      FlattenedHops(nodes, n - 1, key);
      var o := nodes[n - 1];
      assert nodes[..n][..n - 1] == nodes[..n - 1];
      HopsAppend(Flatten(nodes[..n - 1]), Tagged(o, |o.raws|), key);
      TaggedHops(o, |o.raws|, key);
      assert o.raws[..|o.raws|] == o.raws;
    }
  }

  lemma {:induction false} SeenAreShown(routes: seq<Route>, shown: seq<nat>, key: NodeKey, n: nat)
    requires |shown| == |routes| && n <= |routes| && forall r :: 0 <= r < |routes| ==> shown[r] <= |routes[r].nodes|
    ensures HopsOf(SeenNodes(routes, shown, n), key) == ShownHops(routes, shown, key, n)
  {
    if n > 0 {
      SeenAreShown(routes, shown, key, n - 1);
      HopsAppend(SeenNodes(routes, shown, n - 1), Flatten(routes[n - 1].nodes[..shown[n - 1]]), key);
      FlattenedHops(routes[n - 1].nodes, shown[n - 1], key);
    }
  }

  lemma {:induction false} StatusesAppend(a: seq<(Edge, Status)>, b: seq<(Edge, Status)>, e: Edge)
    ensures StatusesOf(a + b, e) == StatusesOf(a, e) + StatusesOf(b, e)
  {
    if b == [] {
      assert a + b == a;
    } else {
      StatusesAppend(a, b[..|b| - 1], e);
      assert (a + b)[..|a + b| - 1] == a + b[..|b| - 1];
    }
  }

  lemma {:induction false} StepsAreStatuses(route: Route, k: nat, e: Edge)
    requires k <= route.Path().Edges() == |route.edgeStatuses| && e.from != e.to
    ensures StatusesOf(RouteLinks(route, k), e) == StepStatuses(route, k, e)
  {
    if k > 0 {
      StepsAreStatuses(route, k - 1, e);
      var edge := route.Path().EdgeAt(k - 1);
      assert edge == Edge(route.nodes[k - 1].key, route.nodes[k].key);
      var last := [(edge, route.edgeStatuses[k - 1])];
      var front := RouteLinks(route, k - 1);
      assert last[..0] == [] && StatusesOf(last, e) == if edge == e then [route.edgeStatuses[k - 1]] else [];
      StatusesAppend(front, last, e);
      assert front + [] == front && StatusesOf(front, e) + [] == StatusesOf(front, e);
    }
  }

  lemma NoneSeen(routes: seq<Route>, accepted: seq<nat>, e: Edge)
    requires Fit(routes, accepted)
    ensures StatusesOf(SeenLinks(routes, accepted, 0), e) == AcceptedStatuses(routes, accepted, e, 0)
  {
  }

  lemma {:induction false} SeenAreAccepted(routes: seq<Route>, accepted: seq<nat>, e: Edge, n: nat)
    requires Fit(routes, accepted) && n <= |routes| && e.from != e.to
    ensures StatusesOf(SeenLinks(routes, accepted, n), e) == AcceptedStatuses(routes, accepted, e, n)
  {
    hide StatusesOf, RouteLinks, Merged;
    if n == 0 {
      NoneSeen(routes, accepted, e);
    } else {
      SeenAreAccepted(routes, accepted, e, n - 1);
      StatusesAppend(SeenLinks(routes, accepted, n - 1), RouteLinks(routes[n - 1], accepted[n - 1]), e);
      StepsAreStatuses(routes[n - 1], accepted[n - 1], e);
    }
  }

  // ----- Nodes -----

  /** a stands before b. */
  ghost predicate Before(order: seq<NodeKey>, a: NodeKey, b: NodeKey) {
    exists i, j :: 0 <= i < j < |order| && order[i] == a && order[j] == b
  }

  predicate Usable(geo: Option<Geo>) { geo.Some? && geo.value.valid }

  ghost predicate NodeTold(n: Node, id: nat, hops: seq<Raw>, includeGeo: bool) {
    && n.id == id
    && Summarises(NodeAgg(n.status, n.hopMin, n.hopMax, n.observations, n.publicIP, FirstGeo(hops)), hops)
    && n.geo == if n.publicIP && Usable(FirstGeo(hops)) && includeGeo && FirstGeo(hops).value.bytes <= 4096 then FirstGeo(hops) else None
  }

  function Trues(flags: seq<bool>): nat {
    if flags == [] then 0 else Trues(flags[..|flags| - 1]) + if flags[|flags| - 1] then 1 else 0
  }

  /** flags[i]: node i is public and the first bundle of its hops is usable. */
  ghost predicate Bundled(nodes: seq<Node>, routes: seq<Route>, shown: seq<nat>, flags: seq<bool>)
    requires |shown| == |routes| && forall r :: 0 <= r < |routes| ==> shown[r] <= |routes[r].nodes|
  {
    |flags| == |nodes|
    && forall i :: 0 <= i < |nodes| ==> flags[i] == (nodes[i].publicIP && Usable(FirstGeo(ShownHops(routes, shown, nodes[i].key, |routes|))))
  }

  ghost predicate EachNodeTold(nodes: seq<Node>, routes: seq<Route>, shown: seq<nat>, includeGeo: bool)
    requires |shown| == |routes| && forall r :: 0 <= r < |routes| ==> shown[r] <= |routes[r].nodes|
  {
    forall i :: 0 <= i < |nodes| ==> NodeTold(nodes[i], i + 1, ShownHops(routes, shown, nodes[i].key, |routes|), includeGeo)
  }

  /** The nodes are the selected keys that a shown hop carries, in selection order. */
  ghost predicate NodesTold(t: Topology, report: Report, st: State, shown: seq<nat>, includeGeo: bool)
    requires |shown| == |report.routes| && forall r :: 0 <= r < |report.routes| ==> shown[r] <= |report.routes[r].nodes|
  {
    && EachNodeTold(t.nodes, report.routes, shown, includeGeo)
    && (forall k :: k in st.order && ShownHops(report.routes, shown, k, |report.routes|) != [] ==> exists i :: 0 <= i < |t.nodes| && t.nodes[i].key == k)
    && (forall i, j :: 0 <= i < j < |t.nodes| ==> Before(st.order, t.nodes[i].key, t.nodes[j].key))
    && (forall i :: 0 <= i < |t.nodes| ==> t.nodes[i].key in st.order)
    && exists flags :: Bundled(t.nodes, report.routes, shown, flags) && t.geo.available == Trues(flags)
  }

  lemma {:induction false} KeptInOrder(order: seq<NodeKey>, seen: seq<(NodeKey, Raw)>)
    ensures forall i, j :: 0 <= i < j < |KeptKeys(order, seen)| ==> Before(order, KeptKeys(order, seen)[i], KeptKeys(order, seen)[j])
  {
    if order != [] {
      var front, last := order[..|order| - 1], order[|order| - 1];
      KeptInOrder(front, seen);
      var keys := KeptKeys(order, seen);
      forall i, j | 0 <= i < j < |keys| ensures Before(order, keys[i], keys[j]) {
        var before := KeptKeys(front, seen);
        if j < |before| {
          assert Before(front, before[i], before[j]);
          BeforeMore(front, last, before[i], before[j]);
        } else {
          assert before[i] in front;
          var a :| 0 <= a < |front| && front[a] == before[i];
          assert order[a] == before[i] && order[|front|] == keys[j];
        }
      }
    }
  }

  lemma BeforeMore(front: seq<NodeKey>, last: NodeKey, a: NodeKey, b: NodeKey)
    requires Before(front, a, b)
    ensures Before(front + [last], a, b)
  {
    var i, j :| 0 <= i < j < |front| && front[i] == a && front[j] == b;
    assert (front + [last])[i] == a && (front + [last])[j] == b;
  }

  lemma PartKeys(routes: seq<Route>, st: State)
    requires Fit(routes, st.accepted)
    ensures var p := PartsOf(routes, st);
            && p.keys == KeptKeys(st.order, p.seen) && p.seen == SeenNodes(routes, p.shown, |routes|)
            && p.edges == EdgeList(st.order, |st.order|, p.links) && p.links == SeenLinks(routes, st.accepted, |routes|)
            && p.shown == ShownAll(routes, st.accepted, Elements(st.order))
  {
    hide KeptKeys, SeenNodes, EdgeList, SeenLinks, ShownAll;
  }

  lemma SummaryGeo(a: NodeAgg, raws: seq<Raw>)
    requires Summarises(a, raws)
    ensures a.geo == FirstGeo(raws)
  {
  }

  lemma OneNodeTold(report: Report, st: State, includeGeo: bool, i: nat)
    requires Fit(report.routes, st.accepted) && i < |PartsOf(report.routes, st).keys|
    ensures var t, p := Assemble(report, st, includeGeo), PartsOf(report.routes, st);
            && |t.nodes| == |p.keys| && t.nodes[i].key == p.keys[i]
            && NodeTold(t.nodes[i], i + 1, ShownHops(report.routes, p.shown, p.keys[i], |report.routes|), includeGeo)
            && NodeOf(p.seen, p.keys[i]).value.geo == FirstGeo(ShownHops(report.routes, p.shown, p.keys[i], |report.routes|))
            && NodeOf(p.seen, p.keys[i]).value.publicIP == t.nodes[i].publicIP
  {
    hide Assemble, PartsOf, NodeOf, Summarises, FirstGeo;
    var p := PartsOf(report.routes, st);
    Assembled(report, st, includeGeo);
    PartKeys(report.routes, st);
    NodesAt(p.keys, p.seen, includeGeo, i);
    NodeLaw(p.seen, p.keys[i]);
    SeenAreShown(report.routes, p.shown, p.keys[i], |report.routes|);
    hide SeenNodes, ShownHops, Nodes;
    SummaryGeo(NodeOf(p.seen, p.keys[i]).value, HopsOf(p.seen, p.keys[i]));
  }

  lemma AvailableStep(g: GeoCounts, a: NodeAgg, includeGeo: bool)
    ensures CountGeo(g, a, includeGeo).available == g.available + if a.publicIP && Usable(a.geo) then 1 else 0
  {
  }

  lemma {:induction false} AvailableCounted(keys: seq<NodeKey>, seen: seq<(NodeKey, Raw)>, includeGeo: bool, flags: seq<bool>, n: nat)
    requires n <= |keys| == |flags| && forall k :: k in keys ==> NodeOf(seen, k).Some?
    requires forall i :: 0 <= i < |keys| ==>
               keys[i] in keys && flags[i] == (NodeOf(seen, keys[i]).value.publicIP && Usable(NodeOf(seen, keys[i]).value.geo))
    ensures GeoOf(keys, seen, includeGeo, n).available == Trues(flags[..n])
  {
    hide NodeOf, CountGeo, Usable;
    if n > 0 {
      AvailableCounted(keys, seen, includeGeo, flags, n - 1);
      AvailableStep(GeoOf(keys, seen, includeGeo, n - 1), NodeOf(seen, keys[n - 1]).value, includeGeo);
      assert flags[..n][..n - 1] == flags[..n - 1];
    }
  }

  lemma NodeIsTold(report: Report, st: State, includeGeo: bool, i: nat)
    requires Fit(report.routes, st.accepted) && i < |PartsOf(report.routes, st).keys|
    ensures var t, p := Assemble(report, st, includeGeo), PartsOf(report.routes, st);
            && |t.nodes| == |p.keys| && t.nodes[i].key == p.keys[i] && t.nodes[i].key in st.order && p.keys[i] in p.keys
            && NodeTold(t.nodes[i], i + 1, ShownHops(report.routes, p.shown, t.nodes[i].key, |report.routes|), includeGeo)
  {
    hide Assemble, PartsOf, NodeTold, NodeOf, KeptKeys;
    OneNodeTold(report, st, includeGeo, i);
    PartKeys(report.routes, st);
    var p := PartsOf(report.routes, st);
    assert p.keys[i] in p.keys;
  }

  lemma ShownIsListed(report: Report, st: State, includeGeo: bool, k: NodeKey)
    requires Fit(report.routes, st.accepted) && k in st.order
    requires ShownHops(report.routes, PartsOf(report.routes, st).shown, k, |report.routes|) != []
    ensures var t := Assemble(report, st, includeGeo); exists i :: 0 <= i < |t.nodes| && t.nodes[i].key == k
  {
    hide Assemble, PartsOf, NodeTold, NodeOf;
    var t, p := Assemble(report, st, includeGeo), PartsOf(report.routes, st);
    PartKeys(report.routes, st);
    NodeLaw(p.seen, k);
    SeenAreShown(report.routes, p.shown, k, |report.routes|);
    var i :| 0 <= i < |p.keys| && p.keys[i] == k;
    NodeIsTold(report, st, includeGeo, i);
  }

  lemma BundlesCounted(report: Report, st: State, includeGeo: bool)
    requires Fit(report.routes, st.accepted)
    ensures var t := Assemble(report, st, includeGeo);
            exists flags :: Bundled(t.nodes, report.routes, PartsOf(report.routes, st).shown, flags) && t.geo.available == Trues(flags)
  {
    hide Assemble, PartsOf, NodeOf, NodeTold, GeoOf, Trues, Usable, FirstGeo, ShownHops, SeenNodes;
    var t, p := Assemble(report, st, includeGeo), PartsOf(report.routes, st);
    Assembled(report, st, includeGeo);
    var flags := seq(|p.keys|, i requires 0 <= i < |p.keys| =>
                     assert p.keys[i] in p.keys; NodeOf(p.seen, p.keys[i]).value.publicIP && Usable(NodeOf(p.seen, p.keys[i]).value.geo));
    forall i | 0 <= i < |p.keys|
      ensures p.keys[i] in p.keys
      ensures flags[i] == (t.nodes[i].publicIP && Usable(FirstGeo(ShownHops(report.routes, p.shown, t.nodes[i].key, |report.routes|))))
    {
      OneNodeTold(report, st, includeGeo, i);
    }
    AvailableCounted(p.keys, p.seen, includeGeo, flags, |p.keys|);
    assert flags[..|p.keys|] == flags;
    assert Bundled(t.nodes, report.routes, p.shown, flags);
  }

  lemma NodesAreTold(report: Report, lim: Limits, st: State, includeGeo: bool)
    requires Wired(report, lim, st) && Fit(report.routes, st.accepted)
    ensures NodesTold(Assemble(report, st, includeGeo), report, st, PartsOf(report.routes, st).shown, includeGeo)
  {
    hide Assemble, PartsOf, NodeTold, NodeOf, KeptKeys, Before, Wired, Bundled, Trues, ShownHops;
    var t, p, n := Assemble(report, st, includeGeo), PartsOf(report.routes, st), |report.routes|;
    PartKeys(report.routes, st);
    Assembled(report, st, includeGeo);
    forall i | 0 <= i < |t.nodes|
      ensures t.nodes[i].key == p.keys[i] && t.nodes[i].key in st.order
      ensures NodeTold(t.nodes[i], i + 1, ShownHops(report.routes, p.shown, t.nodes[i].key, n), includeGeo)
    {
      NodeIsTold(report, st, includeGeo, i);
    }
    forall k | k in st.order && ShownHops(report.routes, p.shown, k, n) != [] ensures exists i :: 0 <= i < |t.nodes| && t.nodes[i].key == k {
      ShownIsListed(report, st, includeGeo, k);
    }
    KeptInOrder(st.order, p.seen);
    BundlesCounted(report, st, includeGeo);
    hide Nodes, GeoOf, Links, ShownRoutes;
  }

  // ----- Links -----

  ghost predicate LinkTold(l: Link, t: Topology, report: Report, st: State)
    requires Fit(report.routes, st.accepted)
  {
    && 1 <= l.from <= |t.nodes| && 1 <= l.to <= |t.nodes| && l.from != l.to
    && LinkSummarises(l.status, l.observations,
                      AcceptedStatuses(report.routes, st.accepted, Edge(t.nodes[l.from - 1].key, t.nodes[l.to - 1].key), |report.routes|))
  }

  /** The links are the accepted edges, each once, by the numbers of their ends. */
  ghost predicate LinksTold(t: Topology, report: Report, st: State)
    requires Fit(report.routes, st.accepted)
  {
    && (forall i :: 0 <= i < |t.links| ==> LinkTold(t.links[i], t, report, st))
    && (forall i, j :: 0 <= i < j < |t.links| ==>
          t.links[i].from < t.links[j].from || (t.links[i].from == t.links[j].from && t.links[i].to < t.links[j].to))
    && (forall r, i :: 0 <= r < |report.routes| && 0 <= i < st.accepted[r] ==> LinkFound(t, report.routes[r].nodes[i].key, report.routes[r].nodes[i + 1].key))
  }

  ghost predicate LinkFound(t: Topology, from: NodeKey, to: NodeKey) {
    exists i :: 0 <= i < |t.links| && 1 <= t.links[i].from <= |t.nodes| && 1 <= t.links[i].to <= |t.nodes|
                && t.nodes[t.links[i].from - 1].key == from && t.nodes[t.links[i].to - 1].key == to
  }

  lemma LinkCount(report: Report, st: State, includeGeo: bool)
    requires Fit(report.routes, st.accepted)
    ensures |Assemble(report, st, includeGeo).links| == |PartsOf(report.routes, st).edges|
    ensures |Assemble(report, st, includeGeo).nodes| == |PartsOf(report.routes, st).keys|
  {
    hide Assemble, PartsOf, NodeOf, LinkOf;
    Assembled(report, st, includeGeo);
  }

  lemma LinkedNodes(report: Report, lim: Limits, st: State, includeGeo: bool, e: Edge)
    requires Wired(report, lim, st) && Fit(report.routes, st.accepted) && e in PartsOf(report.routes, st).edges
    ensures var t, keys := Assemble(report, st, includeGeo), PartsOf(report.routes, st).keys;
            && e.from != e.to && 1 <= IdOf(keys, e.from) <= |t.nodes| && 1 <= IdOf(keys, e.to) <= |t.nodes|
            && IdOf(keys, e.from) != IdOf(keys, e.to) && |t.nodes| == |keys|
            && t.nodes[IdOf(keys, e.from) - 1].key == e.from && t.nodes[IdOf(keys, e.to) - 1].key == e.to
  {
    hide Assemble, PartsOf, NodeOf, LinkOf, Wired, EdgeList, Fit;
    var p := PartsOf(report.routes, st);
    LinkedPairs(report, lim, st, e);
    NodeAt(report, st, includeGeo, IdOf(p.keys, e.from) - 1);
    NodeAt(report, st, includeGeo, IdOf(p.keys, e.to) - 1);
  }

  lemma LinkStatuses(report: Report, st: State, e: Edge)
    requires Fit(report.routes, st.accepted) && e in PartsOf(report.routes, st).edges && e.from != e.to
    ensures var a := LinkOf(PartsOf(report.routes, st).links, e).value;
            LinkSummarises(a.status, a.observations, AcceptedStatuses(report.routes, st.accepted, e, |report.routes|))
  {
    hide PartsOf, LinkOf, LinkSummarises, NodeOf, Fit;
    PartKeys(report.routes, st);
    LinkLaw(PartsOf(report.routes, st).links, e);
    SeenAreAccepted(report.routes, st.accepted, e, |report.routes|);
  }

  lemma OneLinkTold(report: Report, lim: Limits, st: State, includeGeo: bool, i: nat)
    requires Wired(report, lim, st) && Fit(report.routes, st.accepted) && i < |PartsOf(report.routes, st).edges|
    ensures var t, p := Assemble(report, st, includeGeo), PartsOf(report.routes, st);
            && |t.links| == |p.edges| && LinkTold(t.links[i], t, report, st)
            && t.links[i].from == IdOf(p.keys, p.edges[i].from) && t.links[i].to == IdOf(p.keys, p.edges[i].to)
            && t.nodes[t.links[i].from - 1].key == p.edges[i].from && t.nodes[t.links[i].to - 1].key == p.edges[i].to
  {
    hide Assemble, PartsOf, NodeOf, LinkOf, Wired, EdgeList, LinkSummarises, Fit;
    var t, p := Assemble(report, st, includeGeo), PartsOf(report.routes, st);
    var e := p.edges[i];
    LinkAt(report, st, includeGeo, i);
    LinkCount(report, st, includeGeo);
    assert e in p.edges;
    LinkedNodes(report, lim, st, includeGeo, e);
    LinkStatuses(report, st, e);
  }

  ghost predicate EdgesInOrder(order: seq<NodeKey>, es: seq<Edge>) {
    forall i, j :: 0 <= i < j < |es| ==>
      Before(order, es[i].from, es[j].from) || (es[i].from == es[j].from && Before(order, es[i].to, es[j].to))
  }

  lemma {:induction false} EdgesFromInOrder(from: NodeKey, order: seq<NodeKey>, n: nat, seen: seq<(Edge, Status)>)
    requires n <= |order|
    ensures EdgesInOrder(order, EdgesFrom(from, order, n, seen))
  {
    if n > 0 {
      EdgesFromInOrder(from, order, n - 1, seen);
      var before, es := EdgesFrom(from, order, n - 1, seen), EdgesFrom(from, order, n, seen);
      forall i, j | 0 <= i < j < |es| ensures es[i].from == es[j].from && Before(order, es[i].to, es[j].to) {
        assert es[i] in before && es[i].to in order[..n - 1] && es[j] in es && es[i] in es;
        if j < |before| {
          assert before[i] in before && before[j] in before && before[i].from == before[j].from == from;
          assert Before(order, before[i].from, before[j].from) || Before(order, before[i].to, before[j].to);
          SameFrom(from, order, n - 1, seen, i, j);
        } else {
          var a :| 0 <= a < n - 1 && order[..n - 1][a] == es[i].to;
          assert order[a] == es[i].to && order[n - 1] == es[j].to;
        }
      }
    }
  }

  lemma {:induction false} SameFrom(from: NodeKey, order: seq<NodeKey>, n: nat, seen: seq<(Edge, Status)>, i: nat, j: nat)
    requires n <= |order| && i < j < |EdgesFrom(from, order, n, seen)|
    ensures Before(order, EdgesFrom(from, order, n, seen)[i].to, EdgesFrom(from, order, n, seen)[j].to)
  {
    var before, es := EdgesFrom(from, order, n - 1, seen), EdgesFrom(from, order, n, seen);
    if j < |before| {
      SameFrom(from, order, n - 1, seen, i, j);
    } else {
      assert before[i] in before && before[i].to in order[..n - 1];
      var a :| 0 <= a < n - 1 && order[..n - 1][a] == before[i].to;
      assert order[a] == es[i].to && order[n - 1] == es[j].to;
    }
  }

  lemma Earlier(order: seq<NodeKey>, n: nat, a: NodeKey)
    requires n < |order| && a in order[..n]
    ensures Before(order, a, order[n])
  {
    var i :| 0 <= i < n && order[..n][i] == a;
    assert order[i] == a;
  }

  lemma NoEdges(order: seq<NodeKey>, seen: seq<(Edge, Status)>)
    ensures EdgesInOrder(order, EdgeList(order, 0, seen))
  {
  }

  lemma EdgeListSteps(order: seq<NodeKey>, n: nat, seen: seq<(Edge, Status)>)
    requires 0 < n <= |order|
    ensures EdgeList(order, n, seen) == EdgeList(order, n - 1, seen) + EdgesFrom(order[n - 1], order, |order|, seen)
  {
  }

  lemma JoinInOrder(order: seq<NodeKey>, before: seq<Edge>, last: seq<Edge>)
    requires EdgesInOrder(order, before) && EdgesInOrder(order, last)
    requires forall e, f :: e in before && f in last ==> Before(order, e.from, f.from)
    ensures EdgesInOrder(order, before + last)
  {
    hide Before;
    var es := before + last;
    forall i, j | 0 <= i < j < |es|
      ensures Before(order, es[i].from, es[j].from) || (es[i].from == es[j].from && Before(order, es[i].to, es[j].to))
    {
      if i < |before| <= j {
        assert es[i] == before[i] && es[j] == last[j - |before|] && before[i] in before && last[j - |before|] in last;
      } else if i >= |before| {
        assert es[i] == last[i - |before|] && es[j] == last[j - |before|];
      } else {
        assert es[i] == before[i] && es[j] == before[j];
      }
    }
  }

  lemma {:induction false} EdgeListInOrder(order: seq<NodeKey>, n: nat, seen: seq<(Edge, Status)>)
    requires n <= |order|
    ensures EdgesInOrder(order, EdgeList(order, n, seen))
  {
    hide Before, EdgesFrom, EdgesInOrder, EdgeList;
    if n > 0 {
      EdgeListInOrder(order, n - 1, seen);
      EdgesFromInOrder(order[n - 1], order, |order|, seen);
      var before, last := EdgeList(order, n - 1, seen), EdgesFrom(order[n - 1], order, |order|, seen);
      EdgeListSteps(order, n, seen);
      forall e, f | e in before && f in last ensures Before(order, e.from, f.from) {
        Earlier(order, n - 1, e.from);
      }
      JoinInOrder(order, before, last);
    } else {
      NoEdges(order, seen);
    }
  }

  lemma BeforeOnce(order: seq<NodeKey>, a: NodeKey, b: NodeKey)
    requires Distinct(order)
    ensures !(Before(order, a, b) && Before(order, b, a))
  {
  }

  lemma IdsFollowOrder(order: seq<NodeKey>, seen: seq<(NodeKey, Raw)>, a: NodeKey, b: NodeKey)
    requires Distinct(order) && a in KeptKeys(order, seen) && b in KeptKeys(order, seen) && Before(order, a, b)
    ensures IdOf(KeptKeys(order, seen), a) < IdOf(KeptKeys(order, seen), b)
  {
    var keys := KeptKeys(order, seen);
    KeptInOrder(order, seen);
    hide KeptKeys;
    var x, y := IdOf(keys, b) - 1, IdOf(keys, a) - 1;
    assert keys[x] == b && keys[y] == a;
    BeforeOnce(order, a, b);
  }

  lemma LinksInOrder(report: Report, lim: Limits, st: State, includeGeo: bool, i: nat, j: nat)
    requires Wired(report, lim, st) && Fit(report.routes, st.accepted) && i < j < |PartsOf(report.routes, st).edges|
    requires EdgesInOrder(st.order, PartsOf(report.routes, st).edges)
    ensures var t := Assemble(report, st, includeGeo);
            && |t.links| == |PartsOf(report.routes, st).edges|
            && (t.links[i].from < t.links[j].from || (t.links[i].from == t.links[j].from && t.links[i].to < t.links[j].to))
  {
    hide Assemble, PartsOf, LinkTold, NodeOf, LinkOf, Wired, KeptKeys, EdgeList, Before;
    var p := PartsOf(report.routes, st);
    WiredFacts(report, lim, st);
    PartKeys(report.routes, st);
    OneLinkTold(report, lim, st, includeGeo, i);
    OneLinkTold(report, lim, st, includeGeo, j);
    LinkedPairs(report, lim, st, p.edges[i]);
    LinkedPairs(report, lim, st, p.edges[j]);
    if Before(st.order, p.edges[i].from, p.edges[j].from) {
      IdsFollowOrder(st.order, p.seen, p.edges[i].from, p.edges[j].from);
    } else {
      IdsFollowOrder(st.order, p.seen, p.edges[i].to, p.edges[j].to);
    }
  }

  lemma LinkTells(report: Report, st: State, t: Topology, m: nat)
    requires Fit(report.routes, st.accepted) && m < |t.links| && LinkTold(t.links[m], t, report, st)
    ensures LinkFound(t, t.nodes[t.links[m].from - 1].key, t.nodes[t.links[m].to - 1].key)
  {
  }

  lemma LinksAreTold(report: Report, lim: Limits, st: State, includeGeo: bool)
    requires Wired(report, lim, st) && Fit(report.routes, st.accepted)
    ensures LinksTold(Assemble(report, st, includeGeo), report, st)
  {
    hide Assemble, PartsOf, LinkTold, NodeOf, LinkOf, Wired, KeptKeys, EdgeList, Before;
    var t, p := Assemble(report, st, includeGeo), PartsOf(report.routes, st);
    WiredFacts(report, lim, st);
    Assembled(report, st, includeGeo);
    PartKeys(report.routes, st);
    EdgeListInOrder(st.order, |st.order|, p.links);
    forall i | 0 <= i < |t.links| ensures LinkTold(t.links[i], t, report, st) {
      OneLinkTold(report, lim, st, includeGeo, i);
    }
    forall i, j | 0 <= i < j < |t.links|
      ensures t.links[i].from < t.links[j].from || (t.links[i].from == t.links[j].from && t.links[i].to < t.links[j].to)
    {
      LinksInOrder(report, lim, st, includeGeo, i, j);
    }
    forall r, i | 0 <= r < |report.routes| && 0 <= i < st.accepted[r]
      ensures LinkFound(t, report.routes[r].nodes[i].key, report.routes[r].nodes[i + 1].key)
    {
      AcceptedEnds(report, lim, st, r, i);
      AcceptedLink(report.routes, st.accepted, r, i);
      var e := report.routes[r].Path().EdgeAt(i);
      var m :| 0 <= m < |p.edges| && p.edges[m] == e;
      OneLinkTold(report, lim, st, includeGeo, m);
      LinkTells(report, st, t, m);
    }
  }

  // ----- Routes -----

  /** A route shows the ends of its accepted edges; without any, only a lone node that is selected. */
  ghost predicate ShownTold(routes: seq<Route>, st: State, shown: seq<nat>) {
    |shown| == |routes| == |st.accepted|
    && forall r :: 0 <= r < |routes| ==>
         shown[r] == if st.accepted[r] > 0 then st.accepted[r] + 1
                     else if |routes[r].nodes| == 1 && routes[r].nodes[0].key in st.order then 1 else 0
  }

  /** The routes that show a node, in report order. */
  function Displayed(shown: seq<nat>, n: nat): (d: seq<nat>)
    requires n <= |shown|
    ensures forall r :: r in d <==> 0 <= r < n && shown[r] > 0
    ensures forall i, j :: 0 <= i < j < |d| ==> d[i] < d[j]
  {
    if n == 0 then []
    else
      var before := Displayed(shown, n - 1);
      assert forall i :: 0 <= i < |before| ==> before[i] in before;
      before + if shown[n - 1] > 0 then [n - 1] else []
  }

  ghost predicate RouteTold(s: Shortened, route: Route, accepted: nat, shown: nat, nodes: seq<Node>)
    requires shown <= |route.nodes|
  {
    && s.resultIndex == route.resultIndex && s.attempt == route.attempt && s.status == route.status && s.reached == route.reached
    && |s.ids| == shown && (s.complete <==> shown == |route.nodes|) && (accepted > 0 ==> shown == accepted + 1)
    && forall j :: 0 <= j < shown ==> 1 <= s.ids[j] <= |nodes| && nodes[s.ids[j] - 1].key == route.nodes[j].key
  }

  ghost predicate RoutesTold(t: Topology, report: Report, st: State, shown: seq<nat>) {
    && ShownTold(report.routes, st, shown) && |t.routes| == |Displayed(shown, |shown|)|
    && forall m :: 0 <= m < |t.routes| ==>
         var r := Displayed(shown, |shown|)[m];
         r < |shown| && shown[r] <= |report.routes[r].nodes| && RouteTold(t.routes[m], report.routes[r], st.accepted[r], shown[r], t.nodes)
  }

  lemma DisplayedStep(shown: seq<nat>, n: nat)
    requires 0 < n <= |shown|
    ensures Displayed(shown, n) == Displayed(shown, n - 1) + if shown[n - 1] > 0 then [n - 1] else []
  {
  }

  lemma NoneDisplayed(routes: seq<Route>, accepted: seq<nat>, shown: seq<nat>, keys: seq<NodeKey>)
    requires Fit(routes, accepted) && |shown| == |routes|
    requires forall r :: 0 <= r < |routes| ==> shown[r] <= |routes[r].nodes|
    ensures ShownRoutes(routes, accepted, shown, keys, 0) == [] && Displayed(shown, 0) == []
  {
  }

  lemma {:induction false} ListedAreDisplayed(routes: seq<Route>, accepted: seq<nat>, shown: seq<nat>, keys: seq<NodeKey>, n: nat)
    requires Fit(routes, accepted) && |shown| == |routes| && n <= |routes|
    requires forall r :: 0 <= r < |routes| ==> shown[r] <= |routes[r].nodes|
    ensures var listed, d := ShownRoutes(routes, accepted, shown, keys, n), Displayed(shown, n);
            && |listed| == |d|
            && forall m :: 0 <= m < |d| ==> d[m] in d && listed[m] == Shorten(routes[d[m]], accepted[d[m]], shown[d[m]], keys)
  {
    hide Fit, Shorten, ShownRoutes, Displayed;
    if n > 0 {
      ListedAreDisplayed(routes, accepted, shown, keys, n - 1);
      ShownRoutesStep(routes, accepted, shown, keys, n);
      DisplayedStep(shown, n);
    } else {
      NoneDisplayed(routes, accepted, shown, keys);
    }
  }

  lemma ShownIsKept(report: Report, lim: Limits, st: State, r: nat, j: nat)
    requires Wired(report, lim, st) && Fit(report.routes, st.accepted) && r < |report.routes|
    requires j < PartsOf(report.routes, st).shown[r]
    ensures report.routes[r].nodes[j].key in PartsOf(report.routes, st).keys
  {
    hide PartsOf, NodeOf, Wired;
    var p, key := PartsOf(report.routes, st), report.routes[r].nodes[j].key;
    PartsFacts(report, lim, st, key);
    assert ShownAt(report.routes, p.shown, |report.routes|, r, j, key);
  }

  lemma ShownAre(routes: seq<Route>, st: State, r: nat)
    requires Fit(routes, st.accepted) && r < |routes|
    ensures var shown := PartsOf(routes, st).shown;
            |shown| == |routes| && shown[r] == Shown(routes[r], st.accepted[r], Elements(st.order)) <= |routes[r].nodes|
  {
    hide KeptKeys, SeenNodes, EdgeList, SeenLinks, Shown;
  }

  lemma OneRouteTold(report: Report, lim: Limits, st: State, includeGeo: bool, r: nat)
    requires Wired(report, lim, st) && Fit(report.routes, st.accepted) && r < |report.routes|
    requires PartsOf(report.routes, st).shown[r] > 0
    ensures var t, p := Assemble(report, st, includeGeo), PartsOf(report.routes, st);
            RouteTold(Shorten(report.routes[r], st.accepted[r], p.shown[r], p.keys), report.routes[r], st.accepted[r], p.shown[r], t.nodes)
  {
    hide Assemble, PartsOf, NodeOf, LinkOf, Wired, NodeFor, IdOf;
    var t, p, route := Assemble(report, st, includeGeo), PartsOf(report.routes, st), report.routes[r];
    FitAt(report.routes, st.accepted, r);
    hide Fit;
    ShownAre(report.routes, st, r);
    var s := Shorten(route, st.accepted[r], p.shown[r], p.keys);
    forall j | 0 <= j < p.shown[r] ensures 1 <= s.ids[j] <= |t.nodes| && t.nodes[s.ids[j] - 1].key == route.nodes[j].key {
      var key := route.nodes[j].key;
      ShownIsKept(report, lim, st, r, j);
      NodeAt(report, st, includeGeo, IdOf(p.keys, key) - 1);
      NodeForId(IdOf(p.keys, key), key, NodeOf(p.seen, key).value, includeGeo);
    }
  }

  lemma RoutesAreTold(report: Report, lim: Limits, st: State, includeGeo: bool)
    requires Wired(report, lim, st) && Fit(report.routes, st.accepted)
    ensures RoutesTold(Assemble(report, st, includeGeo), report, st, PartsOf(report.routes, st).shown)
  {
    hide Assemble, PartsOf, NodeOf, LinkOf, Wired, KeptKeys, RouteTold, Displayed, Shorten, ShownRoutes;
    var t, p, n := Assemble(report, st, includeGeo), PartsOf(report.routes, st), |report.routes|;
    Assembled(report, st, includeGeo);
    PartKeys(report.routes, st);
    ListedAreDisplayed(report.routes, st.accepted, p.shown, p.keys, n);
    forall r | 0 <= r < n ensures p.shown[r] == Shown(report.routes[r], st.accepted[r], Elements(st.order)) {
    }
    forall m | 0 <= m < |t.routes|
      ensures var r := Displayed(p.shown, n)[m]; r < n && RouteTold(t.routes[m], report.routes[r], st.accepted[r], p.shown[r], t.nodes)
    {
      var d := Displayed(p.shown, n);
      assert d[m] in d;
      OneRouteTold(report, lim, st, includeGeo, d[m]);
    }
  }

  // ----- Totals and reasons -----

  /** Nodes and steps of the first n routes of result g. */
  function NodesIn(routes: seq<Route>, g: nat, n: nat): nat
    requires n <= |routes|
  {
    if n == 0 then 0 else NodesIn(routes, g, n - 1) + if routes[n - 1].resultIndex == g then |routes[n - 1].nodes| else 0
  }

  function StepsIn(routes: seq<Route>, g: nat, n: nat): nat
    requires n <= |routes|
  {
    if n == 0 then 0
    else StepsIn(routes, g, n - 1) + if routes[n - 1].resultIndex == g && |routes[n - 1].nodes| > 0 then |routes[n - 1].nodes| - 1 else 0
  }

  function AttemptsIn(routes: seq<Route>, g: nat): set<nat> { set r | 0 <= r < |routes| && routes[r].resultIndex == g }

  ghost function KeysIn(routes: seq<Route>, n: nat): set<NodeKey>
    requires n <= |routes|
  {
    set r, i | 0 <= r < n && 0 <= i < |routes[r].nodes| :: routes[r].nodes[i].key
  }

  function EdgeAt(route: Route, i: nat): Edge
    requires 0 < i < |route.nodes|
  {
    Edge(route.nodes[i - 1].key, route.nodes[i].key)
  }

  ghost function EdgesIn(routes: seq<Route>, n: nat): set<Edge>
    requires n <= |routes|
  {
    set r, i | 0 <= r < n && 0 < i < |routes[r].nodes| :: EdgeAt(routes[r], i)
  }

  ghost predicate TotalsTold(t: Topology, report: Report) {
    var n := |report.routes|;
    && t.stats.nodes.total == |KeysIn(report.routes, n)| && t.stats.links.total == |EdgesIn(report.routes, n)| && t.stats.routes.total == n
    && |t.results| == |report.traceroute|
    && forall g :: 0 <= g < |t.results| ==> ResultTold(t.results[g], report.routes, g)
  }

  ghost predicate ResultTold(c: ResultCounts, routes: seq<Route>, g: nat) {
    && c.routes.total == |AttemptsIn(routes, g)|
    && c.nodes.total == NodesIn(routes, g, |routes|) && c.links.total == StepsIn(routes, g, |routes|)
  }

  /** Each reason is given exactly when its limit was met. */
  ghost predicate ReasonsTold(t: Topology, st: State) {
    && (NodeLimit in t.reasons <==> st.nodeLimited) && (LinkLimit in t.reasons <==> st.linkLimited)
    && (GeoLimit in t.reasons <==> t.geo.omitted > 0) && ResponseSize !in t.reasons && (t.truncated <==> t.reasons != [])
  }

  lemma {:induction false} FullNodesAre(routes: seq<Route>, n: nat)
    requires n <= |routes|
    ensures FullNodes(routes, n) == KeysIn(routes, n)
  {
    if n > 0 {
      var m, nodes := n - 1, routes[n - 1].nodes;
      FullNodesAre(routes, m);
      forall k ensures k in KeysIn(routes, n) <==> k in KeysIn(routes, m) || exists i :: 0 <= i < |nodes| && nodes[i].key == k {
        if i :| 0 <= i < |nodes| && nodes[i].key == k {
          assert routes[m].nodes[i].key == k;
        }
      }
      forall k ensures k in Elements(routes[m].Path().keys) <==> exists i :: 0 <= i < |nodes| && nodes[i].key == k {
        if i :| 0 <= i < |nodes| && nodes[i].key == k {
          assert routes[m].Path().keys[i] == k;
        }
      }
    }
  }

  lemma RouteEdgesAre(route: Route, e: Edge)
    requires Merged(route.nodes) && |route.edgeStatuses| == route.Path().Edges()
    ensures e in RouteEdgeSet(route) <==> exists i :: 0 < i < |route.nodes| && EdgeAt(route, i) == e
  {
    var k := route.Path().Edges();
    RouteLinkFacts(route, k, e);
    EdgeSetFacts(route, e);
    hide RouteLinks;
    if e in RouteEdgeSet(route) {
      var q :| q in RouteLinks(route, k) && q.0 == e;
      var m: nat :| m < |RouteLinks(route, k)| && RouteLinks(route, k)[m] == q;
      assert LinkOccurs(RouteLinks(route, k), e);
      var i: nat :| EdgeWithin(route, k, i, e);
      var j := i + 1;
      assert 0 < j < |route.nodes| && EdgeAt(route, j) == e;
    }
    if i :| 0 < i < |route.nodes| && EdgeAt(route, i) == e {
      assert EdgeWithin(route, k, i - 1, e);
    }
  }

  lemma EdgesInStep(routes: seq<Route>, m: nat, e: Edge)
    requires m < |routes|
    ensures e in EdgesIn(routes, m + 1) <==>
            e in EdgesIn(routes, m) || exists i :: 0 < i < |routes[m].nodes| && EdgeAt(routes[m], i) == e
  {
  }

  lemma {:induction false} FullLinksAre(routes: seq<Route>, accepted: seq<nat>, n: nat)
    requires Fit(routes, accepted) && n <= |routes|
    ensures FullLinks(routes, accepted, n) == EdgesIn(routes, n)
  {
    hide RouteEdgeSet, RouteLinks;
    if n > 0 {
      var m, nodes := n - 1, routes[n - 1].nodes;
      FullLinksAre(routes, accepted, m);
      forall e ensures e in EdgesIn(routes, n) <==> e in EdgesIn(routes, m) || e in RouteEdgeSet(routes[m]) {
        RouteEdgesAre(routes[m], e);
        EdgesInStep(routes, m, e);
      }
      hide EdgesIn;
    }
  }

  lemma NoTotals(routes: seq<Route>, accepted: seq<nat>, shown: seq<nat>, g: nat)
    requires Fit(routes, accepted) && |shown| == |routes|
    ensures var w, o := WeightsOf(routes, accepted, shown), Owners(routes);
            && PerResult(o, w.one, g, 0) == |AttemptsIn(routes[..0], g)|
            && PerResult(o, w.nodes, g, 0) == NodesIn(routes, g, 0) && PerResult(o, w.links, g, 0) == StepsIn(routes, g, 0)
  {
    assert AttemptsIn(routes[..0], g) == {};
  }

  lemma WeightsHere(routes: seq<Route>, accepted: seq<nat>, shown: seq<nat>, m: nat)
    requires Fit(routes, accepted) && |shown| == |routes| && m < |routes|
    ensures var w, o := WeightsOf(routes, accepted, shown), Owners(routes);
            w.one[m] == 1 && w.nodes[m] == |routes[m].nodes| && w.links[m] == routes[m].Path().Edges() && o[m] == routes[m].resultIndex
  {
    RouteLinkFacts(routes[m], routes[m].Path().Edges(), Edge(Local, Local));
    hide RouteLinks;
  }

  lemma TotalsStep(routes: seq<Route>, g: nat, m: nat)
    requires m < |routes|
    ensures var here := routes[m].resultIndex == g;
            && |AttemptsIn(routes[..m + 1], g)| == |AttemptsIn(routes[..m], g)| + (if here then 1 else 0)
            && NodesIn(routes, g, m + 1) == NodesIn(routes, g, m) + (if here then |routes[m].nodes| else 0)
            && StepsIn(routes, g, m + 1) == StepsIn(routes, g, m) + if here then routes[m].Path().Edges() else 0
  {
    assert m !in AttemptsIn(routes[..m], g);
    assert AttemptsIn(routes[..m + 1], g) == AttemptsIn(routes[..m], g) + if routes[m].resultIndex == g then {m} else {};
  }

  lemma {:induction false} ResultTotals(routes: seq<Route>, accepted: seq<nat>, shown: seq<nat>, g: nat, n: nat)
    requires Fit(routes, accepted) && |shown| == |routes| && n <= |routes|
    ensures var w, o := WeightsOf(routes, accepted, shown), Owners(routes);
            && PerResult(o, w.one, g, n) == |AttemptsIn(routes[..n], g)|
            && PerResult(o, w.nodes, g, n) == NodesIn(routes, g, n) && PerResult(o, w.links, g, n) == StepsIn(routes, g, n)
  {
    hide WeightsOf, Owners, RouteLinks, Fit, AttemptsIn, NodesIn, StepsIn, PerResult, Total;
    if n == 0 {
      NoTotals(routes, accepted, shown, g);
    } else {
      var w, o := WeightsOf(routes, accepted, shown), Owners(routes);
      ResultTotals(routes, accepted, shown, g, n - 1);
      WeightsHere(routes, accepted, shown, n - 1);
      SumsStep(o, w.one, g, n);
      SumsStep(o, w.nodes, g, n);
      SumsStep(o, w.links, g, n);
      TotalsStep(routes, g, n - 1);
    }
  }

  lemma CountTotals(owners: seq<nat>, w: Weights, g: nat)
    requires Sized(w, |owners|)
    ensures var c, n := CountsFor(owners, w, g, |owners|), |owners|;
            && c.routes.total == PerResult(owners, w.one, g, n) && c.nodes.total == PerResult(owners, w.nodes, g, n)
            && c.links.total == PerResult(owners, w.links, g, n)
  {
  }

  lemma GlobalTotals(routes: seq<Route>, accepted: seq<nat>, shown: seq<nat>, nodes: nat, links: nat, listed: nat)
    requires Fit(routes, accepted) && |shown| == |routes|
    ensures var s := StatsOf(routes, accepted, shown, nodes, links, listed);
            s.nodes.total == |KeysIn(routes, |routes|)| && s.links.total == |EdgesIn(routes, |routes|)| && s.routes.total == |routes|
  {
    hide KeysIn, EdgesIn, FullNodes, FullLinks, WeightsOf, Total, Fit;
    FullNodesAre(routes, |routes|);
    FullLinksAre(routes, accepted, |routes|);
  }

  lemma ResultIsTold(report: Report, st: State, includeGeo: bool, g: nat)
    requires Fit(report.routes, st.accepted) && g < |report.traceroute|
    ensures var t := Assemble(report, st, includeGeo); |t.results| == |report.traceroute| && ResultTold(t.results[g], report.routes, g)
  {
    hide Assemble, PartsOf, WeightsOf, Owners, NodesIn, StepsIn, AttemptsIn, NodeOf, LinkOf, CountsFor, ShownRoutes, Fit, PerResult;
    var p, n := PartsOf(report.routes, st), |report.routes|;
    ResultAt(report, st, includeGeo, g);
    assert report.routes[..n] == report.routes;
    ResultTotals(report.routes, st.accepted, p.shown, g, n);
    CountTotals(Owners(report.routes), WeightsOf(report.routes, st.accepted, p.shown), g);
  }

  lemma TotalsAreTold(report: Report, lim: Limits, st: State, includeGeo: bool)
    requires Wired(report, lim, st) && Fit(report.routes, st.accepted)
    ensures TotalsTold(Assemble(report, st, includeGeo), report)
  {
    hide Assemble, PartsOf, WeightsOf, Owners, ResultTold, KeysIn, EdgesIn, StatsOf, NodeOf, LinkOf, CountsFor, ShownRoutes, Fit, Wired;
    var t, p := Assemble(report, st, includeGeo), PartsOf(report.routes, st);
    AssembledCounts(report, st, includeGeo);
    GlobalTotals(report.routes, st.accepted, p.shown, |p.keys|, |p.edges|, |t.routes|);
    forall g | 0 <= g < |t.results| ensures ResultTold(t.results[g], report.routes, g) {
      ResultIsTold(report, st, includeGeo, g);
    }
  }

  lemma ReasonsAreTold(report: Report, st: State, includeGeo: bool)
    requires Fit(report.routes, st.accepted)
    ensures ReasonsTold(Assemble(report, st, includeGeo), st)
  {
    hide Assemble, PartsOf, NodeOf, LinkOf, GeoOf, Fit, ShownRoutes;
    Assembled(report, st, includeGeo);
  }

  /** Everything a topology assembled from a selection says, whatever the size of the report. */
  lemma TopologyIsTold(report: Report, lim: Limits, includeGeo: bool)
    requires AllShapes(report.routes) && 1 <= lim.maxNodes
    requires forall i :: 0 <= i < |report.routes| ==> report.routes[i].resultIndex < |report.traceroute|
    ensures var st := SelectionOf(report, lim);
            && Fit(report.routes, st.accepted)
            && var t, shown := Assemble(report, st, includeGeo), PartsOf(report.routes, st).shown;
               && NodesTold(t, report, st, shown, includeGeo) && LinksTold(t, report, st)
               && RoutesTold(t, report, st, shown) && TotalsTold(t, report) && ReasonsTold(t, st)
  {
    hide Assemble, PartsOf, NodesTold, LinksTold, RoutesTold, TotalsTold, ReasonsTold, SelectionOf;
    var st := SelectionOf(report, lim);
    WiredFacts(report, lim, st);
    NodesAreTold(report, lim, st, includeGeo);
    LinksAreTold(report, lim, st, includeGeo);
    RoutesAreTold(report, lim, st, includeGeo);
    TotalsAreTold(report, lim, st, includeGeo);
    ReasonsAreTold(report, st, includeGeo);
  }
}
