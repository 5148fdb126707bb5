/** The browser's contract for a compact topology, and the theorem that every topology the server
    assembles within the declared input bounds meets it. */
module CompactConsumer {
  import opened Text
  import opened CompactSelection
  import opened CompactTopology
  import opened CompactProducer

  // ----- The contract -----

  predicate HasNode(t: Topology, id: nat) { exists i :: 0 <= i < |t.nodes| && t.nodes[i].id == id }

  predicate HasLink(t: Topology, from: nat, to: nat) {
    exists i :: 0 <= i < |t.links| && t.links[i].from == from && t.links[i].to == to
  }

  predicate NodesAccepted(t: Topology) {
    && |t.nodes| <= 500
    && (forall i :: 0 <= i < |t.nodes| ==>
          var n := t.nodes[i];
          && n.hopMin <= n.hopMax <= 255 && 1 <= n.observations <= 8192
          && (n.geo.Some? ==> n.publicIP && n.geo.value.bytes <= MAX_GEO_BYTES))
    && (forall i, j :: 0 <= i < j < |t.nodes| ==> t.nodes[i].id != t.nodes[j].id)
  }

  predicate LinksAccepted(t: Topology) {
    && |t.links| <= 1000
    && (forall i :: 0 <= i < |t.links| ==>
          var l := t.links[i];
          HasNode(t, l.from) && HasNode(t, l.to) && l.from != l.to && 1 <= l.observations <= 16384)
    && (forall i, j :: 0 <= i < j < |t.links| ==> t.links[i].from != t.links[j].from || t.links[i].to != t.links[j].to)
  }

  predicate RouteAccepted(t: Topology, r: Shortened, traceroute: seq<bool>) {
    && 1 <= |r.ids| <= 32
    && (forall j :: 0 <= j < |r.ids| ==> HasNode(t, r.ids[j]))
    && (forall j :: 0 < j < |r.ids| ==> r.ids[j] != r.ids[j - 1] && HasLink(t, r.ids[j - 1], r.ids[j]))
    && r.resultIndex < |traceroute| && traceroute[r.resultIndex]
    && 1 <= r.attempt <= 10 && (r.reached <==> !r.status.Unreachable?)
  }

  predicate RoutesAccepted(t: Topology, traceroute: seq<bool>) {
    |t.routes| <= 200 && forall i :: 0 <= i < |t.routes| ==> RouteAccepted(t, t.routes[i], traceroute)
  }

  predicate CountAccepted(c: Count, bound: int) {
    0 <= c.total <= bound && 0 <= c.displayed <= bound && 0 <= c.omitted <= bound && c.total == c.displayed + c.omitted
  }

  predicate RouteCountAccepted(c: RouteCount) {
    && 0 <= c.total <= 200 && 0 <= c.displayed <= 200 && 0 <= c.complete <= 200 && 0 <= c.partial <= 200 && 0 <= c.omitted <= 200
    && c.total == c.displayed + c.omitted && c.displayed == c.complete + c.partial
  }

  function LinkObservations(links: seq<Link>): nat {
    if links == [] then 0 else LinkObservations(links[..|links| - 1]) + links[|links| - 1].observations
  }

  /** What the browser recounts from the listed routes. */
  datatype Measure = ListedRoutes | ListedComplete | ListedPartial | ListedNodes | ListedLinks {
    function Of(r: Shortened): nat {
      match this
      case ListedRoutes => 1
      case ListedComplete => Bit(r.complete)
      case ListedPartial => Bit(!r.complete)
      case ListedNodes => |r.ids|
      case ListedLinks => if |r.ids| > 0 then |r.ids| - 1 else 0
    }
  }

  function Tally(routes: seq<Shortened>, m: Measure): nat {
    if routes == [] then 0 else Tally(routes[..|routes| - 1], m) + m.Of(routes[|routes| - 1])
  }

  predicate StatsAccepted(t: Topology) {
    var s := t.stats;
    && CountAccepted(s.nodes, 8192) && CountAccepted(s.links, 16384) && RouteCountAccepted(s.routes)
    && CountAccepted(s.nodeObservations, 8192) && CountAccepted(s.linkObservations, 16384)
    && s.nodes.displayed == |t.nodes| && s.links.displayed == |t.links| && s.routes.displayed == |t.routes|
    && s.routes.complete == Tally(t.routes, ListedComplete) && s.routes.partial == Tally(t.routes, ListedPartial)
    && s.linkObservations.displayed == LinkObservations(t.links)
  }

  /** The same measure over the listed routes of result g alone. */
  function Listed(routes: seq<Shortened>, m: Measure, g: nat): nat {
    if routes == [] then 0
    else
      var last := routes[|routes| - 1];
      Listed(routes[..|routes| - 1], m, g) + (if last.resultIndex == g then m.Of(last) else 0)
  }

  predicate ResultAccepted(t: Topology, g: nat, traceroute: bool)
    requires g < |t.results|
  {
    var c := t.results[g];
    && RouteCountAccepted(c.routes) && CountAccepted(c.nodes, 8192) && CountAccepted(c.links, 16384)
    && c.routes.displayed == Listed(t.routes, ListedRoutes, g)
    && c.routes.complete == Listed(t.routes, ListedComplete, g)
    && c.routes.partial == Listed(t.routes, ListedPartial, g)
    && c.nodes.displayed == Listed(t.routes, ListedNodes, g)
    && c.links.displayed == Listed(t.routes, ListedLinks, g)
    && (!traceroute ==> c == ResultCounts(RouteCount(0, 0, 0, 0, 0), Count(0, 0, 0), Count(0, 0, 0)))
  }

  predicate ResultsAccepted(t: Topology, traceroute: seq<bool>) {
    && |t.results| == |traceroute| <= 20
    && forall g :: 0 <= g < |t.results| ==> ResultAccepted(t, g, traceroute[g])
  }

  /** The per-result counts that must add up to the global ones. */
  datatype Field =
    | RoutesTotal | RoutesDisplayed | RoutesComplete | RoutesPartial | RoutesOmitted
    | NodesTotal | NodesDisplayed | NodesOmitted | LinksTotal | LinksDisplayed | LinksOmitted
  {
    function Of(c: ResultCounts): int {
      match this
      case RoutesTotal => c.routes.total
      case RoutesDisplayed => c.routes.displayed
      case RoutesComplete => c.routes.complete
      case RoutesPartial => c.routes.partial
      case RoutesOmitted => c.routes.omitted
      case NodesTotal => c.nodes.total
      case NodesDisplayed => c.nodes.displayed
      case NodesOmitted => c.nodes.omitted
      case LinksTotal => c.links.total
      case LinksDisplayed => c.links.displayed
      case LinksOmitted => c.links.omitted
    }

    function Global(s: Stats): int { Of(ResultCounts(s.routes, s.nodeObservations, s.linkObservations)) }
  }

  function SumOf(results: seq<ResultCounts>, f: Field): int {
    if results == [] then 0 else SumOf(results[..|results| - 1], f) + f.Of(results[|results| - 1])
  }

  ghost predicate SumsAccepted(t: Topology) { forall f: Field :: SumOf(t.results, f) == f.Global(t.stats) }

  function PublicNodes(nodes: seq<Node>, n: nat, withGeo: bool): nat
    requires n <= |nodes|
  {
    if n == 0 then 0
    else PublicNodes(nodes, n - 1, withGeo) + Bit(nodes[n - 1].publicIP && (withGeo ==> nodes[n - 1].geo.Some?))
  }

  predicate GeoAccepted(t: Topology) {
    var g := t.geo;
    && g.eligible <= 500 && g.available <= 500 && g.included <= 500 && g.omitted <= 500 && g.unavailable <= 500
    && g.eligible == PublicNodes(t.nodes, |t.nodes|, false)
    && g.included == PublicNodes(t.nodes, |t.nodes|, true)
    && g.eligible == g.available + g.unavailable && g.available == g.included + g.omitted
  }

  function ReasonRank(r: Reason): nat {
    match r
    case NodeLimit => 0
    case LinkLimit => 1
    case ResponseSize => 2
    case GeoLimit => 3
  }

  predicate ReasonsAccepted(t: Topology) {
    && (forall i :: 0 < i < |t.reasons| ==> ReasonRank(t.reasons[i - 1]) < ReasonRank(t.reasons[i]))
    && (t.truncated <==> |t.reasons| > 0)
  }

  ghost predicate Accepted(t: Topology, traceroute: seq<bool>) {
    && NodesAccepted(t) && LinksAccepted(t) && RoutesAccepted(t, traceroute) && StatsAccepted(t)
    && ResultsAccepted(t, traceroute) && SumsAccepted(t) && GeoAccepted(t) && ReasonsAccepted(t)
  }

  // ----- Declared input bounds -----

  function HopCount(nodes: seq<Observation>, n: nat): nat
    requires n <= |nodes|
  {
    if n == 0 then 0 else HopCount(nodes, n - 1) + |nodes[n - 1].raws|
  }

  /** What compactRoutes builds: merged observations and one status per edge. */
  ghost predicate RouteShape(r: Route) { Merged(r.nodes) && |r.edgeStatuses| == r.Path().Edges() }

  ghost predicate RouteBounds(r: Route) {
    && RouteShape(r)
    && HopCount(r.nodes, |r.nodes|) <= 32
    && (forall i, j :: 0 <= i < |r.nodes| && 0 <= j < |r.nodes[i].raws| ==> r.nodes[i].raws[j].hop <= 255)
    && 1 <= r.attempt <= 10 && (r.reached <==> !r.status.Unreachable?)
  }

  ghost predicate Bounds(report: Report) {
    && |report.traceroute| <= 20 && |report.routes| <= 200
    && forall i :: 0 <= i < |report.routes| ==>
         var r := report.routes[i];
         RouteBounds(r) && r.resultIndex < |report.traceroute| && report.traceroute[r.resultIndex]
  }

  /** The selection the topology is assembled from. */
  function SelectionOf(report: Report, lim: Limits): State
    requires forall i :: 0 <= i < |report.routes| ==> report.routes[i].resultIndex < |report.traceroute|
  {
    Selected(Paths(report.routes), |report.traceroute|, lim)
  }
}
