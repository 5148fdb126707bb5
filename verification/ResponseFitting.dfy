/** Fitting a compact response under its byte limit (backend/api/server.go): probe the whole topology, then
    drop Geo bundles from the back, then drop accepted transactions; and fitting the Geo sidecar into an
    already fitted response (backend/api/geo_details.go). */
module ResponseFitting {
  import opened Text
  import opened GeoSidecar

  const LIMIT: nat := 0x10_0000
  const NEWLINE: Byte := 10

  // ----- Geo bundles and their encoding -----

  type Numeral = s: seq<Unit> | |s| > 0 && forall i :: 0 <= i < |s| ==> s[i] < 0x80 witness [0x30]

  /** Number printing is opaque: a coordinate is whatever numeral the encoder writes for it. */
  datatype Geolocation = Geolocation(city: seq<Unit>, region: seq<Unit>, country: seq<Unit>, countryCode: seq<Unit>,
                                     latitude: Numeral, longitude: Numeral)

  datatype Asn = Asn(number: nat, organization: seq<Unit>)

  datatype Bundle = Bundle(geolocation: Option<Geolocation>, asn: Option<Asn>) {
    predicate Present() { geolocation.Some? || asn.Some? }

    /** Every provider string is valid text of at most 4096 bytes. */
    predicate Valid() {
      && (geolocation.Some? ==> Encodable(GeoStrings(geolocation.value)))
      && (asn.Some? ==> Encodable(AsnStrings(asn.value)))
    }
  }

  function Optional(key: string, value: seq<Unit>): seq<Field>
    requires forall i :: 0 <= i < |key| ==> key[i] as int < 0x80
  {
    if value == [] then [] else [Field(Ascii(key), value)]
  }

  function GeoStrings(g: Geolocation): seq<Field> {
    Optional("city", g.city) + Optional("region", g.region) + Optional("country", g.country)
    + Optional("country_code", g.countryCode)
  }

  function AsnStrings(a: Asn): seq<Field> { Optional("organization", a.organization) }

  function Comma(after: bool): seq<Unit> { if after then [COMMA] else [] }

  function GeoText(g: Geolocation): seq<Unit> {
    Ascii(",\"geolocation\":{") + FieldsText(GeoStrings(g)) + Coordinates(g)
  }

  function AsnText(a: Asn): seq<Unit> {
    Ascii(",\"asn\":{") + (if a.number == 0 then [] else Ascii("\"number\":") + Decimal(a.number))
    + Comma(a.number != 0 && a.organization != []) + FieldsText(AsnStrings(a)) + [0x7d]
  }

  /** What a bundle adds to its node's encoding. */
  function BundleText(b: Bundle): seq<Unit> {
    (if b.geolocation.Some? then GeoText(b.geolocation.value) else [])
    + (if b.asn.Some? then AsnText(b.asn.value) else [])
  }

  function GeoSize(g: Geolocation): nat {
    16 + FieldsSize(GeoStrings(g), |GeoStrings(g)|) + |Coordinates(g)|
  }

  function AsnSize(a: Asn): nat {
    8 + (if a.number == 0 then 0 else 9 + |Decimal(a.number)|) + |Comma(a.number != 0 && a.organization != [])|
    + FieldsSize(AsnStrings(a), |AsnStrings(a)|) + 1
  }

  const LATITUDE: AsciiText := Ascii("\"latitude\":")
  const LONGITUDE: AsciiText := Ascii(",\"longitude\":")

  /** Everything in a Geo object after its strings. */
  function Coordinates(g: Geolocation): (r: seq<Unit>)
    ensures |r| == |Comma(GeoStrings(g) != [])| + 25 + |g.latitude| + |g.longitude|
    ensures forall i :: 0 <= i < |r| ==> r[i] < 0x80
  {
    Comma(GeoStrings(g) != []) + LATITUDE + g.latitude + LONGITUDE + g.longitude + [0x7d]
  }

  lemma GeoSized(g: Geolocation)
    requires Encodable(GeoStrings(g))
    ensures WellFormed(GeoText(g)) && Size(GeoText(g)) == GeoSize(g)
  {
    hide GeoStrings, FieldsText, FieldsSize, Coordinates, WellFormed, Size, Encodable;
    var strings := GeoStrings(g);
    FieldsSized(strings, |strings|);
    assert strings[..|strings|] == strings;
    var open := Ascii(",\"geolocation\":{");
    AsciiSize(open);
    AsciiSize(Coordinates(g));
    SizeAppend(open, FieldsText(strings));
    SizeAppend(open + FieldsText(strings), Coordinates(g));
  }

  lemma AsnSized(a: Asn)
    requires Encodable(AsnStrings(a))
    ensures WellFormed(AsnText(a)) && Size(AsnText(a)) == AsnSize(a)
  {
    var strings := AsnStrings(a);
    FieldsSized(strings, |strings|);
    assert strings[..|strings|] == strings;
    var open := Ascii(",\"asn\":{") + (if a.number == 0 then [] else Ascii("\"number\":") + Decimal(a.number))
                + Comma(a.number != 0 && a.organization != []);
    AsciiSize(open);
    AsciiSize([0x7d]);
    SizeAppend(open, FieldsText(strings));
    SizeAppend(open + FieldsText(strings), [0x7d]);
    assert AsnText(a) == open + FieldsText(strings) + [0x7d];
  }

  lemma BundleSized(b: Bundle)
    requires b.Valid()
    ensures WellFormed(BundleText(b))
    ensures Size(BundleText(b)) ==
            (if b.geolocation.Some? then GeoSize(b.geolocation.value) else 0) + (if b.asn.Some? then AsnSize(b.asn.value) else 0)
  {
    if b.geolocation.Some? {
      GeoSized(b.geolocation.value);
    }
    if b.asn.Some? {
      AsnSized(b.asn.value);
    }
    SizeAppend(if b.geolocation.Some? then GeoText(b.geolocation.value) else [],
               if b.asn.Some? then AsnText(b.asn.value) else []);
  }

  /** The browser's bundle counter: it rejects unsound strings and otherwise counts the server's bytes. */
  method CompactGeoBundleBytes(b: Bundle) returns (r: Option<nat>)
    ensures r.Some? <==> b.Valid()
    ensures r.Some? ==> r.value == Size(BundleText(b))
  {
    var bytes := 0;
    if b.geolocation.Some? {
      var g := b.geolocation.value;
      var strings := GeoStrings(g);
      var counted := FieldBytes(strings);
      if counted == None {
        return None;
      }
      bytes := 16 + counted.value + (if strings == [] then 0 else 1) + 11 + |g.latitude| + 1 + 12 + |g.longitude| + 1;
    }
    if b.asn.Some? {
      var a := b.asn.value;
      bytes := bytes + 8;
      if a.number != 0 {
        bytes := bytes + 9 + |Decimal(a.number)|;
      }
      if a.organization != [] {
        var counted := FieldBytes(AsnStrings(a));
        if counted == None {
          return None;
        }
        bytes := bytes + (if a.number != 0 then 1 else 0) + counted.value;
      }
      bytes := bytes + 1;
    }
    BundleSized(b);
    return Some(bytes);
  }

  // ----- Topologies -----

  datatype Reason = NodeLimit | LinkLimit | ResponseSize | GeoLimit

  /** A node with everything but its bundle reduced to a byte count. */
  datatype Node = Node(bytes: nat, bundle: Bundle)

  /** The Geo-carrying part of a topology; rest stands for every other field. */
  datatype Topology = Topology(rest: nat, nodes: seq<Node>, included: nat, omitted: nat, reasons: seq<Reason>)

  const NO_BUNDLE := Bundle(None, None)

  /** How many of the first n nodes carry a bundle. */
  function Bundles(nodes: seq<Node>, n: nat): (r: nat)
    requires n <= |nodes|
    ensures r <= n
  {
    if n == 0 then 0 else Bundles(nodes, n - 1) + (if nodes[n - 1].bundle.Present() then 1 else 0)
  }

  function BundleCount(nodes: seq<Node>): nat { Bundles(nodes, |nodes|) }

  /** The nodes keeping only their first m bundles. */
  function Keep(nodes: seq<Node>, m: nat): (r: seq<Node>)
    ensures |r| == |nodes|
  {
    seq(|nodes|, i requires 0 <= i < |nodes| =>
      if nodes[i].bundle.Present() && Bundles(nodes, i) >= m then nodes[i].(bundle := NO_BUNDLE) else nodes[i])
  }

  function Strip(t: Topology, k: nat): Topology
    requires k <= BundleCount(t.nodes) <= t.included
  {
    t.(nodes := Keep(t.nodes, BundleCount(t.nodes) - k), included := t.included - k, omitted := t.omitted + k)
  }

  /** The reasons in their fixed order, with the response-size and Geo reasons added where asked. */
  function Marked(t: Topology, responseLimited: bool, geoLimited: bool): Topology {
    t.(reasons := (if NodeLimit in t.reasons then [NodeLimit] else [])
                  + (if LinkLimit in t.reasons then [LinkLimit] else [])
                  + (if ResponseSize in t.reasons || responseLimited then [ResponseSize] else [])
                  + (if GeoLimit in t.reasons || geoLimited then [GeoLimit] else []))
  }

  method WithoutLastGeoBundles(source: Topology, removed: nat) returns (candidate: Topology)
    requires removed <= BundleCount(source.nodes) <= source.included
    ensures candidate == Strip(source, removed)
  {
    var nodes := source.nodes;
    var included, omitted, left := source.included, source.omitted, removed;
    var index := |nodes|;
    ghost var kept: nat := BundleCount(source.nodes) - removed;
    while index > 0 && left > 0
      invariant 0 <= index <= |nodes| == |source.nodes|
      invariant Bundles(source.nodes, index) == kept + left
      invariant forall i :: 0 <= i < index ==> nodes[i] == source.nodes[i]
      invariant forall i :: index <= i < |nodes| ==> nodes[i] == Keep(source.nodes, kept)[i]
      invariant included + removed == source.included + left && omitted + left == source.omitted + removed
    {
      index := index - 1;
      if nodes[index].bundle.Present() {
        nodes := nodes[index := nodes[index].(bundle := NO_BUNDLE)];
        included, omitted, left := included - 1, omitted + 1, left - 1;
      }
    }
    forall i | 0 <= i < index
      ensures nodes[i] == Keep(source.nodes, kept)[i]
    {
      BundlesGrow(source.nodes, i, index);
    }
    assert nodes == Keep(source.nodes, kept) && left == 0;
    return source.(nodes := nodes, included := included, omitted := omitted);
  }

  lemma {:induction false} BundlesGrow(nodes: seq<Node>, i: nat, n: nat)
    requires i < n <= |nodes|
    ensures Bundles(nodes, i) + (if nodes[i].bundle.Present() then 1 else 0) <= Bundles(nodes, n)
  {
    if i < n - 1 {
      BundlesGrow(nodes, i, n - 1);
    }
  }

  lemma {:induction false} KeptBundles(nodes: seq<Node>, m: nat, n: nat)
    requires n <= |nodes|
    ensures Bundles(Keep(nodes, m), n) == if Bundles(nodes, n) <= m then Bundles(nodes, n) else m
  {
    if n > 0 {
      KeptBundles(nodes, m, n - 1);
    }
  }

  lemma KeepTwice(nodes: seq<Node>, m: nat, l: nat)
    requires l <= m
    ensures Keep(Keep(nodes, m), l) == Keep(nodes, l)
  {
    var s := Keep(nodes, m);
    forall i | 0 <= i < |nodes|
      ensures Keep(s, l)[i] == Keep(nodes, l)[i]
    {
      KeptBundles(nodes, m, i);
    }
  }

  /** Removal takes exactly k bundles, keeps the Geo balance, and removing again is removing the sum. */
  lemma StripBalance(t: Topology, j: nat, k: nat)
    requires j + k <= BundleCount(t.nodes) == t.included
    ensures var s := Strip(t, k);
            && BundleCount(s.nodes) == s.included && s.included + s.omitted == t.included + t.omitted
            && Strip(s, j) == Strip(t, k + j)
  {
    var m := t.included - k;
    var s := Strip(t, k);
    assert s.nodes == Keep(t.nodes, m);
    BundleTotal(t.nodes, m);
    KeepTwice(t.nodes, m, m - j);
    assert Strip(s, j).nodes == Strip(t, k + j).nodes;
  }

  lemma BundleTotal(nodes: seq<Node>, m: nat)
    requires m <= BundleCount(nodes)
    ensures BundleCount(Keep(nodes, m)) == m
  {
    KeptBundles(nodes, m, |nodes|);
  }

  /** Where the first m bundles have all been seen. */
  lemma {:induction false} CutPoint(nodes: seq<Node>, m: nat, n: nat) returns (cut: nat)
    requires n <= |nodes| && m <= Bundles(nodes, n)
    ensures cut <= n && Bundles(nodes, cut) == m && forall i: nat :: i < cut ==> Bundles(nodes, i) < m
  {
    if n > 0 && m <= Bundles(nodes, n - 1) {
      cut := CutPoint(nodes, m, n - 1);
    } else {
      cut := n;
      forall i: nat | i < n ensures Bundles(nodes, i) < m {
        BundlesOrdered(nodes, i, n - 1);
      }
    }
  }

  lemma {:induction false} BundlesOrdered(nodes: seq<Node>, i: nat, n: nat)
    requires i <= n <= |nodes|
    ensures Bundles(nodes, i) <= Bundles(nodes, n)
  {
    if i < n {
      BundlesOrdered(nodes, i, n - 1);
    }
  }

  /** Exactly the last k bundles go: there is a place before which every node is as it was, and from which on every
      node has lost its bundle, k in all. */
  lemma LastBundlesGo(t: Topology, k: nat) returns (cut: nat)
    requires k <= BundleCount(t.nodes) <= t.included
    ensures var s := Strip(t, k);
            && cut <= |t.nodes| == |s.nodes| && BundleCount(t.nodes) - Bundles(t.nodes, cut) == k
            && s.nodes[..cut] == t.nodes[..cut]
            && (forall i :: cut <= i < |t.nodes| ==> s.nodes[i] == Node(t.nodes[i].bytes, NO_BUNDLE))
            && s.included == t.included - k && s.omitted == t.omitted + k && s.rest == t.rest && s.reasons == t.reasons
  {
    var m := BundleCount(t.nodes) - k;
    cut := CutPoint(t.nodes, m, |t.nodes|);
    forall i | cut <= i < |t.nodes| ensures Strip(t, k).nodes[i] == Node(t.nodes[i].bytes, NO_BUNDLE) {
      BundlesOrdered(t.nodes, cut, i);
      assert !t.nodes[i].bundle.Present() ==> t.nodes[i].bundle == NO_BUNDLE;
    }
  }

  function Rank(r: Reason): nat {
    match r
    case NodeLimit => 0
    case LinkLimit => 1
    case ResponseSize => 2
    case GeoLimit => 3
  }

  lemma Listed(node: bool, link: bool, response: bool, geo: bool)
    ensures var s := (if node then [NodeLimit] else []) + (if link then [LinkLimit] else []) + (if response then [ResponseSize] else []) + (if geo then [GeoLimit] else []);
            && (NodeLimit in s <==> node) && (LinkLimit in s <==> link) && (ResponseSize in s <==> response) && (GeoLimit in s <==> geo)
            && forall i, j :: 0 <= i < j < |s| ==> Rank(s[i]) < Rank(s[j])
  {
  }

  /** Marking adds what it is asked to add, loses nothing, and puts the reasons in their fixed order, each once. */
  lemma MarkedReasons(t: Topology, responseLimited: bool, geoLimited: bool)
    ensures var s := Marked(t, responseLimited, geoLimited);
            && (forall r :: r in s.reasons <==> r in t.reasons || (r == ResponseSize && responseLimited) || (r == GeoLimit && geoLimited))
            && (forall i, j :: 0 <= i < j < |s.reasons| ==> Rank(s.reasons[i]) < Rank(s.reasons[j]))
            && s == t.(reasons := s.reasons)
  {
    Listed(NodeLimit in t.reasons, LinkLimit in t.reasons, ResponseSize in t.reasons || responseLimited, GeoLimit in t.reasons || geoLimited);
    var s := Marked(t, responseLimited, geoLimited);
    forall r ensures r in s.reasons <==> r in t.reasons || (r == ResponseSize && responseLimited) || (r == GeoLimit && geoLimited) {
      match r
      case NodeLimit =>
      case LinkLimit =>
      case ResponseSize =>
      case GeoLimit =>
    }
  }

  // ----- Encoded size -----

  /** Node bytes under any measure of bundles. */
  function NodesSize(nodes: seq<Node>, n: nat, weight: Bundle -> nat): nat
    requires n <= |nodes|
  {
    if n == 0 then 0 else NodesSize(nodes, n - 1, weight) + nodes[n - 1].bytes + weight(nodes[n - 1].bundle)
  }

  function BundleBytes(b: Bundle): nat { Size(BundleText(b)) }

  function SizeUnder(t: Topology, weight: Bundle -> nat): nat {
    NodesSize(t.nodes, |t.nodes|, weight) + |Decimal(t.included)| + |Decimal(t.omitted)|
  }

  /** The encoded length up to a part no bundle removal changes. */
  function EncodedSize(t: Topology): nat { SizeUnder(t, BundleBytes) }

  predicate Sound(t: Topology) {
    BundleCount(t.nodes) == t.included && forall i :: 0 <= i < |t.nodes| ==> t.nodes[i].bundle.Valid()
  }

  ghost predicate Heavy(weight: Bundle -> nat) {
    weight(NO_BUNDLE) == 0 && forall b: Bundle :: b.Valid() && b.Present() ==> weight(b) >= 8
  }

  lemma BundlesWeigh()
    ensures Heavy(BundleBytes)
  {
    forall b: Bundle | b.Valid() && b.Present()
      ensures BundleBytes(b) >= 8
    {
      BundleSized(b);
    }
    BundleSized(NO_BUNDLE);
  }

  /** Keeping one bundle less saves at least eight bytes of nodes. */
  lemma {:induction false} KeepSaves(nodes: seq<Node>, m: nat, n: nat, weight: Bundle -> nat)
    requires n <= |nodes| && Heavy(weight) && forall i :: 0 <= i < |nodes| ==> nodes[i].bundle.Valid()
    ensures NodesSize(Keep(nodes, m), n, weight) + (if Bundles(nodes, n) > m then 8 else 0)
            <= NodesSize(Keep(nodes, m + 1), n, weight)
  {
    if n > 0 {
      KeepSaves(nodes, m, n - 1, weight);
      assert nodes[n - 1].bundle.Valid();
    }
  }

  lemma RemovalShrinksUnder(t: Topology, k: nat, weight: Bundle -> nat)
    requires Heavy(weight) && Sound(t) && k < t.included
    ensures SizeUnder(Strip(t, k + 1), weight) < SizeUnder(Strip(t, k), weight)
  {
    KeepSaves(t.nodes, t.included - k - 1, |t.nodes|, weight);
    DecimalWidth(t.included - k - 1);
    DecimalWidth(t.omitted + k);
  }

  /** Every removed bundle makes the response strictly shorter, whatever happens to the width of its counts. */
  lemma {:induction false} RemovalShrinks(t: Topology, j: nat, k: nat)
    requires Sound(t) && j < k <= t.included
    ensures EncodedSize(Strip(t, k)) < EncodedSize(Strip(t, j))
    decreases k - j
  {
    hide SizeUnder, Strip, Heavy, Sound;
    BundlesWeigh();
    RemovalShrinksUnder(t, k - 1, BundleBytes);
    if j < k - 1 {
      RemovalShrinks(t, j, k - 1);
    }
  }

  // ----- The compact response -----

  datatype Encoding = Bytes(payload: seq<Byte>) | OverBudget | Broken

  datatype Result = Fitted(payload: seq<Byte>) | TooLarge | Failed

  /** marshal is any encoder; rebuild(n) is the topology built from at most n transactions without Geo. */
  predicate Fits(marshal: Topology -> Encoding, t: Topology) {
    var e := marshal(t); e.Bytes? && |e.payload| + 1 < LIMIT
  }

  function Whole(build: Topology): Topology { Marked(build, false, false) }

  function GeoCandidate(build: Topology, k: nat): Topology
    requires k <= BundleCount(build.nodes) <= build.included
  {
    Marked(Strip(Whole(build), k), true, true)
  }

  function CutCandidate(rebuild: nat -> Topology, n: nat, hadGeo: bool): Topology { Marked(rebuild(n), true, hadGeo) }

  method Probe(marshal: Topology -> Encoding, candidate: Topology, best: Result, winner: Option<Topology>)
    returns (failed: bool, fits: bool, best': Result, winner': Option<Topology>)
    ensures failed <==> marshal(candidate).Broken?
    ensures fits <==> Fits(marshal, candidate)
    ensures fits ==> best' == Fitted(marshal(candidate).payload + [NEWLINE]) && winner' == Some(candidate)
    ensures !fits ==> best' == best && winner' == winner
  {
    var e := marshal(candidate);
    failed, fits, best', winner' := false, false, best, winner;
    match e
    case Broken => failed := true;
    case OverBudget =>
    case Bytes(payload) =>
      var line := payload + [NEWLINE];
      fits := |line| < LIMIT;
      if fits {
        best', winner' := Fitted(line), Some(candidate);
      }
  }

  /** How the answer was reached: whole, with Geo bundles removed, or with transactions cut. */
  datatype Phase = ByWhole | ByGeo(removed: nat) | ByCut(kept: nat) | ByNothing

  ghost predicate Explains(build: Topology, accepted: nat, rebuild: nat -> Topology, marshal: Topology -> Encoding,
                           phase: Phase, winner: Topology)
    requires BundleCount(build.nodes) <= build.included
  {
    var bundles := BundleCount(build.nodes);
    match phase
    case ByWhole => winner == Whole(build)
    case ByGeo(k) =>
      && !Fits(marshal, Whole(build))
      && 1 <= k <= bundles && winner == GeoCandidate(build, k)
      && (k == 1 || !Fits(marshal, GeoCandidate(build, k - 1)))
    case ByCut(n) =>
      && !Fits(marshal, Whole(build))
      && (bundles == 0 || !Fits(marshal, GeoCandidate(build, bundles)))
      && n < accepted && winner == CutCandidate(rebuild, n, bundles > 0)
      && (n + 1 == accepted || !Fits(marshal, CutCandidate(rebuild, n + 1, bundles > 0)))
    case ByNothing => false
  }

  /** For any encoder: the payload is the winner's encoding plus a newline and is under the limit; transactions
      are cut only after the topology without any Geo was probed and did not fit; each search stops next to a
      candidate that does not fit. */
  method FitCompactResponse(build: Topology, accepted: nat, rebuild: nat -> Topology, marshal: Topology -> Encoding)
    returns (r: Result, winner: Option<Topology>, ghost phase: Phase)
    requires BundleCount(build.nodes) <= build.included
    ensures r.Fitted? <==> winner.Some?
    ensures r.Fitted? ==>
              && Fits(marshal, winner.value) && |r.payload| < LIMIT
              && r.payload == marshal(winner.value).payload + [NEWLINE]
              && Explains(build, accepted, rebuild, marshal, phase, winner.value)
    ensures r.TooLarge? ==>
              && !Fits(marshal, Whole(build))
              && (BundleCount(build.nodes) > 0 ==> !Fits(marshal, GeoCandidate(build, BundleCount(build.nodes))))
              && (accepted > 0 ==> !Fits(marshal, CutCandidate(rebuild, 0, BundleCount(build.nodes) > 0)))
    ensures r.Failed? ==> exists t :: marshal(t).Broken?
  {
    hide Bundles, Keep;
    phase := ByNothing;
    var failed, fits;
    var initial := Whole(build);
    failed, fits, r, winner := Probe(marshal, initial, TooLarge, None);
    if failed {
      return Failed, None, phase;
    }
    if fits {
      phase := ByWhole;
      return;
    }
    var bundles := CountBundles(initial.nodes);
    var low, high := 1, bundles;
    while low <= high
      invariant 1 <= low <= high + 1 <= bundles + 1
      invariant low == 1 || !Fits(marshal, GeoCandidate(build, low - 1))
      invariant r.Fitted? <==> high < bundles
      invariant r.Fitted? ==> Fits(marshal, GeoCandidate(build, high + 1)) && winner == Some(GeoCandidate(build, high + 1))
                              && r.payload == marshal(winner.value).payload + [NEWLINE]
      invariant !r.Fitted? ==> r == TooLarge && winner == None
    {
      var removed := low + (high - low) / 2;
      var candidate := WithoutLastGeoBundles(initial, removed);
      failed, fits, r, winner := Probe(marshal, Marked(candidate, true, true), r, winner);
      if failed {
        return Failed, None, phase;
      }
      if fits {
        high := removed - 1;
      } else {
        low := removed + 1;
      }
    }
    if r.Fitted? {
      phase := ByGeo(low);
      return;
    }

    low, high := 0, accepted as int - 1;
    while low <= high
      invariant 0 <= low <= high + 1 <= accepted
      invariant high == accepted - 1 || !Fits(marshal, CutCandidate(rebuild, high + 1, bundles > 0))
      invariant r.Fitted? <==> low > 0
      invariant r.Fitted? ==> Fits(marshal, CutCandidate(rebuild, low - 1, bundles > 0))
                              && winner == Some(CutCandidate(rebuild, low - 1, bundles > 0))
                              && r.payload == marshal(winner.value).payload + [NEWLINE]
      invariant !r.Fitted? ==> r == TooLarge && winner == None
    {
      var limit := low + (high - low) / 2;
      failed, fits, r, winner := Probe(marshal, Marked(rebuild(limit), true, bundles > 0), r, winner);
      if failed {
        return Failed, None, phase;
      }
      if fits {
        low := limit + 1;
      } else {
        high := limit - 1;
      }
    }
    if r.Fitted? {
      phase := ByCut(low - 1);
    }
  }

  method CountBundles(nodes: seq<Node>) returns (count: nat)
    ensures count == BundleCount(nodes)
  {
    count := 0;
    for i := 0 to |nodes|
      invariant count == Bundles(nodes, i)
    {
      if nodes[i].bundle.Present() {
        count := count + 1;
      }
    }
  }

  // ----- When the searches are exact -----

  /** The encoder's verdict on the Geo candidates depends only on their size. */
  ghost predicate SizeDriven(marshal: Topology -> Encoding, size: Topology -> nat, cap: nat, build: Topology)
    requires BundleCount(build.nodes) <= build.included
  {
    forall k :: 1 <= k <= BundleCount(build.nodes) ==>
      (Fits(marshal, GeoCandidate(build, k)) <==> size(GeoCandidate(build, k)) < cap)
  }

  lemma GeoCandidatesShrink(build: Topology, j: nat, k: nat)
    requires Sound(build) && j < k <= build.included
    ensures EncodedSize(GeoCandidate(build, k)) < EncodedSize(GeoCandidate(build, j))
  {
    RemovalShrinks(build, j, k);
    SameSize(build, j);
    SameSize(build, k);
  }

  lemma SameSize(build: Topology, k: nat)
    requires Sound(build) && k <= build.included
    ensures EncodedSize(GeoCandidate(build, k)) == EncodedSize(Strip(build, k))
  {
    SameSizeUnder(GeoCandidate(build, k), Strip(build, k), BundleBytes);
  }

  lemma SameSizeUnder(s: Topology, t: Topology, weight: Bundle -> nat)
    requires s.nodes == t.nodes && s.included == t.included && s.omitted == t.omitted
    ensures SizeUnder(s, weight) == SizeUnder(t, weight)
  {
  }

  lemma FirstFit(build: Topology, marshal: Topology -> Encoding, size: Topology -> nat, cap: nat, k: nat)
    requires BundleCount(build.nodes) <= build.included && 1 <= k <= BundleCount(build.nodes)
    requires SizeDriven(marshal, size, cap, build)
    requires forall i, j :: 1 <= i < j <= BundleCount(build.nodes) ==>
               size(GeoCandidate(build, j)) < size(GeoCandidate(build, i))
    requires Fits(marshal, GeoCandidate(build, k)) && (k == 1 || !Fits(marshal, GeoCandidate(build, k - 1)))
    ensures forall j :: 1 <= j <= BundleCount(build.nodes) ==> (Fits(marshal, GeoCandidate(build, j)) <==> k <= j)
  {
    forall j | 1 <= j <= BundleCount(build.nodes)
      ensures Fits(marshal, GeoCandidate(build, j)) <==> k <= j
    {
      assert j < k - 1 ==> size(GeoCandidate(build, k - 1)) < size(GeoCandidate(build, j));
    }
  }

  /** The Geo phase removes the fewest bundles that make the response fit. */
  lemma GeoPhaseExact(build: Topology, accepted: nat, rebuild: nat -> Topology, marshal: Topology -> Encoding,
                      cap: nat, k: nat, winner: Topology)
    requires Sound(build) && SizeDriven(marshal, EncodedSize, cap, build)
    requires Explains(build, accepted, rebuild, marshal, ByGeo(k), winner) && Fits(marshal, winner)
    ensures forall j :: 1 <= j <= BundleCount(build.nodes) ==> (Fits(marshal, GeoCandidate(build, j)) <==> k <= j)
  {
    hide GeoCandidate, Fits, EncodedSize;
    SizesFall(build, EncodedSize);
    FirstFit(build, marshal, EncodedSize, cap, k);
  }

  lemma SizesFall(build: Topology, size: Topology -> nat)
    requires Sound(build) && size == EncodedSize
    ensures forall i, j :: 1 <= i < j <= BundleCount(build.nodes) ==>
              size(GeoCandidate(build, j)) < size(GeoCandidate(build, i))
  {
    forall i, j | 1 <= i < j <= BundleCount(build.nodes)
      ensures size(GeoCandidate(build, j)) < size(GeoCandidate(build, i))
    {
      GeoCandidatesShrink(build, i, j);
    }
  }

  /** Cutting transactions keeps the most, whenever a smaller cut never fits where a larger one does not. */
  lemma CutPhaseExact(build: Topology, accepted: nat, rebuild: nat -> Topology, marshal: Topology -> Encoding, n: nat, winner: Topology)
    requires BundleCount(build.nodes) <= build.included
    requires Explains(build, accepted, rebuild, marshal, ByCut(n), winner) && Fits(marshal, winner)
    requires var geo := BundleCount(build.nodes) > 0;
             forall i, j :: 0 <= i <= j < accepted && Fits(marshal, CutCandidate(rebuild, j, geo)) ==>
               Fits(marshal, CutCandidate(rebuild, i, geo))
    ensures var geo := BundleCount(build.nodes) > 0;
            forall m :: 0 <= m < accepted ==> (Fits(marshal, CutCandidate(rebuild, m, geo)) <==> m <= n)
  {
  }

  // ----- The Geo sidecar -----

  datatype SidecarEncoding = Wire(payload: seq<Byte>) | Exceeds | Error

  const MAX_ENTRIES: nat := 500

  /** A prefix can be sent when the sidecar and then the whole report encode within their budgets. */
  predicate SidecarFits(encode: Sidecar -> SidecarEncoding, marshal: Sidecar -> SidecarEncoding, s: Sidecar) {
    encode(s).Wire? && marshal(s).Wire?
  }

  predicate SidecarBroken(encode: Sidecar -> SidecarEncoding, marshal: Sidecar -> SidecarEncoding, s: Sidecar) {
    encode(s).Error? || (encode(s).Wire? && marshal(s).Error?)
  }

  /** The search over prefixes; the legacy payload when no probe fits. */
  method FitGeoDetails(legacy: seq<Byte>, entries: seq<Entry>, total: nat,
                       encode: Sidecar -> SidecarEncoding, marshal: Sidecar -> SidecarEncoding)
    returns (r: Option<seq<Byte>>, ghost kept: Option<nat>)
    requires |entries| <= total
    ensures r == None ==> exists s :: SidecarBroken(encode, marshal, s)
    ensures r.Some? && kept.Some? ==>
              && kept.value <= Most(entries) && SidecarFits(encode, marshal, Prefix(entries, total, kept.value))
              && r.value == marshal(Prefix(entries, total, kept.value)).payload
              && (kept.value == Most(entries) || !SidecarFits(encode, marshal, Prefix(entries, total, kept.value + 1)))
    ensures r.Some? && kept == None ==> r.value == legacy && !SidecarFits(encode, marshal, Prefix(entries, total, 0))
  {
    var best := legacy;
    kept := None;
    var low, high: int := 0, Most(entries);
    while low <= high
      invariant 0 <= low <= high + 1 <= Most(entries) + 1
      invariant high == Most(entries) || !SidecarFits(encode, marshal, Prefix(entries, total, high + 1))
      invariant kept == if low == 0 then None else Some(low - 1)
      invariant low == 0 ==> best == legacy
      invariant low > 0 ==> SidecarFits(encode, marshal, Prefix(entries, total, low - 1))
                            && best == marshal(Prefix(entries, total, low - 1)).payload
    {
      var count := low + (high - low) / 2;
      var candidate := Sidecar(total, total - count, entries[..count]);
      var outcome := encode(candidate);
      if outcome.Wire? {
        outcome := marshal(candidate);
      }
      match outcome
      case Error =>
        assert SidecarBroken(encode, marshal, candidate);
        return None, None;
      case Exceeds => high := count - 1;
      case Wire(payload) => best, low, kept := payload, count + 1, Some(count);
    }
    return Some(best), kept;
  }

  function Most(entries: seq<Entry>): nat { if |entries| < MAX_ENTRIES then |entries| else MAX_ENTRIES }

  /** Both verdicts are size verdicts: the sidecar alone, and inside the report. */
  ghost predicate SizeJudged(encode: Sidecar -> SidecarEncoding, marshal: Sidecar -> SidecarEncoding,
                             entries: seq<Entry>, total: nat, reportBytes: nat, cap: nat)
    requires |entries| <= total
  {
    forall n :: 0 <= n <= Most(entries) ==>
      var size := Size(SidecarText(Prefix(entries, total, n)));
      && (encode(Prefix(entries, total, n)).Wire? <==> size <= MAX_BYTES)
      && (marshal(Prefix(entries, total, n)).Wire? <==> reportBytes + size <= cap)
  }

  /** fitGeoDetails keeps the greatest prefix that fits: exactly the prefixes up to it fit. */
  lemma SidecarPrefixExact(entries: seq<Entry>, total: nat, encode: Sidecar -> SidecarEncoding,
                           marshal: Sidecar -> SidecarEncoding, reportBytes: nat, cap: nat, kept: Option<nat>)
    requires |entries| <= total && AllEncodable(entries)
    requires SizeJudged(encode, marshal, entries, total, reportBytes, cap)
    requires kept.Some? ==>
               && kept.value <= Most(entries) && SidecarFits(encode, marshal, Prefix(entries, total, kept.value))
               && (kept.value == Most(entries) || !SidecarFits(encode, marshal, Prefix(entries, total, kept.value + 1)))
    requires kept == None ==> !SidecarFits(encode, marshal, Prefix(entries, total, 0))
    ensures forall n :: 0 <= n <= Most(entries) ==>
              (SidecarFits(encode, marshal, Prefix(entries, total, n)) <==> kept.Some? && n <= kept.value)
  {
    hide Size, SidecarText, AllEncodable;
    forall n | 0 <= n <= Most(entries)
      ensures SidecarFits(encode, marshal, Prefix(entries, total, n)) <==> kept.Some? && n <= kept.value
    {
      if kept == None {
        MoreEntriesLonger(entries, total, 0, n);
      } else if n <= kept.value {
        MoreEntriesLonger(entries, total, n, kept.value);
      } else {
        MoreEntriesLonger(entries, total, kept.value + 1, n);
      }
    }
  }
}
