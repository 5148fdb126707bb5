/** Folding, bypassing and cutting a topology for display (frontend/topology-presentation.js:103-171). */
module Presentation {
  import opened Arrivals
  import opened Sets

  const NODE_CAP := 500
  const LINK_CAP := 1000

  datatype Node = Node(id: string, unknown: bool)
  datatype Link = Link(from: string, to: string)
  datatype Route = Route(result: nat, attempt: nat, ids: seq<string>, complete: bool)
  datatype Topology = Topology(nodes: seq<Node>, links: seq<Link>, routes: seq<Route>)

  /** A place in a displayed route: one known node, or the hops start..end of an unanswered run. */
  datatype Token = Token(id: string, start: nat, end: nat, group: bool)

  datatype Shown = Plain(id: string) | Group(id: string, members: seq<string>)

  /** A drawn span that is no observed link: it skips hops or touches a folded group. */
  datatype Connector = Connector(id: string, from: string, to: string, skipped: nat, occurrence: nat)

  datatype Display = Display(nodes: seq<Shown>, links: seq<Link>, connectors: seq<Connector>)

  datatype View = View(display: Display, routes: seq<Route>, totalNodes: nat, totalLinks: nat)

  // ----- Fresh identifiers -----

  function AtLeast(used: set<string>, n: nat): set<string> { set id | id in used && |id| >= n }

  /** The first of base, base:, base::, … that is not used; `used` is finite, so there is one. */
  function Unique(base: string, used: set<string>): (id: string)
    ensures id !in used && |base| <= |id| && id[..|base|] == base
    decreases |AtLeast(used, |base|)|
  {
    if base in used then
      FewerLonger(base, used);
      var id := Unique(base + ":", used);
      assert id[..|base|] == id[..|base| + 1][..|base|];
      id
    else base
  }

  lemma FewerLonger(base: string, used: set<string>)
    requires base in used
    ensures |AtLeast(used, |base + ":"|)| < |AtLeast(used, |base|)|
  {
    var few, many := AtLeast(used, |base| + 1), AtLeast(used, |base|);
    assert base in many && base !in few;
    SubsetSize(few, many - {base});
  }

  method FindUnique(base: string, used: set<string>) returns (id: string)
    ensures id == Unique(base, used)
  {
    id := base;
    while id in used
      invariant Unique(base, used) == Unique(id, used)
      decreases |AtLeast(used, |id|)|
    {
      FewerLonger(id, used);
      id := id + ":";
    }
  }

  function Digits(n: nat): string { if n < 10 then ["0123456789"[n]] else Digits(n / 10) + ["0123456789"[n % 10]] }

  function GroupBase(route: Route, occurrence: nat, start: nat): string {
    "presentation:unknown:" + Digits(route.result) + ":" + Digits(route.attempt) + ":" + Digits(occurrence) + ":" + Digits(start)
  }

  function SpanBase(bypass: bool, occurrence: nat, i: nat): string {
    (if bypass then "presentation:bypass:" else "presentation:fold:") + Digits(occurrence) + ":" + Digits(i)
  }

  // ----- One folded route -----

  ghost predicate Named(ids: seq<string>, byID: map<string, Node>) { forall p :: 0 <= p < |ids| ==> ids[p] in byID }

  predicate Known(ids: seq<string>, byID: map<string, Node>, p: nat) {
    p < |ids| && ids[p] in byID && !byID[ids[p]].unknown
  }

  ghost predicate NoneKnown(ids: seq<string>, byID: map<string, Node>, from: nat, to: nat) {
    forall p :: from <= p < to ==> !Known(ids, byID, p)
  }

  /** A token is a known node, or a whole run of unknown ones. */
  ghost predicate TokenFits(t: Token, ids: seq<string>, byID: map<string, Node>) {
    && t.start <= t.end < |ids|
    && if t.group then
         && NoneKnown(ids, byID, t.start, t.end + 1)
         && (t.start == 0 || Known(ids, byID, t.start - 1)) && (t.end + 1 == |ids| || Known(ids, byID, t.end + 1))
       else t.start == t.end && t.id == ids[t.start] && Known(ids, byID, t.start)
  }

  /** Between two places there is nothing when unknown hops are shown, and only unknown hops otherwise. */
  ghost predicate Gap(ids: seq<string>, byID: map<string, Node>, show: bool, from: nat, to: nat) {
    from <= to && NoneKnown(ids, byID, from, to) && (show ==> from == to)
  }

  ghost predicate FoldsTo(tokens: seq<Token>, ids: seq<string>, byID: map<string, Node>, show: bool, end: nat) {
    if tokens == [] then Gap(ids, byID, show, 0, end)
    else
      var t := tokens[|tokens| - 1];
      && TokenFits(t, ids, byID) && (t.group ==> show)
      && Gap(ids, byID, show, t.end + 1, end)
      && FoldsTo(tokens[..|tokens| - 1], ids, byID, show, t.start)
  }

  ghost predicate Folds(tokens: seq<Token>, ids: seq<string>, byID: map<string, Node>, show: bool) {
    FoldsTo(tokens, ids, byID, show, |ids|)
  }

  /** The nodes a folded route stands for. */
  function Expansion(tokens: seq<Token>, ids: seq<string>): seq<string> {
    if tokens == [] then []
    else
      var t := tokens[|tokens| - 1];
      Expansion(tokens[..|tokens| - 1], ids) + if t.start <= t.end < |ids| then ids[t.start..t.end + 1] else []
  }

  function KnownOnly(ids: seq<string>, byID: map<string, Node>, end: nat): seq<string>
    requires end <= |ids|
  {
    if end == 0 then []
    else KnownOnly(ids, byID, end - 1) + if Known(ids, byID, end - 1) then [ids[end - 1]] else []
  }

  /** Expanding the groups gives back the route. */
  lemma {:induction false} ExpandsToRoute(tokens: seq<Token>, ids: seq<string>, byID: map<string, Node>, end: nat)
    requires FoldsTo(tokens, ids, byID, true, end) && end <= |ids|
    ensures Expansion(tokens, ids) == ids[..end]
    decreases |tokens|
  {
    if tokens != [] {
      var t := tokens[|tokens| - 1];
      ExpandsToRoute(tokens[..|tokens| - 1], ids, byID, t.start);
      assert ids[..end] == ids[..t.start] + ids[t.start..t.end + 1];
    }
  }

  lemma {:induction false} UnknownAddNothing(ids: seq<string>, byID: map<string, Node>, from: nat, end: nat)
    requires from <= end <= |ids| && NoneKnown(ids, byID, from, end)
    ensures KnownOnly(ids, byID, end) == KnownOnly(ids, byID, from)
    decreases end
  {
    if from < end {
      UnknownAddNothing(ids, byID, from, end - 1);
    }
  }

  /** With unknown hops hidden the places are exactly the known nodes, in order. */
  lemma {:induction false} ExpandsToKnown(tokens: seq<Token>, ids: seq<string>, byID: map<string, Node>, end: nat)
    requires FoldsTo(tokens, ids, byID, false, end) && end <= |ids|
    ensures Expansion(tokens, ids) == KnownOnly(ids, byID, end)
    decreases |tokens|
  {
    if tokens == [] {
      UnknownAddNothing(ids, byID, 0, end);
    } else {
      var t := tokens[|tokens| - 1];
      assert t.start == t.end && Known(ids, byID, t.start);
      UnknownAddNothing(ids, byID, t.end + 1, end);
      assert KnownOnly(ids, byID, t.end + 1) == KnownOnly(ids, byID, t.start) + [ids[t.start]];
      hide KnownOnly, NoneKnown, Known;
      ExpandsToKnown(tokens[..|tokens| - 1], ids, byID, t.start);
      assert ids[t.start..t.end + 1] == [ids[t.start]];
    }
  }

  ghost predicate FreshGroups(tokens: seq<Token>, before: set<string>, after: set<string>) {
    && before <= after
    && (forall k :: 0 <= k < |tokens| && tokens[k].group ==> tokens[k].id !in before && tokens[k].id in after)
    && forall j, k :: 0 <= j < k < |tokens| && tokens[j].group && tokens[k].group ==> tokens[j].id != tokens[k].id
  }

  lemma PushToken(tokens: seq<Token>, t: Token, ids: seq<string>, byID: map<string, Node>, show: bool, end: nat)
    requires FoldsTo(tokens, ids, byID, show, t.start) && TokenFits(t, ids, byID) && (t.group ==> show) && end == t.end + 1
    ensures FoldsTo(tokens + [t], ids, byID, show, end)
  {
    assert (tokens + [t])[..|tokens|] == tokens;
  }

  lemma {:induction false} SkipUnknown(tokens: seq<Token>, ids: seq<string>, byID: map<string, Node>, end: nat, next: nat)
    requires FoldsTo(tokens, ids, byID, false, end) && end <= next && NoneKnown(ids, byID, end, next)
    ensures FoldsTo(tokens, ids, byID, false, next)
  {
  }

  lemma FreshMore(tokens: seq<Token>, t: Token, used: set<string>, now: set<string>)
    requires FreshGroups(tokens, used, now) && t.id !in now && t.group
    ensures FreshGroups(tokens + [t], used, now + {t.id})
  {
  }

  lemma KnownFresh(tokens: seq<Token>, t: Token, used: set<string>, now: set<string>)
    requires FreshGroups(tokens, used, now) && !t.group
    ensures FreshGroups(tokens + [t], used, now)
  {
  }

  lemma KnownFits(ids: seq<string>, byID: map<string, Node>, i: nat)
    requires Known(ids, byID, i)
    ensures TokenFits(Token(ids[i], i, i, false), ids, byID)
  {
  }

  lemma RunFits(id: string, ids: seq<string>, byID: map<string, Node>, start: nat, end: nat)
    requires start < end <= |ids| && NoneKnown(ids, byID, start, end)
    requires (start == 0 || Known(ids, byID, start - 1)) && (end == |ids| || Known(ids, byID, end))
    ensures TokenFits(Token(id, start, end - 1, true), ids, byID)
  {
  }

  method FoldRoute(route: Route, occurrence: nat, byID: map<string, Node>, show: bool, used: set<string>)
    returns (tokens: seq<Token>, nowUsed: set<string>)
    requires Named(route.ids, byID)
    ensures Folds(tokens, route.ids, byID, show)
    ensures FreshGroups(tokens, used, nowUsed)
  {
    assert FoldsTo([], route.ids, byID, show, 0) && FreshGroups([], used, used);
    hide FoldsTo, FreshGroups, Unique, GroupBase, TokenFits;
    tokens, nowUsed := [], used;
    var ids := route.ids;
    var i := 0;
    while i < |ids|
      invariant i <= |ids| && FoldsTo(tokens, ids, byID, show, i) && FreshGroups(tokens, used, nowUsed)
      invariant i == 0 || Known(ids, byID, i) || i == |ids| || Known(ids, byID, i - 1)
    {
      if !byID[ids[i]].unknown {
        var t := Token(ids[i], i, i, false);
        KnownFits(ids, byID, i);
        PushToken(tokens, t, ids, byID, show, i + 1);
        KnownFresh(tokens, t, used, nowUsed);
        tokens := tokens + [t];
        i := i + 1;
      } else {
        var start := i;
        while i < |ids| && byID[ids[i]].unknown
          invariant start <= i <= |ids| && NoneKnown(ids, byID, start, i)
          invariant i == start ==> !Known(ids, byID, i)
        {
          i := i + 1;
        }
        if show {
          var id := FindUnique(GroupBase(route, occurrence, start), nowUsed);
          var t := Token(id, start, i - 1, true);
          RunFits(id, ids, byID, start, i);
          FreshMore(tokens, t, used, nowUsed);
          nowUsed := nowUsed + {id};
          PushToken(tokens, t, ids, byID, show, i);
          tokens := tokens + [t];
        } else {
          SkipUnknown(tokens, ids, byID, start, i);
        }
      }
    }
  }

  // ----- Spans between the places of a folded route -----

  function Skipped(a: Token, b: Token): int { b.start - a.end - 1 }

  /** Two neighbouring places with no observed adjacency between them. */
  predicate IsSpan(a: Token, b: Token) { Skipped(a, b) > 0 || a.group || b.group }

  lemma {:induction false} PlacesInOrder(tokens: seq<Token>, ids: seq<string>, byID: map<string, Node>, show: bool, end: nat, k: nat)
    requires FoldsTo(tokens, ids, byID, show, end) && k < |tokens|
    ensures TokenFits(tokens[k], ids, byID)
    ensures k > 0 ==> tokens[k - 1].end < tokens[k].start && Gap(ids, byID, show, tokens[k - 1].end + 1, tokens[k].start)
    decreases |tokens|
  {
    if k < |tokens| - 1 {
      PlacesInOrder(tokens[..|tokens| - 1], ids, byID, show, tokens[|tokens| - 1].start, k);
    }
  }

  ghost predicate InOrder(tokens: seq<Token>) {
    forall k :: 0 < k < |tokens| ==> Before(tokens, k)
  }

  ghost predicate Before(tokens: seq<Token>, k: nat)
    requires 0 < k < |tokens|
  {
    tokens[k - 1].end < tokens[k].start
  }

  type Spans = map<(nat, nat), string>

  /** What the routes walked so far have gathered. */
  datatype Pool = Pool(observed: seq<Link>, connectors: seq<Connector>, spans: Spans, used: set<string>)

  predicate DistinctLinks(links: seq<Link>) { forall j, k :: 0 <= j < k < |links| ==> links[j] != links[k] }

  /** Observed links are links of the topology, each once; connectors have identifiers of their own. */
  ghost predicate PoolSound(pool: Pool, links: set<Link>, nodeIDs: set<string>) {
    && DistinctLinks(pool.observed) && (forall k :: 0 <= k < |pool.observed| ==> pool.observed[k] in links)
    && (forall j, k :: 0 <= j < k < |pool.connectors| ==> pool.connectors[j].id != pool.connectors[k].id)
    && (forall k :: 0 <= k < |pool.connectors| ==> pool.connectors[k].id in pool.used && pool.connectors[k].id !in nodeIDs)
    && nodeIDs <= pool.used
    && (forall key :: key in pool.spans ==> pool.spans[key] in pool.used)
    && forall a, b :: a in pool.spans && b in pool.spans && a != b ==> pool.spans[a] != pool.spans[b]
  }

  ghost predicate DrawnAt(c: Connector, folded: seq<seq<Token>>, spans: Spans, i: nat) {
    && c.occurrence < |folded| && 0 < i < |folded[c.occurrence]| && Before(folded[c.occurrence], i)
    && IsSpan(folded[c.occurrence][i - 1], folded[c.occurrence][i])
    && (c.occurrence, i) in spans && spans[(c.occurrence, i)] == c.id
    && c == Drawn(c.id, folded[c.occurrence], c.occurrence, i)
  }

  /** Every connector is drawn for one span of one route. */
  ghost predicate NothingInvented(pool: Pool, folded: seq<seq<Token>>) {
    forall k :: 0 <= k < |pool.connectors| ==> HasOrigin(pool.connectors[k], folded, pool.spans)
  }

  ghost predicate HasOrigin(c: Connector, folded: seq<seq<Token>>, spans: Spans) {
    exists i: nat :: DrawnAt(c, folded, spans, i)
  }

  function Drawn(id: string, tokens: seq<Token>, occurrence: nat, i: nat): Connector
    requires 0 < i < |tokens| && Before(tokens, i)
  {
    Connector(id, tokens[i - 1].id, tokens[i].id, Skipped(tokens[i - 1], tokens[i]), occurrence)
  }

  /** The i-th pair of places has its own connector, or is an adjacency that is kept when it was observed. */
  ghost predicate Joined(tokens: seq<Token>, occurrence: nat, i: nat, links: set<Link>, pool: Pool)
    requires 0 < i < |tokens| && Before(tokens, i)
  {
    if IsSpan(tokens[i - 1], tokens[i]) then
      (occurrence, i) in pool.spans && Drawn(pool.spans[(occurrence, i)], tokens, occurrence, i) in pool.connectors
    else
      && (occurrence, i) !in pool.spans
      && (Link(tokens[i - 1].id, tokens[i].id) in links ==> Link(tokens[i - 1].id, tokens[i].id) in pool.observed)
  }

  ghost predicate AllJoined(tokens: seq<Token>, occurrence: nat, end: nat, links: set<Link>, pool: Pool) {
    InOrder(tokens) && forall i :: 0 < i < |tokens| && i < end ==> Before(tokens, i) && Joined(tokens, occurrence, i, links, pool)
  }

  ghost predicate KeysBefore(spans: Spans, occurrence: nat, i: nat) {
    forall key :: key in spans ==> key.0 < occurrence || (key.0 == occurrence && key.1 < i)
  }

  /** `now` gathered more, and changed nothing for the routes before `occurrence`. */
  ghost predicate Grown(was: Pool, now: Pool, occurrence: nat) {
    && was.observed <= now.observed && was.connectors <= now.connectors && was.used <= now.used
    && (forall key :: key in was.spans ==> key in now.spans && now.spans[key] == was.spans[key])
    && forall key :: key in now.spans && key.0 < occurrence ==> key in was.spans
  }

  lemma StillDrawn(was: Pool, now: Pool, folded: seq<seq<Token>>, k: nat)
    requires NothingInvented(was, folded) && k < |was.connectors| <= |now.connectors| && now.connectors[k] == was.connectors[k]
    requires forall key :: key in was.spans ==> key in now.spans && now.spans[key] == was.spans[key]
    ensures HasOrigin(now.connectors[k], folded, now.spans)
  {
    assert HasOrigin(was.connectors[k], folded, was.spans);
    var i: nat :| DrawnAt(was.connectors[k], folded, was.spans, i);
    assert DrawnAt(now.connectors[k], folded, now.spans, i);
  }

  function WithSpan(was: Pool, c: Connector, i: nat): Pool {
    was.(connectors := was.connectors + [c], spans := was.spans[(c.occurrence, i) := c.id], used := was.used + {c.id})
  }

  lemma SpanSound(was: Pool, c: Connector, i: nat, links: set<Link>, nodeIDs: set<string>)
    requires PoolSound(was, links, nodeIDs) && c.id !in was.used && (c.occurrence, i) !in was.spans
    ensures PoolSound(WithSpan(was, c, i), links, nodeIDs)
  {
  }

  lemma SpanDrawn(was: Pool, c: Connector, i: nat, folded: seq<seq<Token>>)
    requires NothingInvented(was, folded) && (c.occurrence, i) !in was.spans
    requires DrawnAt(c, folded, WithSpan(was, c, i).spans, i)
    ensures NothingInvented(WithSpan(was, c, i), folded)
  {
    var now := WithSpan(was, c, i);
    forall k | 0 <= k < |now.connectors| ensures HasOrigin(now.connectors[k], folded, now.spans) {
      if k < |was.connectors| {
        StillDrawn(was, now, folded, k);
      } else {
        assert now.connectors[k] == c;
      }
    }
  }

  /** What holds when the first i - 1 spans of a route have been walked. */
  ghost predicate Walked(tokens: seq<Token>, occurrence: nat, i: nat, links: set<Link>, before: Pool, pool: Pool,
                         nodeIDs: set<string>, folded: seq<seq<Token>>)
  {
    && PoolSound(pool, links, nodeIDs) && KeysBefore(pool.spans, occurrence, i) && NothingInvented(pool, folded)
    && AllJoined(tokens, occurrence, i, links, pool) && Grown(before, pool, occurrence)
  }

  lemma WalkSpan(tokens: seq<Token>, occurrence: nat, i: nat, links: set<Link>, before: Pool, was: Pool,
                 nodeIDs: set<string>, folded: seq<seq<Token>>, id: string)
    requires Walked(tokens, occurrence, i, links, before, was, nodeIDs, folded)
    requires 0 < i < |tokens| && Before(tokens, i) && IsSpan(tokens[i - 1], tokens[i]) && id !in was.used
    requires |folded| == occurrence + 1 && folded[occurrence] == tokens
    ensures Walked(tokens, occurrence, i + 1, links, before, WithSpan(was, Drawn(id, tokens, occurrence, i), i), nodeIDs, folded)
  {
    var c := Drawn(id, tokens, occurrence, i);
    var now := WithSpan(was, c, i);
    assert (occurrence, i) !in was.spans;
    SpanSound(was, c, i, links, nodeIDs);
    assert DrawnAt(c, folded, now.spans, i);
    SpanDrawn(was, c, i, folded);
    hide PoolSound, NothingInvented, HasOrigin, DrawnAt;
    StillJoined(tokens, occurrence, i, links, was, now);
    assert now.connectors[|was.connectors|] == c;
    assert Joined(tokens, occurrence, i, links, now);
  }

  lemma WalkLink(tokens: seq<Token>, occurrence: nat, i: nat, links: set<Link>, before: Pool, was: Pool, now: Pool,
                 nodeIDs: set<string>, folded: seq<seq<Token>>)
    requires Walked(tokens, occurrence, i, links, before, was, nodeIDs, folded)
    requires 0 < i < |tokens| && Before(tokens, i) && !IsSpan(tokens[i - 1], tokens[i])
    requires var link := Link(tokens[i - 1].id, tokens[i].id);
             now == if link in links && link !in was.observed then was.(observed := was.observed + [link]) else was
    ensures Walked(tokens, occurrence, i + 1, links, before, now, nodeIDs, folded)
  {
    assert PoolSound(now, links, nodeIDs);
    assert NothingInvented(now, folded) by {
      hide HasOrigin;
    }
    hide PoolSound, NothingInvented, HasOrigin;
    StillJoined(tokens, occurrence, i, links, was, now);
    assert Joined(tokens, occurrence, i, links, now);
  }

  // ----- What the routes put on display, in order -----

  /** The displayed forms of a route's first n places. */
  function RoutePlaces(tokens: seq<Token>, ids: seq<string>, n: nat): seq<Shown>
    requires n <= |tokens|
  {
    if n == 0 then []
    else
      var t := tokens[n - 1];
      RoutePlaces(tokens, ids, n - 1) + if t.start <= t.end < |ids| then [ShownFor(t, ids)] else []
  }

  function Places(folded: seq<seq<Token>>, routes: seq<Route>): seq<Shown>
    requires |folded| <= |routes|
  {
    if folded == [] then []
    else
      var o := |folded| - 1;
      Places(folded[..o], routes) + RoutePlaces(folded[o], routes[o].ids, |folded[o]|)
  }

  /** The observed adjacencies among a route's first n pairs of places. */
  function RouteSteps(tokens: seq<Token>, links: set<Link>, n: nat): seq<Link>
    requires n <= |tokens|
  {
    if n < 2 then []
    else
      var a, b := tokens[n - 2], tokens[n - 1];
      RouteSteps(tokens, links, n - 1) + if !IsSpan(a, b) && Link(a.id, b.id) in links then [Link(a.id, b.id)] else []
  }

  function Steps(folded: seq<seq<Token>>, links: set<Link>): seq<Link> {
    if folded == [] then []
    else
      var o := |folded| - 1;
      Steps(folded[..o], links) + RouteSteps(folded[o], links, |folded[o]|)
  }

  /** The spans among a route's first n places, by route and place. */
  function RouteSpans(tokens: seq<Token>, occurrence: nat, n: nat): seq<(nat, nat)>
    requires n <= |tokens|
  {
    if n < 2 then []
    else RouteSpans(tokens, occurrence, n - 1) + if IsSpan(tokens[n - 2], tokens[n - 1]) then [(occurrence, n - 1)] else []
  }

  function SpanList(folded: seq<seq<Token>>): seq<(nat, nat)> {
    if folded == [] then []
    else
      var o := |folded| - 1;
      SpanList(folded[..o]) + RouteSpans(folded[o], o, |folded[o]|)
  }

  ghost predicate DrawnFor(c: Connector, folded: seq<seq<Token>>, at: (nat, nat)) {
    && at.0 < |folded| && 0 < at.1 < |folded[at.0]| && Before(folded[at.0], at.1)
    && c == Drawn(c.id, folded[at.0], at.0, at.1)
  }

  /** One connector for each span, in order. */
  ghost predicate SpansDrawn(connectors: seq<Connector>, folded: seq<seq<Token>>, spans: seq<(nat, nat)>) {
    |connectors| == |spans| && forall k :: 0 <= k < |spans| ==> DrawnFor(connectors[k], folded, spans[k])
  }

  /** Nothing is gathered but the places, the observed adjacencies and the spans of the routes, in the order of the walk. */
  ghost predicate OnlyFrom(folded: seq<seq<Token>>, routes: seq<Route>, links: set<Link>, all: seq<Shown>, pool: Pool) {
    && |folded| <= |routes|
    && InOrderOfArrival(all, Places(folded, routes)) && InOrderOfArrival(pool.observed, Steps(folded, links))
    && SpansDrawn(pool.connectors, folded, SpanList(folded))
  }

  /** What the walk of one route has added so far to what the routes before it gave. */
  ghost predicate Tracked(tokens: seq<Token>, occurrence: nat, i: nat, links: set<Link>, pool: Pool, folded: seq<seq<Token>>,
                          steps: seq<Link>, spans: seq<(nat, nat)>)
  {
    var n := if i <= |tokens| then i else |tokens|;
    && InOrderOfArrival(pool.observed, steps + RouteSteps(tokens, links, n))
    && SpansDrawn(pool.connectors, folded, spans + RouteSpans(tokens, occurrence, n))
  }

  lemma TrackSpan(tokens: seq<Token>, occurrence: nat, i: nat, links: set<Link>, was: Pool, folded: seq<seq<Token>>,
                  steps: seq<Link>, spans: seq<(nat, nat)>, id: string)
    requires Tracked(tokens, occurrence, i, links, was, folded, steps, spans)
    requires 0 < i < |tokens| && Before(tokens, i) && IsSpan(tokens[i - 1], tokens[i])
    requires |folded| == occurrence + 1 && folded[occurrence] == tokens
    ensures Tracked(tokens, occurrence, i + 1, links, WithSpan(was, Drawn(id, tokens, occurrence, i), i), folded, steps, spans)
  {
    hide InOrderOfArrival;
    assert RouteSteps(tokens, links, i + 1) == RouteSteps(tokens, links, i);
    assert RouteSpans(tokens, occurrence, i + 1) == RouteSpans(tokens, occurrence, i) + [(occurrence, i)];
    assert spans + RouteSpans(tokens, occurrence, i + 1) == (spans + RouteSpans(tokens, occurrence, i)) + [(occurrence, i)];
    assert DrawnFor(Drawn(id, tokens, occurrence, i), folded, (occurrence, i));
  }

  lemma TrackLink(tokens: seq<Token>, occurrence: nat, i: nat, links: set<Link>, was: Pool, now: Pool, folded: seq<seq<Token>>,
                  steps: seq<Link>, spans: seq<(nat, nat)>)
    requires Tracked(tokens, occurrence, i, links, was, folded, steps, spans)
    requires 0 < i < |tokens| && !IsSpan(tokens[i - 1], tokens[i])
    requires var link := Link(tokens[i - 1].id, tokens[i].id);
             now == if link in links && link !in was.observed then was.(observed := was.observed + [link]) else was
    ensures Tracked(tokens, occurrence, i + 1, links, now, folded, steps, spans)
  {
    hide InOrderOfArrival;
    var link, before := Link(tokens[i - 1].id, tokens[i].id), RouteSteps(tokens, links, i);
    assert RouteSpans(tokens, occurrence, i + 1) == RouteSpans(tokens, occurrence, i);
    if link in links {
      OneMoreArrival(was.observed, steps + before, link);
      assert RouteSteps(tokens, links, i + 1) == before + [link];
      assert steps + (before + [link]) == (steps + before) + [link];
    } else {
      assert RouteSteps(tokens, links, i + 1) == before;
    }
  }

  lemma TrackingStarts(tokens: seq<Token>, occurrence: nat, links: set<Link>, pool: Pool, folded: seq<seq<Token>>,
                       steps: seq<Link>, spans: seq<(nat, nat)>)
    requires InOrderOfArrival(pool.observed, steps) && SpansDrawn(pool.connectors, folded, spans)
    ensures Tracked(tokens, occurrence, 1, links, pool, folded, steps, spans)
  {
    assert steps + [] == steps && spans + [] == spans;
  }

  method JoinRoute(tokens: seq<Token>, occurrence: nat, links: set<Link>, before: Pool,
                   ghost nodeIDs: set<string>, ghost folded: seq<seq<Token>>, ghost steps: seq<Link>, ghost spans: seq<(nat, nat)>)
    returns (pool: Pool)
    requires |folded| == occurrence + 1 && folded[occurrence] == tokens && NothingInvented(before, folded)
    requires InOrder(tokens) && PoolSound(before, links, nodeIDs) && KeysBefore(before.spans, occurrence, 0)
    requires InOrderOfArrival(before.observed, steps) && SpansDrawn(before.connectors, folded, spans)
    ensures InOrderOfArrival(pool.observed, steps + RouteSteps(tokens, links, |tokens|))
    ensures SpansDrawn(pool.connectors, folded, spans + RouteSpans(tokens, occurrence, |tokens|))
    ensures NothingInvented(pool, folded) && PoolSound(pool, links, nodeIDs) && KeysBefore(pool.spans, occurrence + 1, 0)
    ensures AllJoined(tokens, occurrence, |tokens|, links, pool) && Grown(before, pool, occurrence)
  {
    hide PoolSound, NothingInvented, AllJoined, Grown, KeysBefore, Walked, Tracked, InOrderOfArrival, SpansDrawn, RouteSteps, RouteSpans;
    TrackingStarts(tokens, occurrence, links, before, folded, steps, spans);
    pool := before;
    var i := 1;
    FirstWalked(tokens, occurrence, links, before, nodeIDs, folded);
    while i < |tokens|
      invariant 1 <= i && Walked(tokens, occurrence, i, links, before, pool, nodeIDs, folded)
      invariant Tracked(tokens, occurrence, i, links, pool, folded, steps, spans)
    {
      assert Before(tokens, i);
      var from, next := tokens[i - 1], tokens[i];
      var skipped := next.start - from.end - 1;
      if skipped > 0 || from.group || next.group {
        var id := FindUnique(SpanBase(skipped > 0, occurrence, i), pool.used);
        WalkSpan(tokens, occurrence, i, links, before, pool, nodeIDs, folded, id);
        TrackSpan(tokens, occurrence, i, links, pool, folded, steps, spans, id);
        var c := Connector(id, from.id, next.id, skipped, occurrence);
        pool := pool.(connectors := pool.connectors + [c], spans := pool.spans[(occurrence, i) := id], used := pool.used + {id});
      } else {
        ghost var was := pool;
        var link := Link(from.id, next.id);
        if link in links && link !in pool.observed {
          pool := pool.(observed := pool.observed + [link]);
        }
        WalkLink(tokens, occurrence, i, links, before, was, pool, nodeIDs, folded);
        TrackLink(tokens, occurrence, i, links, was, pool, folded, steps, spans);
      }
      i := i + 1;
    }
    LastWalked(tokens, occurrence, i, links, before, pool, nodeIDs, folded);
    LastTracked(tokens, occurrence, i, links, pool, folded, steps, spans);
  }

  lemma LastTracked(tokens: seq<Token>, occurrence: nat, i: nat, links: set<Link>, pool: Pool, folded: seq<seq<Token>>,
                    steps: seq<Link>, spans: seq<(nat, nat)>)
    requires i >= |tokens| && Tracked(tokens, occurrence, i, links, pool, folded, steps, spans)
    ensures InOrderOfArrival(pool.observed, steps + RouteSteps(tokens, links, |tokens|))
    ensures SpansDrawn(pool.connectors, folded, spans + RouteSpans(tokens, occurrence, |tokens|))
  {
  }

  lemma LastWalked(tokens: seq<Token>, occurrence: nat, i: nat, links: set<Link>, before: Pool, pool: Pool,
                   nodeIDs: set<string>, folded: seq<seq<Token>>)
    requires i >= |tokens| && Walked(tokens, occurrence, i, links, before, pool, nodeIDs, folded)
    ensures NothingInvented(pool, folded) && PoolSound(pool, links, nodeIDs) && KeysBefore(pool.spans, occurrence + 1, 0)
    ensures AllJoined(tokens, occurrence, |tokens|, links, pool) && Grown(before, pool, occurrence)
  {
    hide PoolSound, NothingInvented, Grown;
  }

  lemma FirstWalked(tokens: seq<Token>, occurrence: nat, links: set<Link>, before: Pool, nodeIDs: set<string>, folded: seq<seq<Token>>)
    requires InOrder(tokens) && NothingInvented(before, folded) && PoolSound(before, links, nodeIDs) && KeysBefore(before.spans, occurrence, 0)
    ensures Walked(tokens, occurrence, 1, links, before, before, nodeIDs, folded)
  {
    hide PoolSound, NothingInvented;
  }

  lemma StillJoined(tokens: seq<Token>, occurrence: nat, end: nat, links: set<Link>, was: Pool, now: Pool)
    requires AllJoined(tokens, occurrence, end, links, was)
    requires was.observed <= now.observed && was.connectors <= now.connectors
    requires forall key :: key in was.spans ==> key in now.spans && now.spans[key] == was.spans[key]
    requires forall key :: key in now.spans && (key.0 < occurrence || (key.0 == occurrence && key.1 < end)) ==> key in was.spans
    ensures AllJoined(tokens, occurrence, end, links, now)
  {
    forall i | 0 < i < |tokens| && i < end ensures Before(tokens, i) && Joined(tokens, occurrence, i, links, now) {
      assert Before(tokens, i) && Joined(tokens, occurrence, i, links, was);
    }
  }

  // ----- The displayed nodes -----

  function ByID(nodes: seq<Node>): map<string, Node> {
    if nodes == [] then map[] else ByID(nodes[..|nodes| - 1])[nodes[|nodes| - 1].id := nodes[|nodes| - 1]]
  }

  function ShownIDs(nodes: seq<Shown>): set<string> { set x | x in nodes :: x.id }

  function ShownFor(t: Token, ids: seq<string>): Shown
    requires t.start <= t.end < |ids|
  {
    if t.group then Group(t.id, ids[t.start..t.end + 1]) else Plain(t.id)
  }

  /** Plain nodes are the topology's; groups have identifiers of their own. */
  ghost predicate NodesSound(nodes: seq<Shown>, byID: map<string, Node>) {
    && (forall j, k :: 0 <= j < k < |nodes| ==> nodes[j].id != nodes[k].id)
    && forall k :: 0 <= k < |nodes| ==> (nodes[k].Plain? <==> nodes[k].id in byID)
  }

  ghost predicate AllShown(tokens: seq<Token>, ids: seq<string>, end: nat, nodes: seq<Shown>) {
    forall k :: 0 <= k < |tokens| && k < end ==> tokens[k].start <= tokens[k].end < |ids| && ShownFor(tokens[k], ids) in nodes
  }

  ghost predicate Fitting(tokens: seq<Token>, ids: seq<string>, byID: map<string, Node>) {
    forall k :: 0 <= k < |tokens| ==> TokenFits(tokens[k], ids, byID)
  }

  lemma FoldsFitInOrder(tokens: seq<Token>, ids: seq<string>, byID: map<string, Node>, show: bool)
    requires Folds(tokens, ids, byID, show)
    ensures Fitting(tokens, ids, byID) && InOrder(tokens)
  {
    forall k | 0 <= k < |tokens| ensures TokenFits(tokens[k], ids, byID) && (k > 0 ==> Before(tokens, k)) {
      PlacesInOrder(tokens, ids, byID, show, |ids|, k);
    }
  }

  lemma NoPlaces(tokens: seq<Token>, ids: seq<string>, places: seq<Shown>)
    ensures places + RoutePlaces(tokens, ids, 0) == places
  {
  }

  lemma PlaceAdded(tokens: seq<Token>, ids: seq<string>, k: nat, places: seq<Shown>, nodes: seq<Shown>)
    requires k < |tokens| && tokens[k].start <= tokens[k].end < |ids|
    requires InOrderOfArrival(nodes, places + RoutePlaces(tokens, ids, k))
    ensures var x := ShownFor(tokens[k], ids);
            InOrderOfArrival(if x in nodes then nodes else nodes + [x], places + RoutePlaces(tokens, ids, k + 1))
  {
    hide InOrderOfArrival, ShownFor;
    var x, before := ShownFor(tokens[k], ids), RoutePlaces(tokens, ids, k);
    OneMoreArrival(nodes, places + before, x);
    assert RoutePlaces(tokens, ids, k + 1) == before + [x];
    assert places + (before + [x]) == (places + before) + [x];
  }

  lemma FreshShown(nodes: seq<Shown>, x: Shown)
    requires x.id !in ShownIDs(nodes)
    ensures x !in nodes && ShownIDs(nodes + [x]) == ShownIDs(nodes) + {x.id}
  {
    forall y ensures y in nodes + [x] <==> y in nodes || y == x {
    }
  }

  lemma FitBounds(t: Token, ids: seq<string>, byID: map<string, Node>)
    requires TokenFits(t, ids, byID)
    ensures t.start <= t.end < |ids| && (!t.group ==> t.id in byID)
  {
  }

  lemma KnownShown(nodes: seq<Shown>, t: Token, ids: seq<string>, byID: map<string, Node>)
    requires TokenFits(t, ids, byID) && !t.group && NodesSound(nodes, byID) && t.id in ShownIDs(nodes)
    ensures ShownFor(t, ids) in nodes
  {
    var x :| x in nodes && x.id == t.id;
    assert x == ShownFor(t, ids);
  }

  method AddNodes(tokens: seq<Token>, ids: seq<string>, before: seq<Shown>, ghost byID: map<string, Node>,
                  ghost used: set<string>, ghost nowUsed: set<string>, ghost places: seq<Shown>)
    returns (nodes: seq<Shown>)
    requires Fitting(tokens, ids, byID) && FreshGroups(tokens, used, nowUsed) && byID.Keys <= used
    requires NodesSound(before, byID) && ShownIDs(before) <= used && InOrderOfArrival(before, places)
    ensures InOrderOfArrival(nodes, places + RoutePlaces(tokens, ids, |tokens|))
    ensures before <= nodes && NodesSound(nodes, byID) && AllShown(tokens, ids, |tokens|, nodes) && ShownIDs(nodes) <= nowUsed
    ensures forall id :: id in ShownIDs(nodes) && id !in ShownIDs(before) && id in used ==> id in byID
  {
    hide InOrderOfArrival, RoutePlaces, TokenFits;
    nodes := before;
    var k := 0;
    NoPlaces(tokens, ids, places);
    while k < |tokens|
      invariant k <= |tokens| && InOrderOfArrival(nodes, places + RoutePlaces(tokens, ids, k))
      invariant before <= nodes && NodesSound(nodes, byID) && AllShown(tokens, ids, k, nodes)
      invariant ShownIDs(nodes) <= nowUsed
      invariant forall id :: id in ShownIDs(nodes) ==> id in ShownIDs(before) || id in byID || id !in used
      invariant forall j :: k <= j < |tokens| && tokens[j].group ==> tokens[j].id !in ShownIDs(nodes)
    {
      var t := tokens[k];
      ghost var was := nodes;
      FitBounds(t, ids, byID);
      PlaceAdded(tokens, ids, k, places, nodes);
      if t.id !in ShownIDs(nodes) {
        nodes := nodes + [if t.group then Group(t.id, ids[t.start..t.end + 1]) else Plain(t.id)];
        assert nodes[|was|] == ShownFor(t, ids);
        FreshShown(was, ShownFor(t, ids));
      } else {
        KnownShown(nodes, t, ids, byID);
      }
      k := k + 1;
    }
  }

  // ----- Cutting to the budget -----

  function Room(cap: nat, budget: int): nat { if budget < 0 then 0 else if budget < cap then budget else cap }

  function Front<T>(s: seq<T>, n: nat): (r: seq<T>)
    ensures |r| == (if n < |s| then n else |s|) && r <= s
  {
    if n < |s| then s[..n] else s
  }

  /** The links whose two ends are retained, in order. */
  function LinksWithin(links: seq<Link>, ids: set<string>): (r: seq<Link>)
    ensures forall l :: l in r <==> l in links && l.from in ids && l.to in ids
  {
    if links == [] then []
    else
      var l := links[|links| - 1];
      LinksWithin(links[..|links| - 1], ids) + if l.from in ids && l.to in ids then [l] else []
  }

  function ConnectorsWithin(connectors: seq<Connector>, ids: set<string>): (r: seq<Connector>)
    ensures forall c :: c in r <==> c in connectors && c.from in ids && c.to in ids
  {
    if connectors == [] then []
    else
      var c := connectors[|connectors| - 1];
      ConnectorsWithin(connectors[..|connectors| - 1], ids) + if c.from in ids && c.to in ids then [c] else []
  }

  /** The p-th place of a folded route is displayed, and so is its way from the place before. */
  ghost predicate Passable(tokens: seq<Token>, ids: seq<string>, occurrence: nat, p: nat, view: Display, spans: Spans)
    requires p < |tokens| && InOrder(tokens) && tokens[p].start <= tokens[p].end < |ids|
  {
    && ShownFor(tokens[p], ids) in view.nodes
    && (p > 0 ==> Witnessed(tokens, occurrence, p, view, spans))
  }

  /** An observed link that is displayed or, for a span, that very span's connector. */
  ghost predicate Witnessed(tokens: seq<Token>, occurrence: nat, p: nat, view: Display, spans: Spans)
    requires 0 < p < |tokens| && InOrder(tokens)
  {
    assert Before(tokens, p);
    if IsSpan(tokens[p - 1], tokens[p]) then
      (occurrence, p) in spans && Drawn(spans[(occurrence, p)], tokens, occurrence, p) in view.connectors
    else Link(tokens[p - 1].id, tokens[p].id) in view.links
  }

  /** A displayed route is the longest passable front of its folded route, and complete only when it is whole. */
  ghost predicate RouteKept(route: Route, kept: Route, tokens: seq<Token>, occurrence: nat, view: Display, spans: Spans)
    requires InOrder(tokens) && forall k :: 0 <= k < |tokens| ==> tokens[k].start <= tokens[k].end < |route.ids|
  {
    && kept.result == route.result && kept.attempt == route.attempt
    && |kept.ids| <= |tokens|
    && (forall p :: 0 <= p < |kept.ids| ==> kept.ids[p] == tokens[p].id && Passable(tokens, route.ids, occurrence, p, view, spans))
    && (|kept.ids| < |tokens| ==> !Passable(tokens, route.ids, occurrence, |kept.ids|, view, spans))
    && (kept.complete <==> route.complete && |kept.ids| == |tokens|)
  }

  /** Presence by identifier is presence of the node. */
  lemma ShownByID(all: seq<Shown>, view: seq<Shown>, x: Shown, byID: map<string, Node>)
    requires NodesSound(all, byID) && view <= all && x in all
    ensures x.id in ShownIDs(view) <==> x in view
  {
    if x.id in ShownIDs(view) {
      var y :| y in view && y.id == x.id;
      var j :| 0 <= j < |all| && all[j] == x;
      var k :| 0 <= k < |view| && view[k] == y;
      assert all[k] == y;
    }
  }

  /** Presence of a connector's identifier is presence of the connector. */
  lemma ConnectorByID(pool: Pool, view: seq<Connector>, c: Connector, links: set<Link>, nodeIDs: set<string>)
    requires PoolSound(pool, links, nodeIDs) && c in pool.connectors && forall d :: d in view ==> d in pool.connectors
    ensures c.id in SpanIDs(view) <==> c in view
  {
    if c.id in SpanIDs(view) {
      var d :| d in view && d.id == c.id;
      var j :| 0 <= j < |pool.connectors| && pool.connectors[j] == c;
      var k :| 0 <= k < |pool.connectors| && pool.connectors[k] == d;
    }
  }

  function SpanIDs(connectors: seq<Connector>): set<string> { set c | c in connectors :: c.id }

  /** What the loop looks up by identifier decides whether a place is passable. */
  lemma PassableByID(route: Route, tokens: seq<Token>, occurrence: nat, p: nat, view: Display, pool: Pool, all: seq<Shown>,
                     byID: map<string, Node>, links: set<Link>)
    requires p < |tokens| && InOrder(tokens) && TokenFits(tokens[p], route.ids, byID) && ShownFor(tokens[p], route.ids) in all
    requires p > 0 ==> Before(tokens, p) && Joined(tokens, occurrence, p, links, pool)
    requires NodesSound(all, byID) && PoolSound(pool, links, ShownIDs(all) + byID.Keys)
    requires view.nodes <= all && (forall c :: c in view.connectors ==> c in pool.connectors)
    ensures Passable(tokens, route.ids, occurrence, p, view, pool.spans) <==>
            && tokens[p].id in ShownIDs(view.nodes)
            && (p > 0 ==> if (occurrence, p) in pool.spans then pool.spans[(occurrence, p)] in SpanIDs(view.connectors)
                          else Link(tokens[p - 1].id, tokens[p].id) in view.links)
  {
    ShownByID(all, view.nodes, ShownFor(tokens[p], route.ids), byID);
    if p > 0 && (occurrence, p) in pool.spans {
      ConnectorByID(pool, view.connectors, Drawn(pool.spans[(occurrence, p)], tokens, occurrence, p), links, ShownIDs(all) + byID.Keys);
    }
  }

  lemma PassableHere(route: Route, tokens: seq<Token>, occurrence: nat, p: nat, view: Display, pool: Pool, all: seq<Shown>,
                     byID: map<string, Node>, links: set<Link>)
    requires InOrder(tokens) && Fitting(tokens, route.ids, byID) && AllShown(tokens, route.ids, |tokens|, all)
    requires AllJoined(tokens, occurrence, |tokens|, links, pool) && p < |tokens|
    requires NodesSound(all, byID) && PoolSound(pool, links, ShownIDs(all) + byID.Keys)
    requires view.nodes <= all && (forall c :: c in view.connectors ==> c in pool.connectors)
    ensures Passable(tokens, route.ids, occurrence, p, view, pool.spans) <==>
            && tokens[p].id in ShownIDs(view.nodes)
            && (p > 0 ==> if (occurrence, p) in pool.spans then pool.spans[(occurrence, p)] in SpanIDs(view.connectors)
                          else Link(tokens[p - 1].id, tokens[p].id) in view.links)
  {
    hide NodesSound, PoolSound, ShownIDs, SpanIDs, Passable;
    PassableByID(route, tokens, occurrence, p, view, pool, all, byID, links);
  }

  method KeepRoute(route: Route, tokens: seq<Token>, occurrence: nat, view: Display, pool: Pool, ghost all: seq<Shown>,
                   ghost byID: map<string, Node>, ghost links: set<Link>)
    returns (kept: Route)
    requires InOrder(tokens) && Fitting(tokens, route.ids, byID) && AllShown(tokens, route.ids, |tokens|, all)
    requires AllJoined(tokens, occurrence, |tokens|, links, pool)
    requires NodesSound(all, byID) && PoolSound(pool, links, ShownIDs(all) + byID.Keys)
    requires view.nodes <= all && (forall c :: c in view.connectors ==> c in pool.connectors)
    ensures RouteKept(route, kept, tokens, occurrence, view, pool.spans)
  {
    hide AllShown, AllJoined, NodesSound, PoolSound, Passable, ShownIDs, SpanIDs;
    var retainedIDs := ShownIDs(view.nodes);
    var keptSpans := SpanIDs(view.connectors);
    var ids: seq<string> := [];
    var go := true;
    while go && |ids| < |tokens|
      invariant |ids| <= |tokens|
      invariant forall p :: 0 <= p < |ids| ==> ids[p] == tokens[p].id && Passable(tokens, route.ids, occurrence, p, view, pool.spans)
      invariant !go ==> |ids| < |tokens| && !Passable(tokens, route.ids, occurrence, |ids|, view, pool.spans)
      decreases |tokens| - |ids|, go
    {
      var p := |ids|;
      var id := tokens[p].id;
      PassableHere(route, tokens, occurrence, p, view, pool, all, byID, links);
      if id !in retainedIDs {
        go := false;
      } else if p > 0 {
        go := if (occurrence, p) in pool.spans then pool.spans[(occurrence, p)] in keptSpans
              else Link(ids[p - 1], id) in view.links;
      }
      if go {
        ids := ids + [id];
      }
    }
    kept := Route(route.result, route.attempt, ids, route.complete && |ids| == |tokens|);
  }

  // ----- The whole presentation -----

  ghost predicate TopologyValid(t: Topology) {
    && (forall j, k :: 0 <= j < k < |t.nodes| ==> t.nodes[j].id != t.nodes[k].id)
    && forall o :: 0 <= o < |t.routes| ==> Named(t.routes[o].ids, ByID(t.nodes))
  }

  function LinkSet(links: seq<Link>): set<Link> { set l | l in links }

  ghost predicate RouteGathered(route: Route, byID: map<string, Node>, tokens: seq<Token>, o: nat, show: bool,
                                all: seq<Shown>, pool: Pool, links: set<Link>)
  {
    && Folds(tokens, route.ids, byID, show) && Fitting(tokens, route.ids, byID)
    && AllShown(tokens, route.ids, |tokens|, all) && AllJoined(tokens, o, |tokens|, links, pool)
  }

  ghost predicate SoundSoFar(byID: map<string, Node>, folded: seq<seq<Token>>, all: seq<Shown>, pool: Pool, links: set<Link>) {
    && NodesSound(all, byID) && PoolSound(pool, links, ShownIDs(all) + byID.Keys)
    && KeysBefore(pool.spans, |folded|, 0) && NothingInvented(pool, folded)
  }

  /** What the cut works on, tied to the folded routes. */
  ghost predicate Gathered(topology: Topology, byID: map<string, Node>, folded: seq<seq<Token>>, show: bool,
                           all: seq<Shown>, pool: Pool, links: set<Link>)
  {
    && |folded| == |topology.routes|
    && (forall o :: 0 <= o < |folded| ==> RouteGathered(topology.routes[o], byID, folded[o], o, show, all, pool, links))
    && SoundSoFar(byID, folded, all, pool, links)
  }

  /** The retained part of what was gathered, within the budget. */
  ghost predicate Cut(view: Display, all: seq<Shown>, pool: Pool, routes: nat, budget: int) {
    && view.nodes == Front(all, Room(NODE_CAP, budget - routes))
    && var room := Room(LINK_CAP, budget - routes - |view.nodes|);
    && view.links == Front(LinksWithin(pool.observed, ShownIDs(view.nodes)), room)
    && |view.links| <= room
    && view.connectors == Front(ConnectorsWithin(pool.connectors, ShownIDs(view.nodes)), room - |view.links|)
  }

  ghost predicate RoutesKept(routes: seq<Route>, kept: seq<Route>, folded: seq<seq<Token>>, byID: map<string, Node>,
                             view: Display, spans: Spans)
  {
    && |kept| <= |routes| == |folded|
    && forall o :: 0 <= o < |kept| ==>
         InOrder(folded[o]) && Fitting(folded[o], routes[o].ids, byID) && RouteKept(routes[o], kept[o], folded[o], o, view, spans)
  }

  /** Without routes everything is shown as it is. */
  ghost predicate PlainGathered(topology: Topology, all: seq<Shown>, pool: Pool) {
    && |all| == |topology.nodes| && (forall k :: 0 <= k < |all| ==> all[k] == Plain(topology.nodes[k].id))
    && InOrderOfArrival(pool.observed, topology.links) && pool.connectors == []
  }

  ghost predicate Presented(topology: Topology, show: bool, budget: int, view: View,
                            folded: seq<seq<Token>>, all: seq<Shown>, pool: Pool)
  {
    && Gathered(topology, ByID(topology.nodes), folded, show, all, pool, LinkSet(topology.links))
    && Cut(view.display, all, pool, |topology.routes|, budget)
    && view.totalNodes == |all| && view.totalLinks == |pool.observed| + |pool.connectors|
    && |view.routes| == |topology.routes|
    && RoutesKept(topology.routes, view.routes, folded, ByID(topology.nodes), view.display, pool.spans)
    && if topology.routes == [] then PlainGathered(topology, all, pool)
       else OnlyFrom(folded, topology.routes, LinkSet(topology.links), all, pool)
  }

  lemma {:induction false} ByIDHas(nodes: seq<Node>)
    ensures forall id :: id in ByID(nodes) <==> exists k :: 0 <= k < |nodes| && nodes[k].id == id
  {
    if nodes != [] {
      ByIDHas(nodes[..|nodes| - 1]);
    }
  }

  /** A span's connector, an adjacency's link and a place's node stay what they are while more routes are walked. */
  lemma GatheredMore(topology: Topology, byID: map<string, Node>, folded: seq<seq<Token>>, show: bool, o: nat,
                     all: seq<Shown>, more: seq<Shown>, pool: Pool, grown: Pool, links: set<Link>)
    requires o < |folded| <= |topology.routes|
    requires AllShown(folded[o], topology.routes[o].ids, |folded[o]|, all) && all <= more
    requires AllJoined(folded[o], o, |folded[o]|, links, pool) && Grown(pool, grown, |folded|)
    ensures AllShown(folded[o], topology.routes[o].ids, |folded[o]|, more)
    ensures AllJoined(folded[o], o, |folded[o]|, links, grown)
  {
    StillJoined(folded[o], o, |folded[o]|, links, pool, grown);
  }

  lemma UsedGrows(pool: Pool, used: set<string>, links: set<Link>, before: set<string>, now: set<string>)
    requires PoolSound(pool, links, before) && pool.used <= used && now <= used
    requires forall id :: id in now && id in pool.used ==> id in before
    ensures PoolSound(pool.(used := used), links, now)
  {
  }

  lemma FoldedGrows(pool: Pool, folded: seq<seq<Token>>, tokens: seq<Token>)
    requires NothingInvented(pool, folded)
    ensures NothingInvented(pool, folded + [tokens])
  {
    forall k | 0 <= k < |pool.connectors| ensures HasOrigin(pool.connectors[k], folded + [tokens], pool.spans) {
      assert HasOrigin(pool.connectors[k], folded, pool.spans);
      var i: nat :| DrawnAt(pool.connectors[k], folded, pool.spans, i);
      assert DrawnAt(pool.connectors[k], folded + [tokens], pool.spans, i);
    }
  }

  lemma OnlyFromParts(folded: seq<seq<Token>>, tokens: seq<Token>, routes: seq<Route>, links: set<Link>, all: seq<Shown>, pool: Pool)
    requires OnlyFrom(folded, routes, links, all, pool)
    ensures InOrderOfArrival(all, Places(folded, routes)) && InOrderOfArrival(pool.observed, Steps(folded, links))
    ensures SpansDrawn(pool.connectors, folded + [tokens], SpanList(folded))
  {
    hide InOrderOfArrival, SpanList;
    forall k | 0 <= k < |pool.connectors| ensures DrawnFor(pool.connectors[k], folded + [tokens], SpanList(folded)[k]) {
      assert DrawnFor(pool.connectors[k], folded, SpanList(folded)[k]);
    }
  }

  lemma FoldedMore(folded: seq<seq<Token>>, tokens: seq<Token>, routes: seq<Route>, links: set<Link>)
    requires |folded| < |routes|
    ensures Places(folded + [tokens], routes) == Places(folded, routes) + RoutePlaces(tokens, routes[|folded|].ids, |tokens|)
    ensures Steps(folded + [tokens], links) == Steps(folded, links) + RouteSteps(tokens, links, |tokens|)
    ensures SpanList(folded + [tokens]) == SpanList(folded) + RouteSpans(tokens, |folded|, |tokens|)
  {
    hide RoutePlaces, RouteSteps, RouteSpans;
    assert (folded + [tokens])[..|folded|] == folded;
  }

  lemma OnlyFromIs(folded: seq<seq<Token>>, routes: seq<Route>, links: set<Link>, all: seq<Shown>, pool: Pool)
    requires |folded| <= |routes| && InOrderOfArrival(all, Places(folded, routes)) && InOrderOfArrival(pool.observed, Steps(folded, links))
    requires SpansDrawn(pool.connectors, folded, SpanList(folded))
    ensures OnlyFrom(folded, routes, links, all, pool)
  {
    hide InOrderOfArrival, SpansDrawn, Places, Steps, SpanList;
  }

  lemma OnlyFromMore(folded: seq<seq<Token>>, tokens: seq<Token>, routes: seq<Route>, links: set<Link>, all: seq<Shown>, pool: Pool)
    requires |folded| < |routes|
    requires InOrderOfArrival(all, Places(folded, routes) + RoutePlaces(tokens, routes[|folded|].ids, |tokens|))
    requires InOrderOfArrival(pool.observed, Steps(folded, links) + RouteSteps(tokens, links, |tokens|))
    requires SpansDrawn(pool.connectors, folded + [tokens], SpanList(folded) + RouteSpans(tokens, |folded|, |tokens|))
    ensures OnlyFrom(folded + [tokens], routes, links, all, pool)
  {
    hide *;
    FoldedMore(folded, tokens, routes, links);
    OnlyFromIs(folded + [tokens], routes, links, all, pool);
  }

  /** Folds one route and joins its places. */
  method GatherRoute(route: Route, byID: map<string, Node>, show: bool, links: set<Link>, o: nat,
                     ghost folded: seq<seq<Token>>, ghost routes: seq<Route>, before: seq<Shown>, was: Pool)
    returns (tokens: seq<Token>, all: seq<Shown>, pool: Pool)
    requires Named(route.ids, byID) && |folded| == o && SoundSoFar(byID, folded, before, was, links)
    requires o < |routes| && routes[o] == route && OnlyFrom(folded, routes, links, before, was)
    ensures OnlyFrom(folded + [tokens], routes, links, all, pool)
    ensures RouteGathered(route, byID, tokens, o, show, all, pool, links)
    ensures SoundSoFar(byID, folded + [tokens], all, pool, links)
    ensures before <= all && Grown(was, pool, o)
  {
    hide OnlyFrom, InOrderOfArrival, SpansDrawn, SpanList, Places, Steps, RoutePlaces, RouteSteps, RouteSpans;
    var used: set<string>;
    tokens, used := FoldRoute(route, o, byID, show, was.used);
    FoldsFitInOrder(tokens, route.ids, byID, show);
    OnlyFromParts(folded, tokens, routes, links, before, was);
    all := AddNodes(tokens, route.ids, before, byID, was.used, used, Places(folded, routes));
    UsedGrows(was, used, links, ShownIDs(before) + byID.Keys, ShownIDs(all) + byID.Keys);
    FoldedGrows(was.(used := used), folded, tokens);
    pool := JoinRoute(tokens, o, links, was.(used := used), ShownIDs(all) + byID.Keys, folded + [tokens], Steps(folded, links), SpanList(folded));
    OnlyFromMore(folded, tokens, routes, links, all, pool);
  }

  lemma NothingYet(routes: seq<Route>, links: set<Link>, byID: map<string, Node>)
    ensures OnlyFrom([], routes, links, [], Pool([], [], map[], byID.Keys)) && SoundSoFar(byID, [], [], Pool([], [], map[], byID.Keys), links)
  {
    NoArrivals<Shown>();
    NoArrivals<Link>();
    assert ShownIDs([]) == {};
  }

  /** Walks the routes in order. */
  method Gather(topology: Topology, byID: map<string, Node>, show: bool)
    returns (plans: seq<seq<Token>>, all: seq<Shown>, pool: Pool)
    requires TopologyValid(topology) && byID == ByID(topology.nodes)
    ensures |plans| == |topology.routes|
    ensures forall o :: 0 <= o < |plans| ==>
              RouteGathered(topology.routes[o], byID, plans[o], o, show, all, pool, LinkSet(topology.links))
    ensures SoundSoFar(byID, plans, all, pool, LinkSet(topology.links))
    ensures OnlyFrom(plans, topology.routes, LinkSet(topology.links), all, pool)
    ensures topology.routes == [] ==> all == [] && pool.observed == [] && pool.connectors == []
  {
    plans, all, pool := [], [], Pool([], [], map[], byID.Keys);
    var links := LinkSet(topology.links);
    NothingYet(topology.routes, links, byID);
    hide OnlyFrom, SoundSoFar, LinkSet, ByID;
    while |plans| < |topology.routes|
      invariant |plans| <= |topology.routes|
      invariant forall o :: 0 <= o < |plans| ==> RouteGathered(topology.routes[o], byID, plans[o], o, show, all, pool, links)
      invariant SoundSoFar(byID, plans, all, pool, links)
      invariant OnlyFrom(plans, topology.routes, links, all, pool)
      invariant topology.routes == [] ==> all == [] && pool.observed == [] && pool.connectors == []
    {
      ghost var was, before := pool, all;
      var tokens;
      tokens, all, pool := GatherRoute(topology.routes[|plans|], byID, show, links, |plans|, plans, topology.routes, all, pool);
      forall p | 0 <= p < |plans| ensures RouteGathered(topology.routes[p], byID, plans[p], p, show, all, pool, links) {
        assert RouteGathered(topology.routes[p], byID, plans[p], p, show, before, was, links);
        GatheredMore(topology, byID, plans, show, p, before, all, was, pool, links);
      }
      plans := plans + [tokens];
    }
  }

  /** Without routes every node and link is shown. */
  method GatherPlain(topology: Topology, byID: map<string, Node>) returns (all: seq<Shown>, observed: seq<Link>)
    requires TopologyValid(topology) && byID == ByID(topology.nodes)
    ensures |all| == |topology.nodes| && (forall k :: 0 <= k < |all| ==> all[k] == Plain(topology.nodes[k].id))
    ensures NodesSound(all, byID) && DistinctLinks(observed) && LinkSet(observed) == LinkSet(topology.links)
    ensures InOrderOfArrival(observed, topology.links)
  {
    ByIDHas(topology.nodes);
    all, observed := [], [];
    while |all| < |topology.nodes|
      invariant |all| <= |topology.nodes| && forall k :: 0 <= k < |all| ==> all[k] == Plain(topology.nodes[k].id)
    {
      all := all + [Plain(topology.nodes[|all|].id)];
    }
    observed := DistinctFirst(topology.links);
    ArrivedLinks(observed, topology.links);
  }

  lemma NoneYet(links: seq<Link>)
    ensures InOrderOfArrival([], links[..0])
  {
  }

  method DistinctFirst(links: seq<Link>) returns (observed: seq<Link>)
    ensures InOrderOfArrival(observed, links)
  {
    hide InOrderOfArrival;
    observed := [];
    NoneYet(links);
    var i := 0;
    while i < |links|
      invariant i <= |links| && InOrderOfArrival(observed, links[..i])
    {
      OneMoreArrival(observed, links[..i], links[i]);
      assert links[..i + 1] == links[..i] + [links[i]];
      if links[i] !in observed {
        observed := observed + [links[i]];
      }
      i := i + 1;
    }
    assert links[..i] == links;
  }

  lemma ArrivedLinks(observed: seq<Link>, links: seq<Link>)
    requires InOrderOfArrival(observed, links)
    ensures DistinctLinks(observed) && LinkSet(observed) == LinkSet(links)
  {
  }

  method KeepRoutes(routes: seq<Route>, plans: seq<seq<Token>>, view: Display, pool: Pool, ghost all: seq<Shown>,
                    ghost byID: map<string, Node>, ghost links: set<Link>, ghost show: bool)
    returns (kept: seq<Route>)
    requires |plans| == |routes|
    requires forall o :: 0 <= o < |plans| ==> RouteGathered(routes[o], byID, plans[o], o, show, all, pool, links)
    requires SoundSoFar(byID, plans, all, pool, links)
    requires view.nodes <= all && (forall c :: c in view.connectors ==> c in pool.connectors)
    ensures |kept| == |routes| && RoutesKept(routes, kept, plans, byID, view, pool.spans)
  {
    kept := [];
    while |kept| < |routes|
      invariant |kept| <= |routes| && RoutesKept(routes, kept, plans, byID, view, pool.spans)
    {
      hide Cut, PoolSound, NothingInvented, KeysBefore, NodesSound, AllJoined, AllShown, FoldsTo;
      var o := |kept|;
      assert RouteGathered(routes[o], byID, plans[o], o, show, all, pool, links);
      var route := KeepRoute(routes[o], plans[o], o, view, pool, all, byID, links);
      kept := kept + [route];
    }
  }

  method CutDisplay(all: seq<Shown>, pool: Pool, routes: nat, budget: int) returns (display: Display)
    ensures Cut(display, all, pool, routes, budget)
    ensures display.nodes <= all && forall c :: c in display.connectors ==> c in pool.connectors
  {
    var retained := Front(all, Room(NODE_CAP, budget - routes));
    var room := Room(LINK_CAP, budget - routes - |retained|);
    var ids := ShownIDs(retained);
    var links := Front(LinksWithin(pool.observed, ids), room);
    var connectors := Front(ConnectorsWithin(pool.connectors, ids), room - |links|);
    forall c | c in connectors ensures c in pool.connectors {
      assert c in ConnectorsWithin(pool.connectors, ids);
    }
    display := Display(retained, links, connectors);
  }

  method PresentTopology(topology: Topology, show: bool, budget: int)
    returns (view: View, folded: seq<seq<Token>>, all: seq<Shown>, pool: Pool)
    requires TopologyValid(topology)
    ensures Presented(topology, show, budget, view, folded, all, pool)
  {
    var byID := ByID(topology.nodes);
    var plans, nodes, gathered := Gather(topology, byID, show);
    if |topology.routes| == 0 {
      var observed;
      nodes, observed := GatherPlain(topology, byID);
      PlainSound(byID, plans, nodes, observed, gathered, LinkSet(topology.links));
      gathered := gathered.(observed := observed);
    }
    folded, all, pool := plans, nodes, gathered;
    var display := CutDisplay(nodes, gathered, |topology.routes|, budget);
    var kept := KeepRoutes(topology.routes, plans, display, gathered, nodes, byID, LinkSet(topology.links), show);
    view := View(display, kept, |nodes|, |gathered.observed| + |gathered.connectors|);
  }

  lemma PlainSound(byID: map<string, Node>, folded: seq<seq<Token>>, all: seq<Shown>, observed: seq<Link>, pool: Pool, links: set<Link>)
    requires SoundSoFar(byID, folded, [], pool, links) && folded == []
    requires NodesSound(all, byID) && (forall k :: 0 <= k < |all| ==> all[k].Plain?)
    requires DistinctLinks(observed) && LinkSet(observed) == links
    ensures SoundSoFar(byID, folded, all, pool.(observed := observed), links)
  {
    assert ShownIDs(all) + byID.Keys == byID.Keys;
    assert ShownIDs([]) == {};
    forall k | 0 <= k < |observed| ensures observed[k] in links {
      assert observed[k] in LinkSet(observed);
    }
  }

  // ----- What a reader may trust -----

  /** The step to the p-th place of a displayed route: an observed link of the topology, or this route's own
      connector, which says how many unanswered hops it passes. */
  ghost predicate HonestStep(topology: Topology, show: bool, view: View, tokens: seq<Token>, o: nat, p: nat)
    requires o < |topology.routes| == |view.routes| && 0 < p < |view.routes[o].ids| && p < |tokens|
  {
    var ids, kept := topology.routes[o].ids, view.routes[o].ids;
    var a, b := tokens[p - 1], tokens[p];
    if IsSpan(a, b) then
      && Gap(ids, ByID(topology.nodes), show, a.end + 1, b.start)
      && exists c :: c in view.display.connectors && c.occurrence == o && c.from == kept[p - 1] && c.to == kept[p] && c.skipped == b.start - a.end - 1
    else
      && b.start == a.start + 1 < |ids| && kept[p - 1] == ids[a.start] && kept[p] == ids[b.start]
      && Link(kept[p - 1], kept[p]) in view.display.links && Link(kept[p - 1], kept[p]) in topology.links
  }

  lemma LinkWitnessed(topology: Topology, show: bool, budget: int, view: View, folded: seq<seq<Token>>, all: seq<Shown>, pool: Pool, l: Link)
    requires Presented(topology, show, budget, view, folded, all, pool) && l in view.display.links
    ensures l in topology.links
  {
    assert l in LinksWithin(pool.observed, ShownIDs(view.display.nodes));
    assert l in LinkSet(topology.links);
  }

  /** A span whose end is displayed has its own connector on display. */
  lemma SpanWitnessed(tokens: seq<Token>, kept: seq<string>, ids: seq<string>, o: nat, p: nat, view: Display, spans: Spans)
    requires InOrder(tokens) && 0 < p < |tokens| && tokens[p].start <= tokens[p].end < |ids| && IsSpan(tokens[p - 1], tokens[p])
    requires p < |kept| && kept[p - 1] == tokens[p - 1].id && kept[p] == tokens[p].id && Passable(tokens, ids, o, p, view, spans)
    ensures exists c :: c in view.connectors && c.occurrence == o && c.from == kept[p - 1] && c.to == kept[p]
                        && c.skipped == tokens[p].start - tokens[p - 1].end - 1
  {
    assert Before(tokens, p);
    assert Drawn(spans[(o, p)], tokens, o, p) in view.connectors;
  }

  lemma PairWitnessed(tokens: seq<Token>, kept: seq<string>, ids: seq<string>, o: nat, p: nat, view: Display, spans: Spans)
    requires InOrder(tokens) && 0 < p < |tokens| && tokens[p].start <= tokens[p].end < |ids| && !IsSpan(tokens[p - 1], tokens[p])
    requires p < |kept| && kept[p - 1] == tokens[p - 1].id && kept[p] == tokens[p].id && Passable(tokens, ids, o, p, view, spans)
    ensures Link(kept[p - 1], kept[p]) in view.links
  {
    assert Before(tokens, p);
  }

  lemma StepPlaces(topology: Topology, show: bool, budget: int, view: View, folded: seq<seq<Token>>, all: seq<Shown>, pool: Pool,
                   o: nat, p: nat)
    requires Presented(topology, show, budget, view, folded, all, pool)
    requires o < |view.routes| && 0 < p < |view.routes[o].ids|
    ensures |folded| == |topology.routes| == |view.routes| && p < |folded[o]| && InOrder(folded[o])
    ensures TokenFits(folded[o][p - 1], topology.routes[o].ids, ByID(topology.nodes))
    ensures TokenFits(folded[o][p], topology.routes[o].ids, ByID(topology.nodes))
    ensures Gap(topology.routes[o].ids, ByID(topology.nodes), show, folded[o][p - 1].end + 1, folded[o][p].start)
    ensures view.routes[o].ids[p - 1] == folded[o][p - 1].id && view.routes[o].ids[p] == folded[o][p].id
    ensures Passable(folded[o], topology.routes[o].ids, o, p, view.display, pool.spans)
  {
    var tokens, ids := folded[o], topology.routes[o].ids;
    assert RouteGathered(topology.routes[o], ByID(topology.nodes), tokens, o, show, all, pool, LinkSet(topology.links));
    hide SoundSoFar, Cut, AllJoined, AllShown, ByID, LinkSet, FoldsTo, Passable, TokenFits, Gap;
    PlacesInOrder(tokens, ids, ByID(topology.nodes), show, |ids|, p);
    PlacesInOrder(tokens, ids, ByID(topology.nodes), show, |ids|, p - 1);
  }

  /** No two places are joined without a witness. */
  lemma StepsAreHonest(topology: Topology, show: bool, budget: int, view: View, folded: seq<seq<Token>>, all: seq<Shown>, pool: Pool,
                       o: nat, p: nat)
    requires Presented(topology, show, budget, view, folded, all, pool)
    requires o < |view.routes| && 0 < p < |view.routes[o].ids|
    ensures p < |folded[o]| && HonestStep(topology, show, view, folded[o], o, p)
  {
    hide Presented, Passable, ByID, NoneKnown, Known;
    StepPlaces(topology, show, budget, view, folded, all, pool, o, p);
    var tokens, ids, kept := folded[o], topology.routes[o].ids, view.routes[o].ids;
    if IsSpan(tokens[p - 1], tokens[p]) {
      SpanWitnessed(tokens, kept, ids, o, p, view.display, pool.spans);
    } else {
      PairWitnessed(tokens, kept, ids, o, p, view.display, pool.spans);
      LinkWitnessed(topology, show, budget, view, folded, all, pool, Link(kept[p - 1], kept[p]));
    }
  }

  /** With unknown hops shown, expanding a route's places gives the route back, and each displayed group holds
      exactly the hops it stands for; a route marked complete is displayed whole. */
  lemma FoldingLosesNothing(topology: Topology, budget: int, view: View, folded: seq<seq<Token>>, all: seq<Shown>, pool: Pool, o: nat)
    requires Presented(topology, true, budget, view, folded, all, pool) && o < |view.routes|
    ensures Expansion(folded[o], topology.routes[o].ids) == topology.routes[o].ids
    ensures forall p :: 0 <= p < |view.routes[o].ids| ==>
              && p < |folded[o]| && folded[o][p].start <= folded[o][p].end < |topology.routes[o].ids|
              && ShownFor(folded[o][p], topology.routes[o].ids) in view.display.nodes
              && ShownFor(folded[o][p], topology.routes[o].ids).id == view.routes[o].ids[p]
    ensures view.routes[o].complete ==> topology.routes[o].complete && |view.routes[o].ids| == |folded[o]|
  {
    var tokens, ids := folded[o], topology.routes[o].ids;
    assert RouteGathered(topology.routes[o], ByID(topology.nodes), tokens, o, true, all, pool, LinkSet(topology.links));
    ExpandsToRoute(tokens, ids, ByID(topology.nodes), |ids|);
    assert ids[..|ids|] == ids;
    forall p | 0 <= p < |view.routes[o].ids|
      ensures p < |tokens| && TokenFits(tokens[p], ids, ByID(topology.nodes)) && ShownFor(tokens[p], ids) in view.display.nodes
    {
      assert Passable(tokens, ids, o, p, view.display, pool.spans);
    }
  }
}
