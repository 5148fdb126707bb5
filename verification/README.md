# Verified model of the network diagnostics service

A Dafny model of the algorithms and protocols of a network diagnostics service: a Go API that traces
routes and reports on them, and the browser client that reads, checks and draws those reports. Run
`dafny verify dfyconfig.toml` to check everything.

Code that loops over mutable state in the original is a method or a class here, proved against a
specification function or a declarative property; theorems about whole runs are lemmas about the
specifications. Protocols (the IP context controller, the render coordinators, the request handlers) are
step systems: one synchronous turn is one step, steps of different actors interleave freely, and clocks,
network results, owner checks and exceptions are inputs of the step.

## Files

- `Text`: UTF-16 text, UTF-8 bytes, decimal numerals and the string form of Go's `encoding/json`, with the
  browser's byte counter.
- `Sets`: the size of a subset.
- `CompactSelection`: the round-robin choice of route edges under node and link budgets, as a run of turns
  and as the mutable selector.
- `CompactFairness`: whole selections are fair to attempts and results, and can be retold from their accepted edges.
- `CompactTopology`, `CompactProducer`: merging, aggregation, numbering, counting and assembly of a compact
  topology. `CompactBuilder`: the same as the server's loops. `CompactConsumer`: the browser's checks.
  `CompactContract`: whatever the server assembles, the browser accepts. `CompactReading`: what every node, link,
  route, total and reason of it says about the report.
- `ResponseFitting`, `GeoSidecar`: the searches that fit a response and its Geo sidecar under byte limits, and
  the exact lengths that make the searches exact.
- `ClosedTransport`, `ClosedMarshal`: the budgeted validator of a value graph with identities and the encoder
  without checks of its own, on values and as the validator, encoder and capped buffer objects.
- `ClosedJson`: the encoder's bytes, read as JSON, are the value's tree. `ClosedBudget`: exactly which graphs the validator
  accepts, and what it charges.
- `WireTexts`: the texts that are measured byte by byte read back as JSON, and Go's strings are the shortest safe ones.
- `ErrorWire`: the error wire format: grammar, strict parser and marshaller.
- `Addresses`, `CommonPrefix`: address text, canonical form, and the common prefix of a list of addresses.
  `AddressTexts`: a grammar of the accepted texts, and the recommended form that is printed.
- `Decimals`: the exact decimal readers.
- `RateLimiter`: the per-client limiter over whole runs.
- `IPContext`: the controller of one context query with its cache, timer and network operation. `ControllerDecisions`:
  what each of its turns shows, keeps and answers, as tables of causes.
- `Arrivals`: lists without repetition in the order of first arrival.
- `Presentation`, `DomPlan`, `DomOrder`: folding unknown hops, budgeted retention and cutting of routes; choosing, mounting
  and chunking page elements.
- `RenderCoordinator`: several coordinators that share roots, with late callbacks and failures. `RenderDecisions`: what
  each turn draws, announces and schedules, as a table of causes.
- `Telemetry`, `ReportHandlers`: telemetry records and their validator, the error registry, the response writer,
  and all request handlers interleaved over four semaphores. `HandlerDecisions`: every answer of a whole run has its
  own cause, in the order of the checks.

## Model

| member | source | states |
|---|---|---|
| `CompactSelection.RollbackIsSimulation` | backend/diagnostic/compact_topology.go:298-384 | A run with a smaller transaction limit accepts exactly the first transactions of the run with a larger or absent limit, from any common state: same trace up to the limit, fewer accepted edges per route, selected keys a prefix, links a subset. |
| `CompactSelection.RebuildIsPrefix` | backend/diagnostic/compact_topology.go:266-384 | The same for whole selections, from the seed on: rebuilding a report under a smaller limit shows the same selection cut short. |
| `CompactSelection.SelectedSound` | backend/diagnostic/compact_topology.go:298-384 | Every selection keeps both budgets, accepts route fronts only, and its nodes and links are exactly the ends and edges of accepted edges plus the local seed; the limit flags say which budget stopped a route. |
| `CompactSelection.SelectedSettles` | backend/diagnostic/compact_topology.go:323-384 | The selection stops only at its transaction bound or with every route finished or blocked; pending edges and unblocked routes bound the loop. |
| `CompactSelection.TurnSimulates` | backend/diagnostic/compact_topology.go:323-384 | One turn under two limits takes the same edge while the smaller limit still allows one. |
| `CompactFairness.SelectionIsFair` | backend/diagnostic/compact_topology.go:323-384 | In every selection, attempts of one result take turns: while a route can go on, no later route of its result has tried more edges and no earlier one more than one more; and results take turns in the same way; the attempts of a result are tried in report order. |
| `CompactFairness.SelectionIsRetold` | backend/diagnostic/compact_topology.go:298-384 | Every selection can be retold from its trace alone: the order of the nodes is the first arrival of the seed and the ends of the accepted edges, the links are those edges, a route is blocked exactly when its next edge did not fit when it was tried, and each limit flag is set exactly when such an edge broke that budget, the node budget looked at first. |
| `CompactFairness.SeedIsLocal` | backend/diagnostic/compact_topology.go:308-313 | One local node is selected before any edge, that of the first route that starts with one; without such a route nothing is. |
| `CompactSelection.Selector.constructor` | backend/diagnostic/compact_topology.go:298-321 | The selector starts with the shared local node selected and one cursor for each result. |
| `CompactSelection.Selector.Accept` | backend/diagnostic/compact_topology.go:340-384 | One transaction on the mutable selector is one attempt of the specified run: all of the edge's nodes and its link, or a block and its flag. |
| `CompactSelection.Selector.TakeTurn` | backend/diagnostic/compact_topology.go:323-384 | One result's turn scans its routes from the cursor and is the specified turn; over whole runs these turns are fair (`CompactFairness.SelectionIsFair`). |
| `CompactSelection.Selector.Select` | backend/diagnostic/compact_topology.go:323-384 | The nested loops end and leave the specified selection. |
| `CompactTopology.MergeNodes` | backend/diagnostic/compact_topology.go:561-605 | Adjacent raw hops of one key become one observation that carries all of them in order; no two neighbours keep the same key. |
| `CompactTopology.ResultsPartition` | backend/diagnostic/compact_topology.go:389-413 | Per-result sums over the displayed routes add up to the sum over all displayed routes. |
| `CompactReading.NodeLaw` | backend/diagnostic/compact_topology.go:411-438 | A key has an aggregate exactly when it was seen; its status is attained by a hop and no hop is worse, its hop range is the attained extremes, its observations are the number of hops, it is public exactly when some hop is, and its Geo is the first present. |
| `CompactReading.LinkLaw` | backend/diagnostic/compact_topology.go:439-453 | An edge has an aggregate exactly when it occurred; its status is attained and worst, and its observations are the number of occurrences. |
| `CompactReading.TopologyIsTold` | backend/diagnostic/compact_topology.go:386-559 | Of every assembled topology: nodes are the selected keys that a shown hop carries, numbered in selection order, with the worst status, extremes, count, publicity and first Geo of exactly those hops; links are the accepted edges once each with the worst status and count of their occurrences; routes are the fronts that their accepted edges reach; every total counts the report itself; and each reason is given exactly when its limit was met. |
| `CompactContract.ProducerMeetsConsumer` | frontend/state.js:1178-1419 | For every report within the declared bounds and every transaction limit, with or without Geo, the assembled topology passes all of the browser's checks. |
| `CompactContract.NodesMeetContract` | frontend/state.js:1198-1275 | At most 500 nodes, with unique consecutive identifiers, ordered hop ranges and bounded observation counts. |
| `CompactContract.LinksMeetContract` | backend/diagnostic/compact_topology.go:495-505 | At most 1000 directed links, each once, between listed nodes. |
| `CompactContract.RoutesMeetContract` | backend/diagnostic/compact_topology.go:507-518 | Every listed route is a front of its report route by key, with a listed link for each step, and complete exactly when it is whole. |
| `CompactContract.ResultMeetsContract` | backend/diagnostic/compact_topology.go:389-413 | A result's totals, displayed and omitted counts agree with a recount of the listed routes. |
| `CompactContract.SumsMeetContract` | backend/diagnostic/compact_topology.go:520-541 | Per-result counts add up to the global ones. |
| `CompactContract.StatsMeetContract` | backend/diagnostic/compact_topology.go:520-541 | Every total is its displayed plus its omitted count, and the displayed counts are what is listed. |
| `CompactContract.LinkObservationsMeet` | backend/diagnostic/compact_topology.go:439-453 | The listed links' observations add up to the displayed link observations. |
| `CompactContract.GeoMeetsContract` | backend/diagnostic/compact_topology.go:455-493 | Eligible is available plus unavailable, available is included plus omitted, and included counts the nodes that carry a bundle. |
| `CompactContract.ReasonsMeetContract` | backend/diagnostic/compact_topology.go:542-557 | The truncation reasons are in canonical order, without repetition, and present exactly when something was limited. |
| `CompactBuilder.AggregateNodes` | backend/diagnostic/compact_topology.go:386-438 | The node map holds for each key the aggregate of all its shown raw hops, and nothing else; what that aggregate says is `CompactReading.NodeLaw`. |
| `CompactBuilder.AggregateLinks` | backend/diagnostic/compact_topology.go:439-453 | The link map holds for each edge the aggregate of its accepted occurrences, self-edges left out; what that aggregate says is `CompactReading.LinkLaw`. |
| `CompactBuilder.NumberNodes` | backend/diagnostic/compact_topology.go:455-493 | Numbering in selection order keeps exactly the observed keys, gives each its place as identifier, and counts Geo as specified. |
| `CompactBuilder.ListLinks` | backend/diagnostic/compact_topology.go:495-505 | The double loop over the selection order lists every aggregated link once, by the new identifiers. |
| `CompactBuilder.ListRoutes` | backend/diagnostic/compact_topology.go:507-518 | Each displayed route is listed by the identifiers of its accepted front. |
| `CompactBuilder.AccountRoutes` | backend/diagnostic/compact_topology.go:389-413 | Each result's counters are the specified sums over its own routes. |
| `CompactBuilder.CountAll` | backend/diagnostic/compact_topology.go:266-297 | The full node and link sets are all keys and all distinct non-self edges of the report. |
| `CompactBuilder.BuildCompactTopology` | backend/diagnostic/compact_topology.go:266-559 | The whole build returns the specified topology of the specified selection, which the browser accepts within the declared bounds. |
| `ResponseFitting.WithoutLastGeoBundles` | backend/api/server.go:803-817 | Exactly the last bundles in node order go, and the Geo counts move with them. |
| `ResponseFitting.StripBalance` | backend/api/server.go:803-817 | Removal takes exactly k bundles, keeps the Geo balance, and removing twice is removing the sum. |
| `ResponseFitting.LastBundlesGo` | backend/api/server.go:803-817 | There is a place before which every node is as it was and from which on every node has lost its bundle, k in all; the Geo counts move by k and nothing else changes. |
| `ResponseFitting.MarkedReasons` | backend/api/server.go:819-839 | Marking loses no reason, adds exactly those asked for, and puts them in their fixed order, each once. |
| `ResponseFitting.RemovalShrinks` | backend/api/server.go:746-765 | Every further removed bundle makes the encoded response strictly shorter although the counts change their decimal width. |
| `ResponseFitting.FitCompactResponse` | backend/api/server.go:712-791 | For any encoder: a returned payload is the winner's encoding plus a newline, under the limit; transactions are cut only after the topology without Geo was probed and did not fit; each search stops beside a candidate that does not fit. |
| `ResponseFitting.GeoPhaseExact` | backend/api/server.go:746-765 | The Geo search removes the fewest bundles that make the response fit. |
| `ResponseFitting.CutPhaseExact` | backend/api/server.go:767-790 | The transaction search keeps the most transactions that fit, when fitting is monotone in the limit. |
| `ResponseFitting.CompactGeoBundleBytes` | frontend/state.js:1145-1176 | The browser's bundle counter is the byte length of the bundle's canonical Go text. |
| `WireTexts.BundleReadsBack` | frontend/state.js:1145-1176 | A node's own members followed by the counted bundle text read back as JSON with the bundle's members after its own: Geo strings that are not empty, coordinates, and the ASN number unless zero. |
| `ResponseFitting.FitGeoDetails` | backend/api/geo_details.go:36-61 | The search returns the payload of a fitting prefix beside one that does not fit, or the legacy payload when even no entries do not fit. |
| `ResponseFitting.SidecarPrefixExact` | backend/api/geo_details.go:36-61 | The kept prefix is the greatest that fits: exactly the prefixes up to it do. |
| `GeoSidecar.EntryGrows` | backend/api/geo_details.go:36-61 | One more entry makes the sidecar strictly longer although `omitted` may lose a digit. |
| `GeoSidecar.MoreEntriesLonger` | backend/api/geo_details.go:36-61 | Longer prefixes have strictly longer encodings. |
| `GeoSidecar.CountSidecar` | frontend/state.js:1690-1741 | The running total is the canonical encoding length of the entries so far, so the sidecar is accepted exactly when its strings are sound and its encoding is within the budget. |
| `WireTexts.SidecarReadsBack` | backend/api/report_payload.go:84-97 | Read as JSON, the sidecar text whose length is counted is the version, the two counts and every entry with its members in order, and nothing more. |
| `Text.GoJSONStringBytes` | frontend/state.js:1117-1139 | The byte counter rejects exactly ill-formed UTF-16 and over-long text, and otherwise returns the length of Go's quoted UTF-8 form. |
| `WireTexts.GoBodyIsShortest` | frontend/state.js:1117-1139 | Of all spellings of a text that keep <, >, & and the line separators out, the one whose bytes are counted is the shortest, and it keeps them out. |
| `Text.Utf8ScalarReads` | frontend/state.js:1117-1139 | The bytes of a scalar value read back as the value, the first byte telling how many there are. |
| `Text.DecimalWidthMonotone` | backend/api/server.go:746-765 | Decimal width grows with the number, by at most one digit for each step. |
| `ClosedTransport.NoIllFoundedEncoding` | backend/api/report_payload.go:60-80 | Any accepted graph is encoded without an unsupported value, entering no more values than the validator charged; only a leaf can still fail. |
| `ClosedTransport.AcceptedIsGood` | backend/api/report_payload.go:115-268 | What the validator accepts has only supported kinds down to the depth limit, and at least as much budget was charged as the graph weighs. |
| `ClosedTransport.GoodIsEncoded` | backend/api/report_payload.go:436-554 | Such a graph is encoded to the end with as many visits as it weighs. |
| `ClosedTransport.AcceptedIsShallow` | backend/api/report_payload.go:115-130 | An accepted graph has no chain of references longer than the depth limit, so none that runs round a cycle. |
| `ClosedBudget.AcceptedExactly` | backend/api/report_payload.go:115-315 | The validator accepts exactly the graphs that have only supported kinds, walk through no reference twice on a path and keep every budget, and charges exactly what they use; a rejection names a flaw the graph has or a budget it passes. |
| `ClosedTransport.SortedParts` | backend/api/report_payload.go:502-527 | Writing a map's entries in sorted order visits the same parts as the validator did. |
| `ClosedJson.EncodingReadsBack` | backend/api/report_payload.go:436-587 | Read by an independent JSON reader, a finished encoding is the value's tree and nothing is left over: visited fields under their names in order, map entries in ascending byte order of their keys, every element, `null` for nil. |
| `ClosedJson.SortedIsAscending` | backend/api/report_payload.go:502-527 | Sorting keeps every entry of a map and puts the keys in ascending byte order. |
| `ClosedMarshal.FullResponseValidator.Validate` | backend/api/report_payload.go:115-315 | The recursive walk over counters and the active set ends on every graph, cyclic or not, and gives the specified verdict and budget, with the active set restored. |
| `ClosedMarshal.FullResponseValidator.AddContainer` | backend/api/report_payload.go:278-288 | The container counter moves as specified and overflows into its own error. |
| `ClosedMarshal.LimitedJSONBuffer.Write` | backend/api/report_payload.go:589-640 | A write is all or nothing, and the buffer never holds more than its cap. |
| `ClosedMarshal.FullResponseEncoder.Encode` | backend/api/report_payload.go:436-554 | The encoder's writes are the specified output cut off at the cap; what that output reads back as is `ClosedJson.EncodingReadsBack`. |
| `ClosedMarshal.FullResponseEncoder.EncodeByteSlice` | backend/api/report_payload.go:564-587 | A byte slice is written group by group as one quoted text. |
| `ClosedMarshal.MarshalClosedResponse` | backend/api/report_payload.go:60-80 | A report is accepted exactly when its graph is good, clear and within the budgets, and a rejection names a cause; an accepted one is written in full within the cap and reads back as the report's JSON tree, or is refused for its size or for a leaf. |
| `ErrorWire.ParsesExactlyErrorTexts` | frontend/state.js:439-573 | The parser accepts exactly the texts of the grammar: one `error` object with `code` and `message` in either order, padding anywhere between lexemes, any escapes, within the unit limits (sections 2, 4 and 7 of RFC 8259). |
| `ErrorWire.ErrorRoundTrip` | backend/api/error_contract.go:260-267 | Parsing the marshalled form of any in-bound error gives it back. |
| `ErrorWire.CharsAtComplete` | frontend/state.js:472-517 | Every spelling of a string is read back, exactly when it is within the unit limit. |
| `ErrorWire.Parser.ReadString` | frontend/state.js:472-517 | The loop over escapes and surrogate pairs reads exactly the string that stands at the cursor. |
| `ErrorWire.Parser.ReadErrorObject` | frontend/state.js:544-561 | The member loop fails only for texts that are no error texts, and otherwise has read both members. |
| `ErrorWire.Parser.Parse` | frontend/state.js:439-573 | The whole parser accepts exactly the error texts, always with ten tokens and three properties; its counters never refuse a grammatical text. |
| `Addresses.V4Spelling` | frontend/common-prefix.js:14-25 | Every IPv4 address has exactly one accepted text. |
| `AddressTexts.ByteTextIsDecimal` | frontend/common-prefix.js:86-91 | Every byte of an IPv4 address is written as its decimal numeral. |
| `Addresses.WordsRoundTrip` | frontend/common-prefix.js:28-76 | Parsing undoes printing for every eight 16-bit words. |
| `AddressTexts.ParsesExactlyAddressTexts` | frontend/common-prefix.js:28-76 | The parser accepts exactly the texts of the grammar (section 2.2 of RFC 4291): one to four hexadecimal digits between single colons, at most one double colon that stands for at least one word of zeros, four bytes in decimal only at the end; and reads the words it denotes. |
| `Addresses.BestRunIsLeftmostLongest` | frontend/common-prefix.js:95-101 | The compressed run is the leftmost longest run of at least two zero words (section 4.2 of RFC 5952). |
| `AddressTexts.PrintsRecommendedForm` | frontend/common-prefix.js:93-106 | The printer writes every word in lower case without leading zeros, and its double colon stands for the leftmost longest run of at least two zero words, or there is none because there is no such run (section 4 of RFC 5952). |
| `Addresses.AddressRoundTrip` | frontend/common-prefix.js:79-107 | Parsing undoes printing for every 32-bit value and every 128-bit value outside ::ffff:0:0/96. |
| `Addresses.CanonicalIsFormatOfParse` | frontend/topology-model.js:94-174 | For all zone-free text the canonical address is the printed form of the parsed value. |
| `Addresses.CanonicalIdempotent` | frontend/topology-model.js:172-174 | Canonical text is canonical, zone included. |
| `Addresses.IPv4Bits` | frontend/common-prefix.js:14-25 | The loop gives the number of the four accepted bytes, or nothing. |
| `Addresses.ParseHalf` | frontend/common-prefix.js:38-57 | The loop over one half gives its words, with a dotted tail only at the end and only where it is allowed. |
| `Addresses.FindRun` | frontend/common-prefix.js:95-101 | The scan finds the run that is to be compressed. |
| `Addresses.PrintAddress` | frontend/common-prefix.js:86-107 | What the printer writes, the parser reads back. |
| `CommonPrefix.ExtremesGivePrefix` | frontend/common-prefix.js:110-130 | The XOR of minimum and maximum gives the longest prefix that all members share. |
| `CommonPrefix.ExtremesGiveBlock` | frontend/common-prefix.js:126-130 | The range is an aligned block and lies in every aligned power-of-two block that holds all members. |
| `CommonPrefix.MaskEnds` | frontend/common-prefix.js:126-130 | Clearing and setting the free bits of any member give the two ends of its block. |
| `CommonPrefix.ComputeGroup` | frontend/common-prefix.js:110-141 | The loops for the extremes and the bit length return the longest shared prefix and its smallest block, for any member list and width. |
| `CommonPrefix.Compare` | frontend/common-prefix.js:144-183 | Each of the first 64 texts is a blank, a skipped text or a member of its own family's group, and each group is reported with its prefix and block. |
| `Decimals.ContextNumberExact` | frontend/state.js:12-32 | For every token of up to 16384 characters the reader returns n exactly when the token's value is the integer n, at most 4294967295. |
| `Decimals.ExactGeoCountExact` | frontend/state.js:858-868 | The check holds exactly for tokens whose value is an integer in 0..maximum, whatever the doubles do to a huge exponent. |
| `RateLimiter.AdmittedBound` | backend/api/server.go:592-614 | With a clock that never goes back, a half-open interval of k minutes admits fewer than (k + 1) times the limit from one client. |
| `RateLimiter.BoundIsMet` | backend/api/server.go:592-614 | The bound is reached: with two requests a minute, three get through in one minute. |
| `RateLimiter.TableBounded` | backend/api/server.go:592-614 | The client table stays within its bound and every refusal names a wait in (0, 60 s]. |
| `RateLimiter.WindowsCountAdmitted` | backend/api/server.go:592-614 | Over every run with a clock that never goes back, a client's window is younger than a minute and counts exactly the client's requests let through since it began. |
| `RateLimiter.RefusedExactly` | backend/api/server.go:592-614 | A request is refused exactly when its client already had its limit in its current window or, without one, when as many other clients as there is room for had one; the refusal names when that window ends. |
| `RateLimiter.OthersKeepTheirWindows` | backend/api/server.go:592-614 | A refused request leaves its client's window as it was, and no request changes another client's window: young ones stay, the others are dropped. |
| `RateLimiter.WaitIsEnough` | backend/api/server.go:608-610 | A client refused for its own window is let through once it has waited, if nobody came in between. |
| `RateLimiter.Limiter.AllowClient` | backend/api/server.go:592-614 | The purge loop and the decision are one step of the specified limiter. |
| `IPContext.ControllerSafe` | frontend/state.js:195-318 | Over every interleaving: at most one operation is charged, even after cancel; the cache holds at most 64 values, one for each address and all of the owner's scope; each query settles exactly once or is still under way; `true` comes only with a value on show; a value is accepted only for the current generation and owner, before its deadline, and never from an operation that was revoked. |
| `ControllerDecisions.EveryTurnIsTold` | frontend/state.js:195-318 | Over every run, each turn shows what the first of its causes says (every status, timeout, failure and value its own), looks values up and stores them in order of use, moves generation and owner only where it should, and charges, aborts, answers and releases operations as the tables of causes say. |
| `ControllerDecisions.ShownFromTheCacheIsFresh` | frontend/state.js:218-246 | Over every run, a turn that comes to show a value from the cache shows one for the owner's address, fetched under the owner's scope and not expired, and keeps it. |
| `IPContext.TurnKeeps` | frontend/state.js:195-318 | Every turn, whatever it is told by clocks, network and owner check, keeps that invariant. |
| `IPContext.RevokeKeeps` | frontend/state.js:211-216 | Revoking takes the authority and the answer of the operation under way, which stays charged. |
| `IPContext.FinishKeeps` | frontend/state.js:306-314 | An operation ends settled, and stays charged while its body is cleaned up. |
| `IPContext.AcceptKeeps` | frontend/state.js:294-302 | Caching and publishing a fetched value under a live check keeps the invariant. |
| `IPContext.Controller.SetOwner` | frontend/state.js:226-233 | The method is the specified turn and keeps the invariant. |
| `IPContext.Controller.Query` | frontend/state.js:236-262 | The method is the specified turn and keeps the invariant. |
| `IPContext.Controller.OnFetch` | frontend/state.js:263-286 | The turn after the fetch settles is the specified one. |
| `IPContext.Controller.OnRead` | frontend/state.js:286-316 | The turn after a read settles is the specified one. |
| `IPContext.Controller.Store` | frontend/state.js:298-301 | A value that has expired is not stored, and the oldest values go first beyond the limit. |
| `Presentation.FoldingLosesNothing` | frontend/topology-presentation.js:110-170 | With unknown hops shown, expanding a route's places gives the route back, each displayed group holds exactly the hops it stands for, and a route marked complete is displayed whole. |
| `Presentation.ExpandsToKnown` | frontend/topology-presentation.js:110-126 | With unknown hops hidden the places are exactly the known nodes, in order. |
| `Presentation.StepsAreHonest` | frontend/topology-presentation.js:127-170 | Neighbouring places of a displayed route are joined by a displayed link of the topology or by that route's own displayed connector, which counts the hops it passes. |
| `Presentation.FindUnique` | frontend/topology-presentation.js:109 | Generating an identifier ends with one that is not in use and begins with its base. |
| `Presentation.FoldRoute` | frontend/topology-presentation.js:110-126 | Each maximal run of unknown hops becomes one fresh group or is left out; known nodes stay in place. |
| `Presentation.JoinRoute` | frontend/topology-presentation.js:127-139 | Every pair of places gets its own connector or, when it is an observed adjacency, its link; identifiers are fresh and nothing else is drawn. |
| `Presentation.KeepRoute` | frontend/topology-presentation.js:157-170 | A displayed route is the longest front whose nodes and ways are displayed. |
| `Presentation.PresentTopology` | frontend/topology-presentation.js:103-177 | The whole presentation: when there are routes, all gathered nodes are the displayed forms of their places in order of first arrival, observed links the neighbouring places that are no spans in order, and connectors one for each span in order; without routes, the topology's own nodes and links; all of it cut to the node, link and element budgets. |
| `DomPlan.PlanTopologyDOM` | frontend/topology-model.js:498-760 | A renderable plan keeps existing, reserved and mounted elements within 1200, and its budget is what the options and the document leave; when the document has room, each view mounts exactly its own items (in the topology view everything the presentation left), otherwise nothing; the chunks are the mounted items in order, each within its limit and none with room to spare; what is shown is the presentation of a selection from the model within that budget. |
| `DomPlan.PlanSelection` | frontend/topology-model.js:531-683 | The selection takes the first nodes of each identifier in order up to the cap, the links between them in order up to the cap, and usable routes at most once each in fair order, cut in step to fronts whose steps are chosen; nothing is chosen beside those fronts, and a route is left out only when at most one more element fits; `complete` only on whole routes; its presentation stays within the budget in the topology view. |
| `DomPlan.PickedFrom` | frontend/topology-model.js:591-605 | Routes that were started in order are no more than there were, none twice. |
| `DomPlan.PresentationFits` | frontend/topology-presentation.js:146-156 | The presentation of what was chosen within a budget stays within that budget. |
| `DomPlan.RoundsKeepAll` | frontend/topology-model.js:479-496 | The fair order keeps every route exactly once. |
| `DomOrder.FairOrderIsTold` | frontend/topology-model.js:478-497 | Routes are sorted by result and attempt with ties as they were, grouped by result, and taken in rounds: the k-th route of every group that has one, in group order, before any (k+1)-th, each route once. |
| `DomPlan.FairRouteOrder` | frontend/topology-model.js:479-496 | The rounds over the groups are the specified order and a permutation of the routes. |
| `DomPlan.DomSelection.ChooseRoutes` | frontend/topology-model.js:591-637 | The running cost is the number of chosen elements, within the budget; the started routes come in the given order, none twice; every chosen route is a front whose nodes and steps are chosen; a route stops only at its end, at a missing link or for want of room, and the last is fair: fronts at most one place longer than its own already leave room for at most one more element. |
| `DomPlan.DomSelection.ChoosePlain` | frontend/topology-model.js:639-649 | Without routes the first nodes that fit are chosen, and then links between them. |
| `DomPlan.MountEach` | frontend/topology-model.js:685-693 | Items that fit together are all mounted, and the budget is never passed. |
| `DomPlan.MountTopology` | frontend/topology-model.js:694-700 | Canvas, inspector and every presented node, link, connector and route are mounted, so the second budget check never fires. |
| `DomPlan.BlockFair` | frontend/topology-model.js:612-635 | Blocking a route in its round keeps the cut fair for every route blocked so far. |
| `DomPlan.MountLabels` | frontend/topology-model.js:720-725 | The shell and as many of a page's first rows as fit, or nothing. |
| `DomPlan.MountGeo` | frontend/topology-model.js:701-719 | The legend, with each target once, is mounted whole or the map is not; then the list with as many of its first places as fit. |
| `DomPlan.SplitChunks` | frontend/topology-model.js:727-739 | The chunks concatenate to the items, each within the limit and none with room for the next item. |
| `RenderCoordinator.CoordinatorsSafe` | frontend/topology-renderer.js:455-657 | Over every interleaving, with any number of coordinators on shared roots and late callbacks: only a root's owner changes it; a session says nothing after its end but, once, that it ended; `ready` from a finished session means all planned elements are committed; each session's chunks are committed in order, each once; a root holds its owner's chunks and nothing else. |
| `RenderDecisions.TurnIsTold` | frontend/topology-renderer.js:466-657 | Every turn of every world is the one its table tells: at each look the session may act only for the current generation, unaborted, owning its root and its request; a chunk is appended, organized, counted and followed by its drawing frame, the next chunk or the end; a start, a cancel or a failure empties, releases, announces and schedules exactly what its row says; nothing else changes. |
| `RenderCoordinator.TurnKeeps` | frontend/topology-renderer.js:469-657 | Start, cancel and callback turns keep that invariant, whatever throws. |
| `RenderCoordinator.FailKeeps` | frontend/topology-renderer.js:912-926 | A failure empties the owner's root and is the session's last word. |
| `RenderCoordinator.CancelKeeps` | frontend/topology-renderer.js:538-562 | A cancel releases only what the session still owns and announces at most once. |
| `RenderCoordinator.ChunkKeeps` | frontend/topology-renderer.js:608-635 | A chunk callback appends the next chunk once and goes on from there. |
| `RenderCoordinator.Page.StartSession` | frontend/topology-renderer.js:469-536 | The method is the specified turn and keeps the invariant. |
| `RenderCoordinator.Page.CancelSession` | frontend/topology-renderer.js:538-562 | The method is the specified cancel. |
| `RenderCoordinator.Page.RunCallback` | frontend/topology-renderer.js:608-648 | The method is the specified turn and keeps the invariant. |
| `RenderCoordinator.Page.FailSession` | frontend/topology-renderer.js:912-926 | The method is the specified failure. |
| `Telemetry.ValidateTelemetryRecord` | backend/api/telemetry.go:198-255 | The checks refuse exactly the invalid records; what is passed on is still valid, each measure over its limit is at its limit, and nothing else has changed. |
| `Telemetry.IdentifiersValid` | backend/api/telemetry.go:114-145 | Whatever bytes the random source or the fallback gave, the identifiers pass the validator. |
| `Telemetry.ErrorsCanBeTold` | backend/api/error_contract.go:38-55 | Every answer of the registry, sent or not, has a status and an outcome that the terminal record of every route may carry. |
| `Telemetry.ResponseWriter.WritePayload` | backend/api/response_writer.go:221-239 | No panic leaves it; at most what was attempted counts as sent, and less than that is an error. |
| `Telemetry.ResponseWriter.WriteJSONPayload` | backend/api/response_writer.go:197-218 | Status, outcome and byte counts are recorded as specified, with a failed write told apart by whether anything was sent. |
| `Telemetry.ResponseWriter.WriteAPIError` | backend/api/response_writer.go:159-169 | An error answer is recorded even when setting its headers panics. |
| `ReportHandlers.HandlersSafe` | backend/api/server.go:453-575 | Over every interleaving of any requests, with panics and cancellations: each semaphore holds one token for each handler that holds one; a handler that has exited holds none; no report is written while its admission is held; every record is valid; an exited handler has told one terminal record and, for a report, exactly one of reject, finish and cancel. |
| `ReportHandlers.TokensReturn` | backend/api/server.go:316-407 | When every handler has exited, every semaphore is empty. |
| `HandlerDecisions.EveryAnswerHasItsCause` | backend/api/server.go:273-572 | Over every interleaving of any requests: while no cause applied, a request went on point by point, unanswered; the first cause that applied, in the order of the checks, gave the answer: its own status and outcome, and the events told of it (401, 429, 405, 404, 503, 413, 400, 422, 499, 500, 200, 204); and a panic was answered with 500. |
| `HandlerDecisions.ServedThroughTheGate` | backend/api/server.go:490-544 | Over every run, a request is past the gate, or has been answered 200 or 204, only if its gate step was not public or was authorized and within its rate, on a known route, and not draining unless it only asks for options. |
| `HandlerDecisions.RefusalsTellTheGate` | backend/api/server.go:490-544 | Over every run, an ended request was answered 401, 429, 405, 404 or 204 exactly when its last step was at the gate and that was the first cause there. |
| `ReportHandlers.AdvanceBalanced` | backend/api/server.go:273-407 | A step changes each semaphore by exactly what it changes in the handler's own hold, and never above capacity. |
| `ReportHandlers.ReportKeeps` | backend/api/server.go:316-407 | Every step of the report path leaves the report unended with valid records, or ended once and with a tellable outcome. |
| `ReportHandlers.ContextKeeps` | backend/api/ip_context.go:10-100 | The same for every step of the context path. |
| `ReportHandlers.ContainKeeps` | backend/api/server.go:558-572 | A contained panic always leaves a finished handler. |
| `ReportHandlers.GateKeeps` | backend/api/server.go:490-544 | Whatever the gate decides leaves a handler whose records are valid and whose report is ended at most once; which way it decides is `HandlerDecisions.RefusalsTellTheGate`. |
| `ReportHandlers.ArrivalsAreOK` | backend/api/server.go:422-451 | Every method and path is classified to a route whose records may carry that method, with valid identifiers. |

## Left out

- ResponseFitting.CutPhaseExact: exact only when fitting is monotone in the transaction limit, because averages and statuses may print shorter in a larger topology.
- ResponseFitting.GeoPhaseExact: stated for encoders whose length is the canonical one; floating point numbers enter as printed text.
- Addresses.AddressRoundTrip: not for 128-bit values in ::ffff:0:0/96, which the parser reads as IPv4 on purpose.
- Decimals.ExactGeoCountExact: takes the browser's double arithmetic on exponents beyond 2^52 as an input that rounds without changing side.
- WireTexts.SidecarReadsBack: member names are plain text, as the fixed names of the entries are; coordinates are bare words.
- HandlerDecisions.EveryAnswerHasItsCause: durations and the semaphore counts inside a record are bounded, not derived.
- RenderCoordinator.CoordinatorsSafe: takes for granted that the scheduler runs a callback at most once.
- IPContext.ControllerSafe: takes for granted that callbacks to the page do not call back into the controller.
- Greedy selection is not maximal: a blocked route is never taken up again after its nodes become selected, so no maximality is stated.
- Latency averages and other floating point values of nodes are left out; a printed number is opaque text.
- Node identifiers are numbers here; the code prints them with six digits.
- CompactReading.TopologyIsTold: the statuses of a route's own steps are given with the route; looking them up among the raw links is left out.
- Node keys are given: canonicalisation of raw hops into keys is not modelled beyond their equality.
- The attempts inventory, dates and per-field text checks of the browser's validator are left out as single-field checks.
- Base64 groups of a byte slice and leaf values are given tokens; reflection details are a finite set of kinds.
- Parsing of JSON numbers into captured groups by a pattern is taken as given in the decimal readers.
- Trimming of the input text before an address is parsed is left out; texts are trimmed already.
- The plan's statistics, truncation reasons, map segments and arrows, and the sorting of label records are left out of the page plan.
- The order in which the browser sorts displayed nodes, hop ranges of folded groups and ASN annotations are left out.
- Selecting nodes, view transforms and redrawing an existing canvas are left out of the render coordinator.
- `adaptLegacyTopology` is a second greedy selector like the server's and is left out.
- `transitionRequest` and the request lanes: their facts follow from single branches.
- Drawing, pointer and keyboard handling, map geometry and style are user interface.
- DNS, network policy, the traceroute runner and the cached IP context service are network code; their results are inputs.
- CORS and security headers, deadlines and log delivery do not touch the properties proved.
