/** What the server decides about a request, over whole runs (backend/api/server.go:273-407, 453-572; backend/api/ip_context.go:10-100):
    every answer has its own cause, the causes are looked at in order, and a request is served only when none applied. */
module HandlerDecisions {
  import opened Text
  import opened Telemetry
  import opened ReportHandlers

  // ----- The causes, in the order in which they are looked at -----

  /** A step a handler took on its way, and the tokens it found. */
  datatype Visit = Visit(point: Point, input: Input, tokens: Tokens, limits: Tokens)

  /** Rejects and Fails end a report with a rejection or as finished; Refuses answers any other request. */
  datatype Decision =
    | GoesOn
    | Rejects(status: nat, outcome: Outcome) | Fails(status: nat, outcome: Outcome) | Refuses(status: nat, outcome: Outcome)
    | Sends(status: nat) | Gone

  datatype Row = Row(cause: bool, decision: Decision)

  function FirstOf(rows: seq<Row>): Decision {
    if rows == [] then GoesOn else if rows[0].cause then rows[0].decision else FirstOf(rows[1..])
  }

  predicate Full(v: Visit, kind: Kind) {
    match kind
    case Admission => v.tokens.admission >= v.limits.admission
    case Decodes => v.tokens.decodes >= v.limits.decodes
    case Writes => v.tokens.writes >= v.limits.writes
    case Contexts => v.tokens.contexts >= v.limits.contexts
  }

  /** Authorization, then rate, then route and method, then draining; then what needs no further step. */
  function GateRows(v: Visit, route: Route, verb: Method): seq<Row> {
    var i, asks, report := v.input, v.input.public && verb != OptionsMethod, route == Reports;
    [Row(asks && !i.authorized && report, Rejects(401, Unauthorized)), Row(asks && !i.authorized, Refuses(401, Unauthorized)),
     Row(asks && !i.rateAllowed && report, Rejects(429, RateLimited)), Row(asks && !i.rateAllowed, Refuses(429, RateLimited)),
     Row(route == NoRoute && i.knownPath, Refuses(405, Unmatched)), Row(route == NoRoute, Refuses(404, Unmatched)),
     Row(report && i.draining, Rejects(503, ServerDraining)), Row(route != Options && i.draining, Refuses(503, ServerDraining)),
     Row((route == Health || route == Checks) && i.failed, Refuses(500, Serialization)),
     Row(route == Health || route == Checks, Sends(200)), Row(route == Options, Sends(204)),
     Row(route == IPContext && i.cancelled, Gone)]
  }

  function ReportRows(v: Visit): seq<Row> {
    var i := v.input;
    match v.point
    case ReportQuery => [Row(!i.acceptable, Rejects(422, InvalidRequest)), Row(i.tooLong, Rejects(413, RequestTooLarge))]
    case ReportDecodeTry => [Row(Full(v, Decodes), Rejects(503, BodyCapacity))]
    case ReportRefused(key) => [Row(key == KeyRequestTooLarge, Rejects(413, RequestTooLarge)), Row(key == KeyInvalidJSON, Rejects(400, InvalidJSON))]
    case ReportValidate => [Row(!i.acceptable, Rejects(422, InvalidRequest))]
    case AtAdmission => [Row(Full(v, Admission), Rejects(503, ServerCapacity))]
    case ReportRun =>
      [Row(i.failed, Fails(500, PanicSafeFailure)), Row(i.cancelled, Gone), Row(i.public && i.policy, Rejects(422, Policy))]
    case ReportMarshal =>
      [Row(i.marshalError == Some(KeyCompactTooLarge), Fails(500, CompactSize)), Row(i.marshalError == Some(KeyFullTooLarge), Fails(500, FullSize)),
       Row(i.marshalError.Some?, Fails(500, Serialization))]
    case ReportWriteTry => [Row(Full(v, Writes), Fails(503, WriteCapacity))]
    case ReportWriting => [Row(true, Sends(200))]
    case _ => []
  }

  /** A context request whose client has gone is not answered. */
  function ContextRows(v: Visit): seq<Row> {
    var i, bad := v.input, !v.input.read.ReadOK?;
    match v.point
    case ContextTry =>
      [Row((Full(v, Contexts) || i.tooLong) && i.cancelled, Gone),
       Row(Full(v, Contexts), Refuses(503, ServerCapacity)), Row(i.tooLong, Refuses(413, RequestTooLarge))]
    case ContextDecodeTry => [Row(Full(v, Decodes) && i.cancelled, Gone), Row(Full(v, Decodes), Refuses(503, BodyCapacity))]
    case ContextReading =>
      [Row(bad && i.cancelled, Gone), Row(i.read.ReadTooLarge?, Refuses(413, RequestTooLarge)), Row(bad, Refuses(400, InvalidJSON))]
    case ContextLookup =>
      [Row(i.cancelled, Gone), Row(i.refusal == Some(KeyInvalidJSON), Refuses(400, InvalidJSON)),
       Row(i.refusal == Some(KeyInvalidRequest), Refuses(422, InvalidRequest)), Row(i.refusal == Some(KeyServerBusy), Refuses(503, ServerCapacity)),
       Row(i.refusal == Some(KeyInternal), Refuses(500, PanicSafeFailure)), Row(i.refusal.Some?, Refuses(500, Serialization))]
    case ContextWriteTry => [Row(Full(v, Writes) && i.cancelled, Gone), Row(Full(v, Writes), Refuses(503, WriteCapacity))]
    case ContextWriting => [Row(true, Sends(200))]
    case _ => []
  }

  function Decide(v: Visit, route: Route, verb: Method): Decision {
    FirstOf(if v.point.Gate? then GateRows(v, route, verb) else if OnReportPath(v.point) then ReportRows(v) else ContextRows(v))
  }

  /** Where a request that goes on goes. */
  function Next(v: Visit, route: Route): Point {
    match v.point
    case Entered => Gate
    case Gate => if route == IPContext then ContextTry else ReportQuery
    case ReportQuery => ReportDecodeTry
    case ReportDecodeTry => ReportDecoding
    case ReportDecoding =>
      if v.input.read.ReadTooLarge? then ReportRefused(KeyRequestTooLarge) else if v.input.read.ReadInvalid? then ReportRefused(KeyInvalidJSON)
      else ReportValidate
    case ReportValidate => AtAdmission
    case AtAdmission => ReportRun
    case ReportRun => ReportMarshal
    case ReportMarshal => ReportWriteTry
    case ReportWriteTry => ReportWriteHeld
    case ReportWriteHeld => ReportWriting
    case ContextTry => ContextDecodeTry
    case ContextDecodeTry => ContextReading
    case ContextReading => ContextLookup
    case ContextLookup => ContextWriteTry
    case ContextWriteTry => ContextWriting
    case _ => Ending
  }

  // ----- What a handler's state says about its visits -----

  predicate UnderWay(p: Point) { p.Entered? || p.Gate? || OnReportPath(p) || OnContextPath(p) }

  /** The events that a visit tells when it goes on. */
  function EventsAt(p: Point, route: Route): seq<Event> {
    if p.Entered? && route == Reports then [ReportSubmit] else if p.AtAdmission? then [ReportAdmit, ReportStart]
    else if p.ReportRun? then [ReportComputed] else []
  }

  function EventsOf(visits: seq<Visit>, route: Route): seq<Event> {
    if visits == [] then [] else EventsOf(visits[..|visits| - 1], route) + EventsAt(visits[|visits| - 1].point, route)
  }

  function Events(records: seq<Record>): (r: seq<Event>)
    ensures |r| == |records| && forall k :: 0 <= k < |r| ==> r[k] == records[k].event
  {
    seq(|records|, k requires 0 <= k < |records| => records[k].event)
  }

  /** How a decision ends a report; a report stopped by the network policy had been computed. */
  function EndEvents(d: Decision, route: Route, point: Point): seq<Event> {
    if route != Reports then []
    else match d
      case Rejects(_, _) => (if point.ReportRun? then [ReportComputed] else []) + [ReportReject]
      case Fails(_, _) => [ReportFinish]
      case Sends(_) => [ReportFinish]
      case Gone => [ReportCancel]
      case _ => []
  }

  /** All went on, each to the next point. */
  ghost predicate Went(visits: seq<Visit>, route: Route, verb: Method) {
    && (forall k :: 0 <= k < |visits| ==> !visits[k].input.panics && Decide(visits[k], route, verb) == GoesOn)
    && (forall k :: 0 <= k < |visits| ==> visits[k].point == StandsAt(visits[..k], route))
  }

  function StandsAt(visits: seq<Visit>, route: Route): Point {
    if visits == [] then Entered else Next(visits[|visits| - 1], route)
  }

  ghost predicate Fresh(h: Handler) { h.seen == Observation(0, Unset, 0, 0) && h.writer == Writer(false, false, 0) }

  /** Every record names its request, and only a finished report carries diagnostics. */
  ghost predicate Identified(h: Handler) {
    forall k :: 0 <= k < |h.records| ==>
      var r := h.records[k];
      && r.requestID == h.requestID && r.reportID == h.reportID && r.verb == h.verb && r.route == h.route
      && (r.diagnostics.Some? ==> r.event == ReportFinish && r.outcome == OK)
  }

  /** A payload was offered whole: the outcome stands only when all of it was sent. */
  predicate Observed(seen: Observation, status: nat, outcome: Outcome, input: Input) {
    && seen.status == status && seen.attempted == input.size && seen.actual == Sent(input.size, input.raw)
    && seen.outcome == (if !WriteFails(input.size, input.raw) then outcome
                        else if seen.actual == 0 then WriteFailedZero else WriteFailedPartial)
  }

  /** The error was sent, unless its headers could not be set. */
  predicate Answers(h: Handler, status: nat, outcome: Outcome, input: Input) {
    if input.raw.applyPanics then h.seen == Observation(status, WriteFailedZero, 0, 0) else Observed(h.seen, status, outcome, input)
  }

  predicate Concluded(h: Handler, d: Decision, input: Input) {
    match d
    case GoesOn => false
    case Rejects(status, outcome) => Answers(h, status, outcome, input)
    case Fails(status, outcome) => Answers(h, status, outcome, input)
    case Refuses(status, outcome) => Answers(h, status, outcome, input)
    case Sends(status) =>
      if status == 204 then h.seen == Observation(204, if input.raw.headerPanics then WriteFailedZero else OK, 0, 0)
      else Observed(h.seen, status, OK, input)
    case Gone => h.seen == Observation(499, Cancelled, 0, 0)
  }

  /** What the record that ends a report says; a report that was sent carries its diagnostics when they are valid. */
  ghost predicate EndTold(h: Handler, d: Decision, n: int, input: Input) {
    h.route == Reports ==>
      && 0 <= n < |h.records|
      && var r := h.records[n];
         && r.outcome == (if d.Rejects? then d.outcome else h.seen.outcome)
         && (d.Sends? ==> r.diagnostics == if ValidDiagnostics(r.(diagnostics := input.diagnostics)) then input.diagnostics else None)
  }

  function Terminal(h: Handler): seq<Event> { if h.point.Exited? then [HTTPTerminal] else [] }

  ghost predicate TerminalTold(h: Handler) {
    h.point.Exited? ==>
      && h.records != []
      && var r := h.records[|h.records| - 1];
         r.status == h.seen.status && r.outcome == h.seen.outcome && r.attempted == h.seen.attempted && r.actual == h.seen.actual
  }

  /** The last visit decided. */
  ghost predicate Settled(h: Handler, front: seq<Visit>, last: Visit) {
    var d, told := Decide(last, h.route, h.verb), EventsOf(front, h.route);
    && !last.input.panics && (h.point.Leaving? ==> !h.point.panicked) && Concluded(h, d, last.input)
    && Events(h.records) == told + EndEvents(d, h.route, last.point) + Terminal(h)
    && EndTold(h, d, |told| + |EndEvents(d, h.route, last.point)| - 1, last.input)
  }

  /** The last visit panicked: nothing had been answered, and the panic is answered with 500. */
  ghost predicate Crashed(h: Handler, front: seq<Visit>, last: Visit) {
    var told := EventsOf(front, h.route);
    && last.input.panics && (h.point.Leaving? ==> h.point.panicked)
    && if h.point.Leaving? then Fresh(h) && Events(h.records) == told
       else
         && h.seen.status == 500 && h.seen.outcome == PanicSafeFailure
         && Events(h.records) == told + (if h.route == Reports then [ReportFinish] else []) + Terminal(h)
         && (h.route == Reports ==> |told| < |h.records| && h.records[|told|].outcome == PanicSafeFailure)
  }

  ghost predicate Explained(h: Handler, visits: seq<Visit>) {
    && Identified(h) && TerminalTold(h)
    && if UnderWay(h.point) then
         Went(visits, h.route, h.verb) && h.point == StandsAt(visits, h.route) && Fresh(h) && Events(h.records) == EventsOf(visits, h.route)
       else
         && visits != []
         && var front, last := visits[..|visits| - 1], visits[|visits| - 1];
            && Went(front, h.route, h.verb) && last.point == StandsAt(front, h.route) && (Settled(h, front, last) || Crashed(h, front, last))
  }

  // ----- One step -----

  lemma EventsMore(records: seq<Record>, r: Record)
    ensures Events(records + [r]) == Events(records) + [r.event]
  {
  }

  lemma ToldMore(h: Handler, r: Record)
    requires Identified(h) && r.requestID == h.requestID && r.reportID == h.reportID && r.verb == h.verb && r.route == h.route
    requires r.diagnostics.Some? ==> r.event == ReportFinish && r.outcome == OK
    ensures Identified(Told(h, r)) && Events(Told(h, r).records) == Events(h.records) + [r.event]
    ensures Told(h, r).records == h.records + [r] && Told(h, r).seen == h.seen && Told(h, r).writer == h.writer
  {
  }

  lemma LastMore(visits: seq<Visit>, v: Visit, route: Route)
    ensures EventsOf(visits + [v], route) == EventsOf(visits, route) + EventsAt(v.point, route)
    ensures StandsAt(visits + [v], route) == Next(v, route)
  {
    hide EventsAt, Next;
    assert (visits + [v])[..|visits|] == visits;
  }

  lemma WentMore(visits: seq<Visit>, v: Visit, route: Route, verb: Method)
    requires Went(visits, route, verb) && v.point == StandsAt(visits, route) && !v.input.panics && Decide(v, route, verb) == GoesOn
    ensures Went(visits + [v], route, verb) && StandsAt(visits + [v], route) == Next(v, route)
    ensures EventsOf(visits + [v], route) == EventsOf(visits, route) + EventsAt(v.point, route)
  {
    hide Decide, Next, EventsOf, EventsAt, StandsAt;
    LastMore(visits, v, route);
    var all := visits + [v];
    forall k | 0 <= k < |all| ensures all[k].point == StandsAt(all[..k], route) && !all[k].input.panics && Decide(all[k], route, verb) == GoesOn {
      assert all[..k] == visits[..k];
      if k == |visits| {
        assert all[k] == v && visits[..k] == visits;
      } else {
        assert all[k] == visits[k];
      }
    }
  }

  /** A step that goes on and tells `more`. */
  lemma GoesOnExplained(h: Handler, visits: seq<Visit>, v: Visit, g: Handler)
    requires Explained(h, visits) && UnderWay(h.point) && v.point == h.point && !v.input.panics && Decide(v, h.route, h.verb) == GoesOn
    requires g.route == h.route && g.verb == h.verb && g.point == Next(v, h.route) && UnderWay(g.point) && Fresh(g) && Identified(g)
    requires Events(g.records) == Events(h.records) + EventsAt(v.point, h.route)
    ensures Explained(g, visits + [v])
  {
    hide Decide, Next, Fresh, EventsAt;
    WentMore(visits, v, h.route, h.verb);
  }

  lemma SettledExplained(h: Handler, visits: seq<Visit>, v: Visit, g: Handler)
    requires Explained(h, visits) && UnderWay(h.point) && v.point == h.point && !v.input.panics
    requires g.route == h.route && g.verb == h.verb && g.point.Leaving? && !g.point.panicked && Identified(g)
    requires Concluded(g, Decide(v, h.route, h.verb), v.input)
    requires Events(g.records) == Events(h.records) + EndEvents(Decide(v, h.route, h.verb), h.route, h.point)
    requires EndTold(g, Decide(v, h.route, h.verb), |g.records| - 1, v.input)
    ensures Explained(g, visits + [v])
  {
    hide Decide, Concluded, EndEvents, EventsOf, EndTold, Went;
    var all := visits + [v];
    assert all[..|visits|] == visits && all[|visits|] == v;
    assert Events(g.records) + [] == Events(g.records);
    assert Settled(g, visits, v);
  }

  lemma CrashExplained(h: Handler, visits: seq<Visit>, v: Visit, g: Handler)
    requires Explained(h, visits) && UnderWay(h.point) && v.point == h.point && v.input.panics
    requires g.point.Leaving? && g.point.panicked && g == h.(point := g.point)
    ensures Explained(g, visits + [v])
  {
    hide Decide, EventsOf, Went;
    var all := visits + [v];
    assert all[..|visits|] == visits && all[|visits|] == v;
    assert Crashed(g, visits, v);
  }

  // ----- What each part of a step does to the story -----

  function VisitOf(w: World, h: Handler, input: Input): Visit { Visit(h.point, input, w.tokens, w.limits) }

  /** The rows before `k` do not apply, and row `k` does when there is one. */
  lemma {:induction false} FirstAt(rows: seq<Row>, k: nat)
    requires k <= |rows| && (forall j :: 0 <= j < k ==> !rows[j].cause) && (k < |rows| ==> rows[k].cause)
    ensures FirstOf(rows) == if k < |rows| then rows[k].decision else GoesOn
  {
    if 0 < k {
      FirstAt(rows[1..], k - 1);
    }
  }

  predicate SameRequest(h: Handler, g: Handler) {
    g.requestID == h.requestID && g.reportID == h.reportID && g.verb == h.verb && g.route == h.route
  }

  lemma AnswerTells(h: Handler, key: ErrorKey, input: Input)
    requires Fresh(h)
    ensures var g := Answer(h, key, input); SameRequest(h, g) && g.records == h.records && Answers(g, StatusOf(key), OutcomeOf(key), input)
  {
  }

  lemma TellTells(w: World, h: Handler, event: Event, outcome: Outcome, status: nat, input: Input)
    requires Identified(h)
    ensures var g := Tell(w, h, event, outcome, status, input);
            && SameRequest(h, g) && Identified(g) && g.seen == h.seen && g.writer == h.writer && Events(g.records) == Events(h.records) + [event]
            && |g.records| == |h.records| + 1 && var r := g.records[|h.records|];
               r.outcome == outcome && r.status == status && r.attempted == h.seen.attempted && r.actual == h.seen.actual
  {
    ToldMore(h, RecordOf(w, h, event, outcome, status, input));
  }

  /** A report is rejected, on its way or after it was computed. */
  lemma RejectTells(w: World, h: Handler, key: ErrorKey, input: Input)
    requires Identified(h) && Fresh(h) && h.route == Reports
    ensures var g, d := Reject(w, h, key, input), Rejects(StatusOf(key), OutcomeOf(key));
            && SameRequest(h, g) && Identified(g) && Concluded(g, d, input) && Events(g.records) == Events(h.records) + [ReportReject]
            && EndTold(g, d, |g.records| - 1, input)
  {
    hide Tell, Answer, StatusOf, OutcomeOf;
    TellTells(w, h, ReportReject, OutcomeOf(key), 0, input);
    AnswerTells(Tell(w, h, ReportReject, OutcomeOf(key), 0, input), key, input);
  }

  lemma FinishTells(w: World, h: Handler, key: ErrorKey, input: Input)
    requires Identified(h) && Fresh(h) && h.route == Reports
    ensures var g, d := FinishWith(w, h, key, input).1, Fails(StatusOf(key), OutcomeOf(key));
            && SameRequest(h, g) && Identified(g) && Concluded(g, d, input) && Events(g.records) == Events(h.records) + [ReportFinish]
            && EndTold(g, d, |g.records| - 1, input)
  {
    hide Tell, Answer, StatusOf, OutcomeOf;
    var (v, r) := Released(w, h);
    AnswerTells(r, key, input);
    var a := Answer(r, key, input);
    TellTells(v, a, ReportFinish, a.seen.outcome, 0, input);
  }

  lemma CancelTells(w: World, h: Handler, input: Input)
    requires Identified(h) && Fresh(h) && h.route == Reports
    ensures var g := Leave(Tell(w, Cancelled499(h), ReportCancel, Cancelled, 0, input));
            && SameRequest(h, g) && Identified(g) && Concluded(g, Gone, input) && Events(g.records) == Events(h.records) + [ReportCancel]
            && EndTold(g, Gone, |g.records| - 1, input)
  {
    hide Tell;
    TellTells(w, Cancelled499(h), ReportCancel, Cancelled, 0, input);
  }

  lemma SendTells(h: Handler, input: Input)
    requires Fresh(h)
    ensures var g := Send(h, input); SameRequest(h, g) && g.records == h.records && Observed(g.seen, 200, OK, input)
  {
  }

  lemma SentTells(w: World, h: Handler, input: Input)
    requires Identified(h) && Fresh(h) && h.route == Reports
    ensures var g := TellSent(w, Send(h, input), input);
            && SameRequest(h, g) && Identified(g) && Concluded(g, Sends(200), input) && Events(g.records) == Events(h.records) + [ReportFinish]
            && EndTold(g, Sends(200), |g.records| - 1, input)
  {
    hide Send, Observed;
    SendTells(h, input);
    var a := Send(h, input);
    var r := RecordOf(w, a, ReportFinish, a.seen.outcome, 0, input);
    var candidate := r.(diagnostics := input.diagnostics);
    ToldMore(a, if r.outcome == OK && r.attempted > 0 && r.actual == r.attempted && ValidDiagnostics(candidate) then candidate else r);
  }

  lemma FailTells(h: Handler, key: ErrorKey, input: Input)
    requires Fresh(h) && Identified(h)
    ensures var g := FailContext(h, key, input);
            && SameRequest(h, g) && g.records == h.records && Identified(g)
            && Concluded(g, if input.cancelled then Gone else Refuses(StatusOf(key), OutcomeOf(key)), input)
  {
    hide Answer, StatusOf, OutcomeOf;
    AnswerTells(h, key, input);
  }

  // ----- One step, point by point -----

  /** A request other than a report is answered without a record. */
  lemma PlainExplained(h: Handler, visits: seq<Visit>, v: Visit, g: Handler)
    requires Explained(h, visits) && UnderWay(h.point) && v.point == h.point && !v.input.panics && h.route != Reports
    requires g.route == h.route && g.verb == h.verb && g.point.Leaving? && !g.point.panicked && Identified(g) && g.records == h.records
    requires Concluded(g, Decide(v, h.route, h.verb), v.input)
    ensures Explained(g, visits + [v])
  {
    hide Explained, Decide, Concluded, Identified;
    SettledExplained(h, visits, v, g);
  }

  lemma OnTheWay(h: Handler, visits: seq<Visit>)
    requires Explained(h, visits) && UnderWay(h.point)
    ensures Identified(h) && Fresh(h) && h.point == StandsAt(visits, h.route)
    ensures h.point.ReportRefused? ==> h.point.key == KeyRequestTooLarge || h.point.key == KeyInvalidJSON
  {
    hide Identified, Went, EventsOf;
  }

  lemma RejectExplained(w: World, h: Handler, visits: seq<Visit>, v: Visit, key: ErrorKey)
    requires Explained(h, visits) && UnderWay(h.point) && v.point == h.point && !v.input.panics && h.route == Reports && !h.point.ReportRun?
    requires Decide(v, h.route, h.verb) == Rejects(StatusOf(key), OutcomeOf(key))
    ensures Explained(Reject(w, h, key, v.input), visits + [v])
  {
    hide Explained, Decide, Concluded, Identified, EndTold, Fresh, StatusOf, OutcomeOf, Reject;
    OnTheWay(h, visits);
    RejectTells(w, h, key, v.input);
    SettledExplained(h, visits, v, Reject(w, h, key, v.input));
  }

  lemma FinishExplained(w: World, h: Handler, visits: seq<Visit>, v: Visit, key: ErrorKey)
    requires Explained(h, visits) && UnderWay(h.point) && v.point == h.point && !v.input.panics && h.route == Reports
    requires Decide(v, h.route, h.verb) == Fails(StatusOf(key), OutcomeOf(key))
    ensures Explained(FinishWith(w, h, key, v.input).1, visits + [v])
  {
    hide Explained, Decide, Concluded, Identified, EndTold, Fresh, StatusOf, OutcomeOf;
    OnTheWay(h, visits);
    FinishTells(w, h, key, v.input);
    SettledExplained(h, visits, v, FinishWith(w, h, key, v.input).1);
  }

  lemma AnswerExplained(h: Handler, visits: seq<Visit>, v: Visit, key: ErrorKey)
    requires Explained(h, visits) && UnderWay(h.point) && v.point == h.point && !v.input.panics && h.route != Reports
    requires Decide(v, h.route, h.verb) == Refuses(StatusOf(key), OutcomeOf(key))
    ensures Explained(Leave(Answer(h, key, v.input)), visits + [v])
  {
    hide Explained, Decide, Fresh, StatusOf, OutcomeOf, Answer;
    OnTheWay(h, visits);
    AnswerTells(h, key, v.input);
    PlainExplained(h, visits, v, Leave(Answer(h, key, v.input)));
  }

  /** A context request is refused, or is gone; it may have been admitted in this very step. */
  lemma FailExplained(h: Handler, visits: seq<Visit>, v: Visit, a: Handler, key: ErrorKey)
    requires Explained(h, visits) && UnderWay(h.point) && v.point == h.point && !v.input.panics && h.route == IPContext
    requires a == h.(contextAdmitted := a.contextAdmitted)
    requires Decide(v, h.route, h.verb) == if v.input.cancelled then Gone else Refuses(StatusOf(key), OutcomeOf(key))
    ensures Explained(FailContext(a, key, v.input), visits + [v])
  {
    hide Explained, Decide, Concluded, StatusOf, OutcomeOf, FailContext;
    OnTheWay(h, visits);
    FailTells(a, key, v.input);
    PlainExplained(h, visits, v, FailContext(a, key, v.input));
  }

  lemma GoneExplained(h: Handler, visits: seq<Visit>, v: Visit)
    requires Explained(h, visits) && UnderWay(h.point) && v.point == h.point && !v.input.panics && h.route == IPContext
    requires Decide(v, h.route, h.verb) == Gone
    ensures Explained(Leave(Cancelled499(h)), visits + [v])
  {
    hide Explained, Decide;
    OnTheWay(h, visits);
    PlainExplained(h, visits, v, Leave(Cancelled499(h)));
  }

  /** A step that changes nothing but the point and the tokens held goes on. */
  lemma MoveExplained(h: Handler, visits: seq<Visit>, v: Visit, g: Handler)
    requires Explained(h, visits) && UnderWay(h.point) && v.point == h.point && !v.input.panics && Decide(v, h.route, h.verb) == GoesOn
    requires g == h.(point := Next(v, h.route), admissionHeld := g.admissionHeld, contextAdmitted := g.contextAdmitted) && UnderWay(g.point)
    requires EventsAt(h.point, h.route) == []
    ensures Explained(g, visits + [v])
  {
    hide Explained, Decide, EventsAt, Next;
    OnTheWay(h, visits);
    assert Events(h.records) + [] == Events(h.records);
    GoesOnExplained(h, visits, v, g);
  }

  lemma DispatchExplained(w: World, h: Handler, visits: seq<Visit>, input: Input)
    requires Explained(h, visits) && h.point.Gate? && !input.panics && h.route != NoRoute
    requires !(input.public && h.verb != OptionsMethod && (!input.authorized || !input.rateAllowed)) && !(h.route != Options && input.draining)
    ensures Explained(Dispatch(h, input), visits + [VisitOf(w, h, input)])
  {
    hide Explained, FirstOf, Answer, Send, SendEmpty, Cancelled499;
    var v := VisitOf(w, h, input);
    var rows := GateRows(v, h.route, h.verb);
    if h.route == Reports {
      FirstAt(rows, 12);
      MoveExplained(h, visits, v, h.(point := ReportQuery));
    } else if h.route == IPContext {
      FirstAt(rows, if input.cancelled then 11 else 12);
      if input.cancelled {
        GoneExplained(h, visits, v);
      } else {
        MoveExplained(h, visits, v, h.(point := ContextTry));
      }
    } else if h.route == Options {
      FirstAt(rows, 10);
      EmptyExplained(h, visits, v);
    } else {
      FirstAt(rows, if input.failed then 8 else 9);
      if input.failed {
        AnswerExplained(h, visits, v, KeySerialization);
      } else {
        SendExplained(h, visits, v, Leave(Send(h, input)));
      }
    }
  }

  lemma EmptyExplained(h: Handler, visits: seq<Visit>, v: Visit)
    requires Explained(h, visits) && UnderWay(h.point) && v.point == h.point && !v.input.panics && h.route != Reports
    requires Decide(v, h.route, h.verb) == Sends(204)
    ensures Explained(Leave(SendEmpty(h, v.input)), visits + [v])
  {
    hide Explained, Decide;
    OnTheWay(h, visits);
    PlainExplained(h, visits, v, Leave(SendEmpty(h, v.input)));
  }

  lemma SendExplained(h: Handler, visits: seq<Visit>, v: Visit, g: Handler)
    requires Explained(h, visits) && UnderWay(h.point) && v.point == h.point && !v.input.panics && h.route != Reports
    requires Decide(v, h.route, h.verb) == Sends(200) && g.point.Leaving? && !g.point.panicked && g == Send(h, v.input).(point := g.point)
    ensures Explained(g, visits + [v])
  {
    hide Explained, Decide, Send, Observed;
    OnTheWay(h, visits);
    SendTells(h, v.input);
    PlainExplained(h, visits, v, g);
  }

  lemma RefuseExplained(w: World, h: Handler, visits: seq<Visit>, v: Visit, key: ErrorKey, k: nat)
    requires Explained(h, visits) && h.point.Gate? && v.point == h.point && !v.input.panics && k + 1 < |GateRows(v, h.route, h.verb)|
    requires var rows := GateRows(v, h.route, h.verb);
             && (forall j :: 0 <= j < k ==> !rows[j].cause) && rows[k + 1].cause && (h.route == Reports <==> rows[k].cause)
             && rows[k].decision == Rejects(StatusOf(key), OutcomeOf(key)) && rows[k + 1].decision == Refuses(StatusOf(key), OutcomeOf(key))
    ensures Explained(Refuse(w, h, key, v.input), visits + [v])
  {
    hide Explained, FirstOf, GateRows, Answer, Reject, StatusOf, OutcomeOf;
    var rows := GateRows(v, h.route, h.verb);
    if h.route == Reports {
      FirstAt(rows, k);
      RejectExplained(w, h, visits, v, key);
    } else {
      FirstAt(rows, k + 1);
      AnswerExplained(h, visits, v, key);
    }
  }

  lemma GateExplained(w: World, h: Handler, visits: seq<Visit>, input: Input)
    requires Explained(h, visits) && h.point.Gate? && !input.panics
    ensures Explained(AtGate(w, h, input), visits + [VisitOf(w, h, input)])
  {
    hide Explained, FirstOf, Answer, Refuse, Dispatch;
    var v := VisitOf(w, h, input);
    var asks := input.public && h.verb != OptionsMethod;
    if asks && !input.authorized {
      RefuseExplained(w, h, visits, v, KeyUnauthorized, 0);
    } else if asks && !input.rateAllowed {
      RefuseExplained(w, h, visits, v, KeyRateLimited, 2);
    } else if h.route == NoRoute {
      FirstAt(GateRows(v, h.route, h.verb), if input.knownPath then 4 else 5);
      AnswerExplained(h, visits, v, if input.knownPath then KeyMethodNotAllowed else KeyRouteNotFound);
    } else if h.route != Options && input.draining {
      RefuseExplained(w, h, visits, v, KeyServerDraining, 6);
    } else {
      DispatchExplained(w, h, visits, input);
    }
  }

  lemma EnteredExplained(w: World, h: Handler, visits: seq<Visit>, input: Input)
    requires Explained(h, visits) && h.point.Entered? && !input.panics
    ensures Explained(Advance(w, h, input).1, visits + [VisitOf(w, h, input)])
  {
    hide Explained, Tell;
    var v := VisitOf(w, h, input);
    OnTheWay(h, visits);
    if h.route == Reports {
      TellTells(w, h, ReportSubmit, OK, 0, input);
      GoesOnExplained(h, visits, v, Tell(w, h, ReportSubmit, OK, 0, input).(point := Gate));
    } else {
      MoveExplained(h, visits, v, h.(point := Gate));
    }
  }

  lemma RequestExplained(w: World, h: Handler, visits: seq<Visit>, input: Input)
    requires Explained(h, visits) && h.route == Reports && !input.panics
    requires BeforeAdmission(h.point)
    ensures Explained(OnReport(w, h, input).1, visits + [VisitOf(w, h, input)])
  {
    hide Explained, FirstOf, Reject;
    var v := VisitOf(w, h, input);
    var rows := ReportRows(v);
    OnTheWay(h, visits);
    match h.point
    case ReportQuery =>
      FirstAt(rows, if !input.acceptable then 0 else if input.tooLong then 1 else 2);
      if !input.acceptable {
        RejectExplained(w, h, visits, v, KeyInvalidRequest);
      } else if input.tooLong {
        RejectExplained(w, h, visits, v, KeyRequestTooLarge);
      } else {
        MoveExplained(h, visits, v, h.(point := ReportDecodeTry));
      }
    case ReportDecodeTry =>
      FirstAt(rows, if Free(w, Decodes) then 1 else 0);
      if Free(w, Decodes) {
        MoveExplained(h, visits, v, h.(point := ReportDecoding));
      } else {
        RejectExplained(w, h, visits, v, KeyBodyDecodeCapacity);
      }
    case ReportDecoding =>
      FirstAt(rows, 0);
      MoveExplained(h, visits, v, OnReport(w, h, input).1);
    case ReportRefused(key) =>
      FirstAt(rows, if key == KeyRequestTooLarge then 0 else 1);
      RejectExplained(w, h, visits, v, key);
    case ReportValidate =>
      FirstAt(rows, if input.acceptable then 1 else 0);
      if input.acceptable {
        MoveExplained(h, visits, v, h.(point := AtAdmission));
      } else {
        RejectExplained(w, h, visits, v, KeyInvalidRequest);
      }
  }

  lemma AdmissionExplained(w: World, h: Handler, visits: seq<Visit>, input: Input)
    requires Explained(h, visits) && h.route == Reports && !input.panics && h.point.AtAdmission?
    ensures Explained(OnReport(w, h, input).1, visits + [VisitOf(w, h, input)])
  {
    hide Explained, FirstOf, Reject, Tell;
    var v := VisitOf(w, h, input);
    OnTheWay(h, visits);
    FirstAt(ReportRows(v), if Free(w, Admission) then 1 else 0);
    if Free(w, Admission) {
      var u := w.(tokens := Moved(w.tokens, Admission, 1));
      var a := h.(admissionHeld := true, point := ReportRun);
      TellTells(u, a, ReportAdmit, OK, 0, input);
      var b := Tell(u, a, ReportAdmit, OK, 0, input);
      TellTells(u, b, ReportStart, OK, 0, input);
      GoesOnExplained(h, visits, v, Tell(u, b, ReportStart, OK, 0, input));
    } else {
      RejectExplained(w, h, visits, v, KeyServerBusy);
    }
  }

  /** A report stopped by the network policy had been computed. */
  lemma PolicyExplained(w: World, h: Handler, visits: seq<Visit>, v: Visit)
    requires Explained(h, visits) && h.point.ReportRun? && v.point == h.point && !v.input.panics && h.route == Reports
    requires Decide(v, h.route, h.verb) == Rejects(422, Policy)
    ensures var (u, g) := Released(w, Tell(w, h, ReportComputed, OK, 0, v.input));
            Explained(Reject(u, g, KeyNetworkPolicy, v.input), visits + [v])
  {
    hide Explained, Decide, Concluded, EndTold, Tell, Reject;
    OnTheWay(h, visits);
    TellTells(w, h, ReportComputed, OK, 0, v.input);
    var (u, g) := Released(w, Tell(w, h, ReportComputed, OK, 0, v.input));
    RejectTells(u, g, KeyNetworkPolicy, v.input);
    SettledExplained(h, visits, v, Reject(u, g, KeyNetworkPolicy, v.input));
  }

  lemma CancelExplained(w: World, h: Handler, visits: seq<Visit>, v: Visit)
    requires Explained(h, visits) && h.point.ReportRun? && v.point == h.point && !v.input.panics && h.route == Reports
    requires Decide(v, h.route, h.verb) == Gone
    ensures var (u, g) := Released(w, h); Explained(Leave(Tell(u, Cancelled499(g), ReportCancel, Cancelled, 0, v.input)), visits + [v])
  {
    hide Explained, Decide, Concluded, EndTold, Tell, Cancelled499;
    OnTheWay(h, visits);
    var (u, g) := Released(w, h);
    CancelTells(u, g, v.input);
    SettledExplained(h, visits, v, Leave(Tell(u, Cancelled499(g), ReportCancel, Cancelled, 0, v.input)));
  }

  lemma ComputedExplained(w: World, h: Handler, visits: seq<Visit>, v: Visit)
    requires Explained(h, visits) && h.point.ReportRun? && v.point == h.point && !v.input.panics && h.route == Reports
    requires Decide(v, h.route, h.verb) == GoesOn
    ensures Explained(Tell(w, h, ReportComputed, OK, 0, v.input).(point := ReportMarshal), visits + [v])
  {
    hide Explained, Decide, Tell;
    OnTheWay(h, visits);
    TellTells(w, h, ReportComputed, OK, 0, v.input);
    GoesOnExplained(h, visits, v, Tell(w, h, ReportComputed, OK, 0, v.input).(point := ReportMarshal));
  }

  lemma RunExplained(w: World, h: Handler, visits: seq<Visit>, input: Input)
    requires Explained(h, visits) && h.route == Reports && !input.panics && h.point.ReportRun?
    ensures Explained(OnReport(w, h, input).1, visits + [VisitOf(w, h, input)])
  {
    hide Explained, FirstOf, Reject, FinishWith, Released, Tell, Leave, Cancelled499;
    var v := VisitOf(w, h, input);
    FirstAt(ReportRows(v), if input.failed then 0 else if input.cancelled then 1 else if input.public && input.policy then 2 else 3);
    if input.failed {
      FinishExplained(w, h, visits, v, KeyInternal);
    } else if input.cancelled {
      CancelExplained(w, h, visits, v);
    } else if input.public && input.policy {
      PolicyExplained(w, h, visits, v);
    } else {
      ComputedExplained(w, h, visits, v);
    }
  }

  lemma WriteExplained(w: World, h: Handler, visits: seq<Visit>, input: Input)
    requires Explained(h, visits) && h.route == Reports && !input.panics && InputOK(input)
    requires h.point.ReportMarshal? || h.point.ReportWriteTry? || h.point.ReportWriteHeld? || h.point.ReportWriting?
    ensures Explained(OnReport(w, h, input).1, visits + [VisitOf(w, h, input)])
  {
    hide Explained, FirstOf, FinishWith, TellSent, Send, Concluded, EndTold;
    var v := VisitOf(w, h, input);
    var rows := ReportRows(v);
    OnTheWay(h, visits);
    match h.point
    case ReportMarshal =>
      FirstAt(rows, match input.marshalError case None => 3 case Some(key) => if key == KeyCompactTooLarge then 0 else if key == KeyFullTooLarge then 1 else 2);
      if input.marshalError.Some? {
        FinishExplained(w, h, visits, v, input.marshalError.value);
      } else {
        MoveExplained(h, visits, v, h.(point := ReportWriteTry));
      }
    case ReportWriteTry =>
      FirstAt(rows, if Free(w, Writes) then 1 else 0);
      if Free(w, Writes) {
        MoveExplained(h, visits, v, h.(point := ReportWriteHeld));
      } else {
        FinishExplained(w, h, visits, v, KeyWriteCapacity);
      }
    case ReportWriteHeld =>
      FirstAt(rows, 0);
      MoveExplained(h, visits, v, OnReport(w, h, input).1);
    case ReportWriting =>
      FirstAt(rows, 0);
      SentExplained(w, h, visits, v);
  }

  lemma SentExplained(w: World, h: Handler, visits: seq<Visit>, v: Visit)
    requires Explained(h, visits) && h.point.ReportWriting? && v.point == h.point && !v.input.panics && h.route == Reports
    requires Decide(v, h.route, h.verb) == Sends(200)
    ensures Explained(TellSent(w, Send(h, v.input), v.input).(point := Leaving(false, true, false)), visits + [v])
  {
    hide Explained, Decide, Observed, TellSent, Send;
    OnTheWay(h, visits);
    SentTells(w, h, v.input);
    SettledExplained(h, visits, v, TellSent(w, Send(h, v.input), v.input).(point := Leaving(false, true, false)));
  }

  lemma ContextReadExplained(w: World, h: Handler, visits: seq<Visit>, input: Input)
    requires Explained(h, visits) && h.route == IPContext && !input.panics && h.point.ContextReading?
    ensures Explained(OnContext(w, h, input).1, visits + [VisitOf(w, h, input)])
  {
    hide Explained, FirstOf, FailContext, Send;
    var v := VisitOf(w, h, input);
    var rows := ContextRows(v);
    FirstAt(rows, if input.read.ReadOK? then 3 else if input.cancelled then 0 else if input.read.ReadTooLarge? then 1 else 2);
    if input.read.ReadOK? {
      MoveExplained(h, visits, v, h.(point := ContextLookup));
    } else {
      FailExplained(h, visits, v, h, if input.read.ReadTooLarge? then KeyRequestTooLarge else KeyInvalidJSON);
    }
  }

  lemma ContextWriteExplained(w: World, h: Handler, visits: seq<Visit>, input: Input)
    requires Explained(h, visits) && h.route == IPContext && !input.panics && (h.point.ContextWriteTry? || h.point.ContextWriting?)
    ensures Explained(OnContext(w, h, input).1, visits + [VisitOf(w, h, input)])
  {
    hide Explained, FirstOf, FailContext, Send;
    var v := VisitOf(w, h, input);
    var rows := ContextRows(v);
    match h.point
    case ContextWriteTry =>
      FirstAt(rows, if Free(w, Writes) then 2 else if input.cancelled then 0 else 1);
      if Free(w, Writes) {
        MoveExplained(h, visits, v, h.(point := ContextWriting));
      } else {
        FailExplained(h, visits, v, h, KeyWriteCapacity);
      }
    case ContextWriting =>
      FirstAt(rows, 0);
      SendExplained(h, visits, v, Send(h, input).(point := Leaving(false, true, false)));
  }

  lemma ContextExplained(w: World, h: Handler, visits: seq<Visit>, input: Input)
    requires Explained(h, visits) && h.route == IPContext && !input.panics && InputOK(input) && OnContextPath(h.point)
    ensures Explained(OnContext(w, h, input).1, visits + [VisitOf(w, h, input)])
  {
    hide Explained, FirstOf, FailContext, Send, Leave, Cancelled499;
    var v := VisitOf(w, h, input);
    var rows := ContextRows(v);
    match h.point
    case ContextTry =>
      var full := !Free(w, Contexts);
      FirstAt(rows, if !full && !input.tooLong then 3 else if input.cancelled then 0 else if full then 1 else 2);
      if full {
        FailExplained(h, visits, v, h, KeyServerBusy);
      } else if input.tooLong {
        FailExplained(h, visits, v, h.(contextAdmitted := true), KeyRequestTooLarge);
      } else {
        MoveExplained(h, visits, v, h.(contextAdmitted := true, point := ContextDecodeTry));
      }
    case ContextDecodeTry =>
      FirstAt(rows, if Free(w, Decodes) then 2 else if input.cancelled then 0 else 1);
      if Free(w, Decodes) {
        MoveExplained(h, visits, v, h.(point := ContextReading));
      } else {
        FailExplained(h, visits, v, h, KeyBodyDecodeCapacity);
      }
    case ContextReading => ContextReadExplained(w, h, visits, input);
    case ContextLookup => LookupExplained(w, h, visits, input);
    case _ => ContextWriteExplained(w, h, visits, input);
  }

  lemma LookupExplained(w: World, h: Handler, visits: seq<Visit>, input: Input)
    requires Explained(h, visits) && h.route == IPContext && !input.panics && InputOK(input) && h.point.ContextLookup?
    ensures Explained(OnContext(w, h, input).1, visits + [VisitOf(w, h, input)])
  {
    hide Explained, FirstOf, FailContext, Leave, Cancelled499;
    var v := VisitOf(w, h, input);
    var refusal := input.refusal;
    FirstAt(ContextRows(v), if input.cancelled then 0 else if refusal.None? then 6 else match refusal.value
                            case KeyInvalidJSON => 1
                            case KeyInvalidRequest => 2
                            case KeyServerBusy => 3
                            case KeyInternal => 4
                            case _ => 5);
    if refusal.Some? {
      FailExplained(h, visits, v, h, refusal.value);
    } else if input.cancelled {
      GoneExplained(h, visits, v);
    } else {
      MoveExplained(h, visits, v, h.(point := ContextWriteTry));
    }
  }

  // ----- Leaving -----

  /** A handler that only gives back tokens keeps its story. */
  lemma LeftExplained(h: Handler, visits: seq<Visit>, g: Handler)
    requires Explained(h, visits) && h.point.Leaving? && g == h.(point := g.point, admissionHeld := g.admissionHeld)
    requires (g.point.Leaving? && g.point.panicked == h.point.panicked) || (g.point.Ending? && !h.point.panicked)
    ensures Explained(g, visits)
  {
    hide Decide, Concluded, EndEvents, EventsOf, EndTold, Went, Identified, Fresh;
    var front, last := visits[..|visits| - 1], visits[|visits| - 1];
    assert Identified(g) by {
      SameIdentified(h, g);
    }
    assert Fresh(h) ==> Fresh(g) by {
      SameIdentified(h, g);
    }
    if Settled(h, front, last) {
      SameConcluded(h, g, Decide(last, h.route, h.verb), last.input);
      assert Settled(g, front, last);
    } else {
      assert Crashed(g, front, last);
    }
  }

  lemma SameIdentified(h: Handler, g: Handler)
    requires SameRequest(h, g)
    ensures Identified(h) && g.records == h.records ==> Identified(g)
    ensures Fresh(h) && g.seen == h.seen && g.writer == h.writer ==> Fresh(g)
  {
  }

  lemma SameConcluded(h: Handler, g: Handler, d: Decision, input: Input)
    requires g.seen == h.seen && g.route == h.route && g.records == h.records
    ensures Concluded(h, d, input) ==> Concluded(g, d, input)
    ensures forall n :: EndTold(h, d, n, input) ==> EndTold(g, d, n, input)
  {
  }

  lemma PanicTells(w: World, h: Handler, input: Input)
    requires Identified(h) && Fresh(h) && !h.reportTerminal
    ensures var g := Contain(w, h, input);
            && SameRequest(h, g) && Identified(g) && g.seen.status == 500 && g.seen.outcome == PanicSafeFailure
            && Events(g.records) == Events(h.records) + (if h.route == Reports then [ReportFinish] else [])
            && (h.route == Reports ==> |g.records| == |h.records| + 1 && g.records[|h.records|].outcome == PanicSafeFailure)
  {
    hide Tell, Identified;
    AnswerTells(h, KeyInternal, input);
    var b := Answer(h, KeyInternal, input);
    var a := b.(seen := b.seen.(outcome := PanicSafeFailure));
    SameIdentified(h, a);
    assert Events(a.records) + [] == Events(h.records);
    if h.route == Reports {
      TellTells(w, a, ReportFinish, PanicSafeFailure, 0, input);
    }
  }

  /** A panic is answered with 500, and a report that panicked is finished. */
  lemma ContainExplained(w: World, h: Handler, visits: seq<Visit>, input: Input)
    requires Explained(h, visits) && h.point.Leaving? && h.point.panicked && !h.reportTerminal
    ensures Explained(Contain(w, h, input).(point := Ending), visits)
  {
    hide Decide, Concluded, EndEvents, EventsOf, EndTold, Went, Identified, Contain;
    var front, last := visits[..|visits| - 1], visits[|visits| - 1];
    assert Crashed(h, front, last);
    PanicTells(w, h, input);
    var g := Contain(w, h, input).(point := Ending);
    SameIdentified(Contain(w, h, input), g);
    assert Events(g.records) + [] == Events(g.records);
    assert |Events(h.records)| == |EventsOf(front, h.route)|;
    assert Crashed(g, front, last);
  }

  lemma EndStays(h: Handler, g: Handler, d: Decision, n: int, input: Input)
    requires EndTold(h, d, n, input) && g.route == h.route && g.seen == h.seen && |g.records| == |h.records| + 1 && g.records[..|h.records|] == h.records
    ensures EndTold(g, d, n, input)
  {
    if h.route == Reports {
      assert g.records[n] == g.records[..|h.records|][n];
    }
  }

  /** The terminal record tells what was seen. */
  lemma EndingTells(w: World, h: Handler, input: Input)
    requires Identified(h) && h.seen.status != 0
    ensures var g := OnEnding(w, h, input).1;
            && SameRequest(h, g) && g.point.Exited? && Identified(g) && g.seen == h.seen && TerminalTold(g)
            && Events(g.records) == Events(h.records) + [HTTPTerminal] && |g.records| == |h.records| + 1 && g.records[..|h.records|] == h.records
  {
    var r := RecordOf(w, h, HTTPTerminal, h.seen.outcome, h.seen.status, input);
    ToldMore(h, r);
  }

  lemma SettledStays(h: Handler, front: seq<Visit>, last: Visit, g: Handler)
    requires Settled(h, front, last) && h.point.Ending? && SameRequest(h, g) && g.point.Exited? && g.seen == h.seen
    requires Events(g.records) == Events(h.records) + [HTTPTerminal] && |g.records| == |h.records| + 1 && g.records[..|h.records|] == h.records
    ensures Settled(g, front, last)
  {
    hide Decide, EndEvents, EventsOf, EndTold, Concluded, Events;
    var d := Decide(last, h.route, h.verb);
    SameConcludedNow(h, g, d, last.input);
    EndStays(h, g, d, |EventsOf(front, h.route)| + |EndEvents(d, h.route, last.point)| - 1, last.input);
  }

  lemma CrashStays(h: Handler, front: seq<Visit>, last: Visit, g: Handler)
    requires Crashed(h, front, last) && h.point.Ending? && SameRequest(h, g) && g.point.Exited? && g.seen == h.seen
    requires Events(g.records) == Events(h.records) + [HTTPTerminal] && |g.records| == |h.records| + 1 && g.records[..|h.records|] == h.records
    ensures Crashed(g, front, last)
  {
    hide EventsOf, Events, Fresh;
    var n := |EventsOf(front, h.route)|;
    if h.route == Reports {
      assert g.records[n] == g.records[..|h.records|][n];
    }
  }

  lemma SameStory(h: Handler, g: Handler)
    requires SameRequest(h, g)
    ensures g.route == h.route && g.verb == h.verb
  {
  }

  lemma EndingExplained(w: World, h: Handler, visits: seq<Visit>, input: Input)
    requires Explained(h, visits) && h.point.Ending? && h.seen.status != 0
    ensures Explained(OnEnding(w, h, input).1, visits)
  {
    hide Settled, Crashed, Went, Identified, OnEnding, TerminalTold, SameRequest, Events, StandsAt, Decide, EventsOf;
    var front, last := visits[..|visits| - 1], visits[|visits| - 1];
    EndingTells(w, h, input);
    var g := OnEnding(w, h, input).1;
    SameStory(h, g);
    if Settled(h, front, last) {
      SettledStays(h, front, last, g);
    } else {
      CrashStays(h, front, last, g);
    }
  }

  lemma SameConcludedNow(h: Handler, g: Handler, d: Decision, input: Input)
    requires g.seen == h.seen && Concluded(h, d, input)
    ensures Concluded(g, d, input)
  {
  }

  // ----- Whole runs -----

  /** The visits of one move: none but the move's own handler takes a step, and giving tokens back is no visit. */
  function Taken(w: World, e: Move, id: nat): seq<Visit> {
    if e.Step? && e.id == id && id in w.handlers && UnderWay(w.handlers[id].point) then [VisitOf(w, w.handlers[id], e.input)] else []
  }

  /** The visits of one request over a run, in order. */
  function Trail(w: World, moves: seq<Move>, id: nat): seq<Visit>
    decreases |moves|
  {
    if moves == [] then [] else Taken(w, moves[0], id) + Trail(Turn(w, moves[0]), moves[1..], id)
  }

  lemma PanicExplained(w: World, h: Handler, visits: seq<Visit>, input: Input)
    requires Explained(h, visits) && UnderWay(h.point) && input.panics
    ensures Explained(Advance(w, h, input).1, visits + [VisitOf(w, h, input)])
  {
    hide Explained;
    CrashExplained(h, visits, VisitOf(w, h, input), Advance(w, h, input).1);
  }

  lemma ReportStepExplained(w: World, h: Handler, visits: seq<Visit>, input: Input)
    requires Explained(h, visits) && OnReportPath(h.point) && h.route == Reports && InputOK(input) && !input.panics
    ensures Explained(OnReport(w, h, input).1, visits + [VisitOf(w, h, input)])
  {
    hide Explained, OnReport, InputOK;
    if BeforeAdmission(h.point) {
      RequestExplained(w, h, visits, input);
    } else if h.point.AtAdmission? {
      AdmissionExplained(w, h, visits, input);
    } else if h.point.ReportRun? {
      RunExplained(w, h, visits, input);
    } else {
      WriteExplained(w, h, visits, input);
    }
  }

  lemma LeavingExplained(w: World, h: Handler, visits: seq<Visit>, input: Input)
    requires Explained(h, visits) && h.point.Leaving? && (h.point.panicked ==> !h.reportTerminal)
    ensures Explained(OnLeaving(w, h, input).1, visits)
  {
    hide Explained, Contain;
    if !h.point.decode && !h.point.write && !h.admissionHeld && h.point.panicked {
      ContainExplained(w, h, visits, input);
    } else {
      LeftExplained(h, visits, OnLeaving(w, h, input).1);
    }
  }

  lemma AdvanceExplained(w: World, h: Handler, visits: seq<Visit>, input: Input)
    requires Explained(h, visits) && Placed(h) && Accounted(h) && InputOK(input)
    ensures Explained(Advance(w, h, input).1, if UnderWay(h.point) then visits + [VisitOf(w, h, input)] else visits)
  {
    hide Explained, Base, CountOf, OnReport, OnContext, OnLeaving, OnEnding, AtGate, Tell, InputOK;
    if h.point.Exited? {
    } else if h.point.Leaving? {
      LeavingExplained(w, h, visits, input);
    } else if h.point.Ending? {
      EndingExplained(w, h, visits, input);
    } else if input.panics {
      PanicExplained(w, h, visits, input);
    } else if h.point.Entered? {
      EnteredExplained(w, h, visits, input);
    } else if h.point.Gate? {
      GateExplained(w, h, visits, input);
    } else if OnReportPath(h.point) {
      ReportStepExplained(w, h, visits, input);
    } else {
      ContextExplained(w, h, visits, input);
    }
  }

  /** What is known of one request after some moves: its state is explained by its visits, or it has not arrived. */
  ghost predicate Known(w: World, id: nat, visits: seq<Visit>) {
    if id in w.handlers then Explained(w.handlers[id], visits) else visits == []
  }

  lemma ArrivalExplained(h: Handler)
    requires h.point.Entered? && h.records == [] && Fresh(h)
    ensures Explained(h, [])
  {
  }

  lemma TurnExplained(w: World, e: Move, id: nat, visits: seq<Visit>)
    requires Invariant(w) && MoveOK(e) && Known(w, id, visits)
    ensures Known(Turn(w, e), id, visits + Taken(w, e, id))
  {
    hide Explained, Advance, Conserved, Placed, Accounted, InputOK, UnderWay;
    assert visits + [] == visits;
    match e
    case Arrive(new_, _, _, _, _) =>
      if new_ == id && id !in w.handlers {
        ArrivalExplained(Turn(w, e).handlers[id]);
      }
    case Step(at, input) =>
      if at == id && id in w.handlers {
        AdvanceExplained(w, w.handlers[id], visits, input);
      }
  }

  lemma TurnInvariant(w: World, e: Move)
    requires Invariant(w) && MoveOK(e)
    ensures Invariant(Turn(w, e))
  {
    hide Invariant, MoveOK, Advance;
    if e.Arrive? {
      ArriveKeeps(w, e);
    } else if e.id in w.handlers {
      MoveInput(e);
      StepKeeps(w, e.id, e.input);
    }
  }

  lemma {:induction false} AfterExplained(w: World, moves: seq<Move>, id: nat, visits: seq<Visit>)
    requires Invariant(w) && Known(w, id, visits) && forall i :: 0 <= i < |moves| ==> MoveOK(moves[i])
    ensures Known(After(w, moves), id, visits + Trail(w, moves, id))
    decreases |moves|
  {
    hide Invariant, MoveOK, Turn, Known, Taken;
    if moves == [] {
      assert visits + [] == visits;
    } else {
      var e := moves[0];
      TurnExplained(w, e, id, visits);
      TurnInvariant(w, e);
      AfterExplained(Turn(w, e), moves[1..], id, visits + Taken(w, e, id));
      assert visits + Trail(w, moves, id) == visits + Taken(w, e, id) + Trail(Turn(w, e), moves[1..], id);
    }
  }

  /** Over every interleaving of any number of requests, each request's state and records follow from the steps it
      took: as long as no cause applied it went on, point by point, unanswered; the first cause that applied gave
      the answer, and what was told of it; and a panic was answered with 500. */
  lemma EveryAnswerHasItsCause(limits: Tokens, moves: seq<Move>, id: nat)
    requires forall i :: 0 <= i < |moves| ==> MoveOK(moves[i])
    requires id in After(Idle(limits), moves).handlers
    ensures Explained(After(Idle(limits), moves).handlers[id], Trail(Idle(limits), moves, id))
  {
    hide After, Explained, Trail, MoveOK;
    var w := Idle(limits);
    assert Invariant(w) by {
      forall kind: Kind ensures Holders(w.handlers, kind) == {} {
      }
    }
    AfterExplained(w, moves, id, []);
    assert [] + Trail(w, moves, id) == Trail(w, moves, id);
  }

  // ----- What a status tells -----

  function StatusIn(d: Decision): nat {
    match d
    case GoesOn => 0
    case Rejects(status, _) => status
    case Fails(status, _) => status
    case Refuses(status, _) => status
    case Sends(status) => status
    case Gone => 499
  }

  predicate Asked(v: Visit, verb: Method) { v.input.public && verb != OptionsMethod }

  /** The request may be served as far as the gate is concerned. */
  predicate LetIn(v: Visit, route: Route, verb: Method) {
    && v.point.Gate? && !v.input.panics && (Asked(v, verb) ==> v.input.authorized && v.input.rateAllowed)
    && route != NoRoute && (route != Options ==> !v.input.draining)
  }

  lemma GateStatus(v: Visit, route: Route, verb: Method)
    requires v.point.Gate?
    ensures StatusIn(Decide(v, route, verb)) ==
            if Asked(v, verb) && !v.input.authorized then 401
            else if Asked(v, verb) && !v.input.rateAllowed then 429
            else if route == NoRoute then (if v.input.knownPath then 405 else 404)
            else if route != Options && v.input.draining then 503
            else match route
                 case Options => 204
                 case IPContext => if v.input.cancelled then 499 else 0
                 case Reports => 0
                 case _ => if v.input.failed then 500 else 200
  {
    hide FirstOf;
    var report := route == Reports;
    FirstAt(GateRows(v, route, verb),
            if Asked(v, verb) && !v.input.authorized then (if report then 0 else 1)
            else if Asked(v, verb) && !v.input.rateAllowed then (if report then 2 else 3)
            else if route == NoRoute then (if v.input.knownPath then 4 else 5)
            else if route != Options && v.input.draining then (if report then 6 else 7)
            else match route
                 case Options => 10
                 case IPContext => if v.input.cancelled then 11 else 12
                 case Reports => 12
                 case _ => if v.input.failed then 8 else 9);
  }

  lemma {:induction false} DecidedByARow(rows: seq<Row>, P: Row -> bool)
    requires forall k :: 0 <= k < |rows| ==> P(rows[k])
    ensures FirstOf(rows) == GoesOn || exists row :: P(row) && row.cause && row.decision == FirstOf(rows)
  {
    if rows != [] && !rows[0].cause {
      DecidedByARow(rows[1..], P);
    } else if rows != [] {
      assert P(rows[0]);
    }
  }

  /** Beyond the gate no request is unauthorized, too frequent or unrouted, and only a sent payload answers 200. */
  lemma InnerStatus(v: Visit, route: Route, verb: Method)
    requires !v.point.Gate?
    ensures StatusIn(Decide(v, route, verb)) in {0, 200, 400, 413, 422, 499, 500, 503}
  {
    hide FirstOf;
    var fine := (row: Row) => StatusIn(row.decision) in {0, 200, 400, 413, 422, 499, 500, 503};
    DecidedByARow(ReportRows(v), fine);
    DecidedByARow(ContextRows(v), fine);
  }

  /** Over every run: a request has passed the gate, or has been sent a payload or nothing with 200 or 204, only if
      the gate let it in: not public, or authorized and within its rate, on a known route and not draining. */
  lemma ServedThroughTheGate(limits: Tokens, moves: seq<Move>, id: nat)
    requires forall i :: 0 <= i < |moves| ==> MoveOK(moves[i])
    requires id in After(Idle(limits), moves).handlers
    ensures var h, trail := After(Idle(limits), moves).handlers[id], Trail(Idle(limits), moves, id);
            OnReportPath(h.point) || OnContextPath(h.point) || h.seen.status == 200 || h.seen.status == 204
            ==> |trail| > 1 && LetIn(trail[1], h.route, h.verb)
  {
    hide After, Trail, Explained, MoveOK;
    EveryAnswerHasItsCause(limits, moves, id);
    var h := After(Idle(limits), moves).handlers[id];
    if OnReportPath(h.point) || OnContextPath(h.point) || h.seen.status == 200 || h.seen.status == 204 {
      PassedTheGate(h, Trail(Idle(limits), moves, id));
    }
  }

  /** The first step is the entry and the second the gate. */
  lemma WayIn(visits: seq<Visit>, route: Route, verb: Method)
    requires Went(visits, route, verb)
    ensures visits == [] ==> StandsAt(visits, route) == Entered
    ensures |visits| == 1 ==> StandsAt(visits, route) == Gate
    ensures |visits| > 1 ==> LetIn(visits[1], route, verb)
  {
    hide Decide;
    if visits != [] {
      assert visits[0].point == StandsAt(visits[..0], route) == Entered;
      if |visits| > 1 {
        assert visits[..1][0] == visits[0];
        assert visits[1].point == StandsAt(visits[..1], route) == Gate;
        GateStatus(visits[1], route, verb);
      }
    }
  }

  lemma SentAtGate(front: seq<Visit>, last: Visit, route: Route, verb: Method)
    requires |front| <= 1 && last.point == (if front == [] then Entered else Gate) && !last.input.panics
    requires StatusIn(Decide(last, route, verb)) in {200, 204}
    ensures |front| == 1 && LetIn(last, route, verb)
  {
    if front != [] {
      hide Decide;
      GateStatus(last, route, verb);
    }
  }

  lemma PassedTheGate(h: Handler, visits: seq<Visit>)
    requires Explained(h, visits)
    requires OnReportPath(h.point) || OnContextPath(h.point) || h.seen.status == 200 || h.seen.status == 204
    ensures |visits| > 1 && LetIn(visits[1], h.route, h.verb)
  {
    hide Decide, Went, EventsOf, EndEvents, EndTold, Identified, TerminalTold, LetIn, Next;
    if UnderWay(h.point) {
      WayIn(visits, h.route, h.verb);
    } else {
      var front, last := visits[..|visits| - 1], visits[|visits| - 1];
      assert Settled(h, front, last) && h.seen.status == StatusIn(Decide(last, h.route, h.verb));
      WayIn(front, h.route, h.verb);
      if |front| > 1 {
        assert visits[1] == front[1];
      } else {
        SentAtGate(front, last, h.route, h.verb);
      }
    }
  }

  /** Over every run: an ended request was refused with 401, 429, 405 or 404 exactly when its last step was at the
      gate and that was the first cause there. */
  lemma RefusalsTellTheGate(limits: Tokens, moves: seq<Move>, id: nat)
    requires forall i :: 0 <= i < |moves| ==> MoveOK(moves[i])
    requires id in After(Idle(limits), moves).handlers
    requires var p := After(Idle(limits), moves).handlers[id].point; p.Ending? || p.Exited?
    ensures var h, trail := After(Idle(limits), moves).handlers[id], Trail(Idle(limits), moves, id);
            trail != [] && GateTold(h, trail[|trail| - 1])
  {
    hide After, Trail, Explained, MoveOK, GateTold;
    EveryAnswerHasItsCause(limits, moves, id);
    EndedTellsGate(After(Idle(limits), moves).handlers[id], Trail(Idle(limits), moves, id));
  }

  ghost predicate GateTold(h: Handler, last: Visit) {
    var atGate, asked := last.point.Gate? && !last.input.panics, Asked(last, h.verb);
    var refused := asked && !(last.input.authorized && last.input.rateAllowed);
    && (h.seen.status == 401 <==> atGate && asked && !last.input.authorized)
    && (h.seen.status == 429 <==> atGate && asked && last.input.authorized && !last.input.rateAllowed)
    && (h.seen.status == 405 <==> atGate && !refused && h.route == NoRoute && last.input.knownPath)
    && (h.seen.status == 404 <==> atGate && !refused && h.route == NoRoute && !last.input.knownPath)
    && (h.seen.status == 204 <==> atGate && !refused && h.route == Options)
  }

  lemma EndedTellsGate(h: Handler, visits: seq<Visit>)
    requires Explained(h, visits) && (h.point.Ending? || h.point.Exited?)
    ensures visits != [] && GateTold(h, visits[|visits| - 1])
  {
    hide Went, EventsOf, EndEvents, EndTold, Identified, TerminalTold, Decide;
    var front, last := visits[..|visits| - 1], visits[|visits| - 1];
    if Settled(h, front, last) {
      var d := Decide(last, h.route, h.verb);
      assert h.seen.status == StatusIn(d);
      if last.point.Gate? {
        GateStatus(last, h.route, h.verb);
      } else {
        InnerStatus(last, h.route, h.verb);
      }
    }
  }
}
