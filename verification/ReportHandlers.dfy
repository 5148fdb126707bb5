/** The request handlers of the server as interleaved steps over four semaphores (backend/api/server.go:273-407,
    453-575, 624-690; backend/api/ip_context.go:10-110). Any step of a handler may panic; what a handler decides
    from its request, the network and its collaborators is input. */
module ReportHandlers {
  import opened Text
  import opened Telemetry

  datatype Tokens = Tokens(admission: nat, decodes: nat, writes: nat, contexts: nat)

  datatype Kind = Admission | Decodes | Writes | Contexts

  /** Where a handler stands. `Leaving` names the deferred releases still to run. */
  datatype Point =
    | Entered | Gate
    | ReportQuery | ReportDecodeTry | ReportDecoding | ReportRefused(key: ErrorKey) | ReportValidate | AtAdmission | ReportRun
    | ReportMarshal | ReportWriteTry | ReportWriteHeld | ReportWriting
    | ContextTry | ContextDecodeTry | ContextReading | ContextLookup | ContextWriteTry | ContextWriting
    | Leaving(decode: bool, write: bool, panicked: bool) | Ending | Exited

  datatype Handler = Handler(
    route: Route, verb: Method, requestID: string, reportID: string, point: Point,
    admissionHeld: bool, contextAdmitted: bool, reportTerminal: bool, writer: Writer, seen: Observation,
    records: seq<Record>, writesWhileAdmitted: seq<bool>)

  datatype World = World(tokens: Tokens, limits: Tokens, handlers: map<nat, Handler>)

  datatype ReadResult = ReadOK | ReadTooLarge | ReadInvalid

  /** What the world outside decides during one step. */
  datatype Input = Input(
    panics: bool, public: bool, authorized: bool, rateAllowed: bool, draining: bool, knownPath: bool, acceptable: bool,
    tooLong: bool, read: ReadResult, failed: bool, cancelled: bool, policy: bool, marshalError: Option<ErrorKey>,
    refusal: Option<ErrorKey>, raw: Raw, size: nat, diagnostics: Option<Diagnostics>, requestBytes: nat, durations: Durations)

  predicate InputOK(input: Input) {
    && input.durations.total >= 0 && input.durations.runner >= 0 && input.durations.marshal >= 0 && input.durations.write >= 0
    && (input.marshalError.Some? ==> input.marshalError.value in {KeyCompactTooLarge, KeyFullTooLarge, KeySerialization})
    && (input.refusal.Some? ==> input.refusal.value in {KeyInvalidJSON, KeyInvalidRequest, KeyServerBusy, KeyInternal, KeySerialization})
  }

  function Free(w: World, kind: Kind): bool {
    match kind
    case Admission => w.tokens.admission < w.limits.admission
    case Decodes => w.tokens.decodes < w.limits.decodes
    case Writes => w.tokens.writes < w.limits.writes
    case Contexts => w.tokens.contexts < w.limits.contexts
  }

  function Count(t: Tokens, kind: Kind): nat {
    match kind
    case Admission => t.admission
    case Decodes => t.decodes
    case Writes => t.writes
    case Contexts => t.contexts
  }

  /** A send to or a receive from a semaphore channel; a receive from an empty one would block forever. */
  function Moved(t: Tokens, kind: Kind, delta: int): Tokens {
    var n := Count(t, kind) + delta;
    var m := if n < 0 then 0 else n;
    match kind
    case Admission => t.(admission := m)
    case Decodes => t.(decodes := m)
    case Writes => t.(writes := m)
    case Contexts => t.(contexts := m)
  }

  // ----- The parts of a step -----

  /** Everything that decides which tokens a handler holds. */
  predicate SameHold(h: Handler, g: Handler) {
    g.route == h.route && g.verb == h.verb && g.point == h.point && g.admissionHeld == h.admissionHeld && g.contextAdmitted == h.contextAdmitted
  }

  predicate LeftAs(h: Handler, g: Handler) { SameHold(h.(point := Leaving(false, false, false)), g) }

  predicate EndsReport(event: Event) { event == ReportFinish || event == ReportReject || event == ReportCancel }

  function RecordOf(w: World, h: Handler, event: Event, outcome: Outcome, status: nat, input: Input): Record {
    var context := h.route == IPContext;
    Record(event, outcome, h.requestID, h.reportID, h.verb, h.route, status,
           if context then w.tokens.contexts else w.tokens.admission, if context then w.limits.contexts else w.limits.admission,
           input.requestBytes, h.seen.attempted, h.seen.actual, input.durations, None)
  }

  function Told(h: Handler, r: Record): (g: Handler)
    ensures SameHold(h, g)
  {
    h.(records := h.records + [r], reportTerminal := h.reportTerminal || EndsReport(r.event))
  }

  function Tell(w: World, h: Handler, event: Event, outcome: Outcome, status: nat, input: Input): (g: Handler)
    ensures SameHold(h, g)
  {
    Told(h, RecordOf(w, h, event, outcome, status, input))
  }

  /** The finishing record of a report that was sent, with its diagnostics when they are valid. */
  function TellSent(w: World, h: Handler, input: Input): (g: Handler)
    ensures SameHold(h, g)
  {
    var r := RecordOf(w, h, ReportFinish, h.seen.outcome, 0, input);
    var candidate := r.(diagnostics := input.diagnostics);
    Told(h, if r.outcome == OK && r.attempted > 0 && r.actual == r.attempted && ValidDiagnostics(candidate) then candidate else r)
  }

  function Answer(h: Handler, key: ErrorKey, input: Input): (g: Handler)
    ensures SameHold(h, g)
  {
    h.(writer := ErrorWritten(h.writer, key, input.raw), seen := ErrorObserved(h.seen, key, input.size, input.raw),
       writesWhileAdmitted := h.writesWhileAdmitted + [h.admissionHeld])
  }

  function Send(h: Handler, input: Input): (g: Handler)
    ensures SameHold(h, g)
  {
    h.(writer := PayloadWritten(h.writer, 200, input.raw), seen := PayloadObserved(h.seen, 200, OK, input.size, input.raw),
       writesWhileAdmitted := h.writesWhileAdmitted + [h.admissionHeld])
  }

  function SendEmpty(h: Handler, input: Input): (g: Handler)
    ensures SameHold(h, g)
  {
    h.(writer := HeaderWritten(h.writer, 204, input.raw.headerPanics),
       seen := h.seen.(status := 204, outcome := if input.raw.headerPanics then WriteFailedZero else OK),
       writesWhileAdmitted := h.writesWhileAdmitted + [h.admissionHeld])
  }

  function Leave(h: Handler): (g: Handler)
    ensures LeftAs(h, g)
  { h.(point := Leaving(false, false, false)) }

  function Reject(w: World, h: Handler, key: ErrorKey, input: Input): (g: Handler)
    ensures LeftAs(h, g)
  {
    Leave(Answer(Tell(w, h, ReportReject, OutcomeOf(key), 0, input), key, input))
  }

  function Cancelled499(h: Handler): (g: Handler)
    ensures SameHold(h, g)
  { h.(seen := h.seen.(status := 499, outcome := Cancelled)) }

  function FailContext(h: Handler, key: ErrorKey, input: Input): (g: Handler)
    ensures LeftAs(h, g)
  {
    Leave(if input.cancelled then Cancelled499(h) else Answer(h, key, input))
  }

  /** Refuses a report or any other request. */
  function Refuse(w: World, h: Handler, key: ErrorKey, input: Input): (g: Handler)
    ensures LeftAs(h, g)
  {
    if h.route == Reports then Reject(w, h, key, input) else Leave(Answer(h, key, input))
  }

  function Released(w: World, h: Handler): (World, Handler) {
    if h.admissionHeld then (w.(tokens := Moved(w.tokens, Admission, -1)), h.(admissionHeld := false)) else (w, h)
  }

  /** Releases admission, answers with an error and finishes the report. */
  function FinishWith(w: World, h: Handler, key: ErrorKey, input: Input): (r: (World, Handler))
    ensures r.0 == Released(w, h).0 && LeftAs(Released(w, h).1, r.1)
  {
    var (v, g) := Released(w, h);
    var a := Answer(g, key, input);
    (v, Leave(Tell(v, a, ReportFinish, a.seen.outcome, 0, input)))
  }

  function Contain(w: World, h: Handler, input: Input): (g: Handler)
    ensures SameHold(h, g)
  {
    var a := if h.writer.attempted && h.writer.status != 0 then h.(seen := h.seen.(status := h.writer.status, outcome := PanicSafeFailure))
             else
               var b := Answer(h, KeyInternal, input);
               b.(seen := b.seen.(outcome := PanicSafeFailure));
    if a.route == Reports && !a.reportTerminal then Tell(w, a, ReportFinish, PanicSafeFailure, 0, input) else a
  }

  // ----- The steps -----

  predicate HoldsDecode(p: Point) { p.ReportDecoding? || p.ContextReading? || (p.Leaving? && p.decode) }

  predicate HoldsWrite(p: Point) { p.ReportWriteHeld? || p.ReportWriting? || p.ContextWriting? || (p.Leaving? && p.write) }

  function Dispatch(h: Handler, input: Input): (g: Handler)
    ensures LeftAs(h, g) || SameHold(h.(point := if h.route == IPContext then ContextTry else ReportQuery), g)
    ensures g.point == ReportQuery ==> h.route == Reports || h.route == NoRoute
    ensures g.point == ContextTry ==> h.route == IPContext
  {
    match h.route
    case Health => Leave(if input.failed then Answer(h, KeySerialization, input) else Send(h, input))
    case Checks => Leave(if input.failed then Answer(h, KeySerialization, input) else Send(h, input))
    case Options => Leave(SendEmpty(h, input))
    case IPContext => if input.cancelled then Leave(Cancelled499(h)) else h.(point := ContextTry)
    case _ => h.(point := ReportQuery)
  }

  function AtGate(w: World, h: Handler, input: Input): (g: Handler)
    ensures LeftAs(h, g) || SameHold(h.(point := if h.route == IPContext then ContextTry else ReportQuery), g)
    ensures g.point == ReportQuery ==> h.route == Reports
    ensures g.point == ContextTry ==> h.route == IPContext
  {
    if input.public && h.verb != OptionsMethod && !input.authorized then Refuse(w, h, KeyUnauthorized, input)
    else if input.public && h.verb != OptionsMethod && !input.rateAllowed then Refuse(w, h, KeyRateLimited, input)
    else if h.route == NoRoute then
      Leave(Answer(h, if input.knownPath then KeyMethodNotAllowed else KeyRouteNotFound, input))
    else if h.route != Options && input.draining then Refuse(w, h, KeyServerDraining, input)
    else Dispatch(h, input)
  }

  function OnReport(w: World, h: Handler, input: Input): (World, Handler) {
    match h.point
    case ReportQuery =>
      if !input.acceptable then (w, Reject(w, h, KeyInvalidRequest, input))
      else if input.tooLong then (w, Reject(w, h, KeyRequestTooLarge, input))
      else (w, h.(point := ReportDecodeTry))
    case ReportDecodeTry =>
      if Free(w, Decodes) then (w.(tokens := Moved(w.tokens, Decodes, 1)), h.(point := ReportDecoding))
      else (w, Reject(w, h, KeyBodyDecodeCapacity, input))
    case ReportDecoding =>
      (w.(tokens := Moved(w.tokens, Decodes, -1)),
       h.(point := match input.read
                   case ReadOK => ReportValidate
                   case ReadTooLarge => ReportRefused(KeyRequestTooLarge)
                   case ReadInvalid => ReportRefused(KeyInvalidJSON)))
    case ReportRefused(key) => (w, Reject(w, h, key, input))
    case ReportValidate => (w, if input.acceptable then h.(point := AtAdmission) else Reject(w, h, KeyInvalidRequest, input))
    case AtAdmission =>
      if Free(w, Admission) then
        var v := w.(tokens := Moved(w.tokens, Admission, 1));
        (v, Tell(v, Tell(v, h.(admissionHeld := true, point := ReportRun), ReportAdmit, OK, 0, input), ReportStart, OK, 0, input))
      else (w, Reject(w, h, KeyServerBusy, input))
    case ReportRun =>
      if input.failed then FinishWith(w, h, KeyInternal, input)
      else if input.cancelled then
        var (v, g) := Released(w, h);
        (v, Leave(Tell(v, Cancelled499(g), ReportCancel, Cancelled, 0, input)))
      else
        var c := Tell(w, h, ReportComputed, OK, 0, input);
        if input.public && input.policy then
          var (v, g) := Released(w, c);
          (v, Reject(v, g, KeyNetworkPolicy, input))
        else (w, c.(point := ReportMarshal))
    case ReportMarshal =>
      if input.marshalError.Some? then FinishWith(w, h, input.marshalError.value, input) else (w, h.(point := ReportWriteTry))
    case ReportWriteTry =>
      if Free(w, Writes) then (w.(tokens := Moved(w.tokens, Writes, 1)), h.(point := ReportWriteHeld))
      else FinishWith(w, h, KeyWriteCapacity, input)
    case ReportWriteHeld =>
      var (v, g) := Released(w, h);
      (v, g.(point := ReportWriting))
    case _ => (w, TellSent(w, Send(h, input), input).(point := Leaving(false, true, false)))
  }

  function OnContext(w: World, h: Handler, input: Input): (World, Handler) {
    match h.point
    case ContextTry =>
      if Free(w, Contexts) then
        var a := h.(contextAdmitted := true);
        (w.(tokens := Moved(w.tokens, Contexts, 1)),
         if input.tooLong then FailContext(a, KeyRequestTooLarge, input) else a.(point := ContextDecodeTry))
      else (w, FailContext(h, KeyServerBusy, input))
    case ContextDecodeTry =>
      if Free(w, Decodes) then (w.(tokens := Moved(w.tokens, Decodes, 1)), h.(point := ContextReading))
      else (w, FailContext(h, KeyBodyDecodeCapacity, input))
    case ContextReading =>
      (w.(tokens := Moved(w.tokens, Decodes, -1)),
       match input.read
       case ReadOK => h.(point := ContextLookup)
       case ReadTooLarge => FailContext(h, KeyRequestTooLarge, input)
       case ReadInvalid => FailContext(h, KeyInvalidJSON, input))
    case ContextLookup =>
      (w, if input.refusal.Some? then FailContext(h, input.refusal.value, input)
          else if input.cancelled then Leave(Cancelled499(h)) else h.(point := ContextWriteTry))
    case ContextWriteTry =>
      if Free(w, Writes) then (w.(tokens := Moved(w.tokens, Writes, 1)), h.(point := ContextWriting))
      else (w, FailContext(h, KeyWriteCapacity, input))
    case _ => (w, Send(h, input).(point := Leaving(false, true, false)))
  }

  function OnLeaving(w: World, h: Handler, input: Input): (World, Handler)
    requires h.point.Leaving?
  {
    if h.point.decode then (w.(tokens := Moved(w.tokens, Decodes, -1)), h.(point := h.point.(decode := false)))
    else if h.point.write then (w.(tokens := Moved(w.tokens, Writes, -1)), h.(point := h.point.(write := false)))
    else if h.admissionHeld then Released(w, h)
    else (w, (if h.point.panicked then Contain(w, h, input) else h).(point := Ending))
  }

  function OnEnding(w: World, h: Handler, input: Input): (World, Handler) {
    var a := if h.seen.status != 0 then h
             else if h.writer.attempted && h.writer.status != 0 then h.(seen := h.seen.(status := h.writer.status))
             else h.(seen := h.seen.(status := 500, outcome := PanicSafeFailure));
    var b := Tell(w, a, HTTPTerminal, a.seen.outcome, a.seen.status, input).(point := Exited);
    (if b.contextAdmitted then w.(tokens := Moved(w.tokens, Contexts, -1)) else w, b)
  }

  predicate OnReportPath(p: Point) {
    p.ReportQuery? || p.ReportDecodeTry? || p.ReportDecoding? || p.ReportRefused? || p.ReportValidate? || p.AtAdmission? || p.ReportRun?
    || p.ReportMarshal? || p.ReportWriteTry? || p.ReportWriteHeld? || p.ReportWriting?
  }

  predicate OnContextPath(p: Point) {
    p.ContextTry? || p.ContextDecodeTry? || p.ContextReading? || p.ContextLookup? || p.ContextWriteTry? || p.ContextWriting?
  }

  function Advance(w: World, h: Handler, input: Input): (World, Handler) {
    if h.point.Exited? then (w, h)
    else if h.point.Leaving? then OnLeaving(w, h, input)
    else if h.point.Ending? then OnEnding(w, h, input)
    else if input.panics then (w, h.(point := Leaving(HoldsDecode(h.point), HoldsWrite(h.point), true)))
    else if h.point.Entered? then
      (w, (if h.route == Reports then Tell(w, h, ReportSubmit, OK, 0, input) else h).(point := Gate))
    else if h.point.Gate? then (w, AtGate(w, h, input))
    else if OnReportPath(h.point) then OnReport(w, h, input)
    else OnContext(w, h, input)
  }

  datatype Move = Arrive(id: nat, route: Route, verb: Method, requestID: string, reportID: string) | Step(id: nat, input: Input)

  function Turn(w: World, e: Move): World {
    match e
    case Arrive(id, route, verb, requestID, reportID) =>
      if id in w.handlers then w
      else w.(handlers := w.handlers[id := Handler(route, verb, requestID, reportID, Entered, false, false, false,
                                                   Writer(false, false, 0), Observation(0, Unset, 0, 0), [], [])])
    case Step(id, input) =>
      if id !in w.handlers then w
      else
        var (v, g) := Advance(w, w.handlers[id], input);
        v.(handlers := w.handlers[id := g])
  }

  // ----- Tokens are conserved -----

  predicate Holds(h: Handler, kind: Kind) {
    match kind
    case Admission => h.admissionHeld
    case Decodes => HoldsDecode(h.point)
    case Writes => HoldsWrite(h.point)
    case Contexts => h.contextAdmitted && !h.point.Exited?
  }

  function Holders(handlers: map<nat, Handler>, kind: Kind): set<nat> { set id | id in handlers && Holds(handlers[id], kind) }

  /** Each semaphore holds exactly one token for each handler that holds one, and no more than its capacity. */
  ghost predicate Conserved(w: World) {
    forall kind: Kind :: Count(w.tokens, kind) == |Holders(w.handlers, kind)| && Count(w.tokens, kind) <= Count(w.limits, kind)
  }

  function Weight(h: Handler, kind: Kind): int { if Holds(h, kind) then 1 else 0 }

  lemma OneMember(s: set<nat>, id: nat)
    ensures |s| == |s - {id}| + if id in s then 1 else 0
  {
    if id in s {
      assert s == s - {id} + {id};
    } else {
      assert s == s - {id};
    }
  }

  lemma OneChanged(handlers: map<nat, Handler>, id: nat, h: Handler, kind: Kind)
    requires id in handlers
    ensures Holders(handlers[id := h], kind) - {id} == Holders(handlers, kind) - {id}
    ensures (id in Holders(handlers[id := h], kind) <==> Holds(h, kind)) && (id in Holders(handlers, kind) <==> Holds(handlers[id], kind))
  {
    hide Holds;
  }

  lemma HoldersChange(handlers: map<nat, Handler>, id: nat, h: Handler, kind: Kind)
    requires id in handlers
    ensures |Holders(handlers[id := h], kind)| == |Holders(handlers, kind)| - Weight(handlers[id], kind) + Weight(h, kind)
    ensures Holds(handlers[id], kind) ==> |Holders(handlers, kind)| > 0
  {
    hide Holds, Holders;
    OneChanged(handlers, id, h, kind);
    OneMember(Holders(handlers, kind), id);
    OneMember(Holders(handlers[id := h], kind), id);
  }

  lemma HoldersArrive(handlers: map<nat, Handler>, id: nat, h: Handler, kind: Kind)
    requires id !in handlers && !Holds(h, kind)
    ensures Holders(handlers[id := h], kind) == Holders(handlers, kind)
  {
  }

  /** What a handler's step does to one semaphore is what it does to the handler's own hold on it. */
  ghost predicate Balanced(w: World, h: Handler, v: World, g: Handler) {
    && v.limits == w.limits && v.handlers == w.handlers
    && forall kind: Kind ::
         && Count(v.tokens, kind) == Count(w.tokens, kind) - Weight(h, kind) + Weight(g, kind)
         && (Count(v.tokens, kind) > Count(w.tokens, kind) ==> Count(v.tokens, kind) <= Count(w.limits, kind))
  }

  /** The admission token is held from admission until the write, and only by reports. */
  ghost predicate Placed(h: Handler) {
    && (h.admissionHeld ==> h.point.ReportRun? || h.point.ReportMarshal? || h.point.ReportWriteTry? || h.point.ReportWriteHeld? || h.point.Leaving?)
    && (h.point.ReportRun? || h.point.ReportMarshal? || h.point.ReportWriteTry? || h.point.ReportWriteHeld? ==> h.admissionHeld)
    && (h.contextAdmitted ==> h.route == IPContext && (OnContextPath(h.point) || h.point.Leaving? || h.point.Ending? || h.point.Exited?))
    && (h.point.ContextTry? ==> !h.contextAdmitted)
    && (OnReportPath(h.point) ==> h.route == Reports) && (OnContextPath(h.point) ==> h.route == IPContext)
  }

  /** A handler's tokens are in the semaphores. */
  ghost predicate Backed(w: World, h: Handler) { forall kind: Kind :: Holds(h, kind) ==> Count(w.tokens, kind) > 0 }

  predicate BeforeAdmission(p: Point) {
    p.ReportQuery? || p.ReportDecodeTry? || p.ReportDecoding? || p.ReportRefused? || p.ReportValidate?
  }

  lemma DecodeBalanced(w: World, h: Handler, input: Input)
    requires Placed(h) && Backed(w, h) && BeforeAdmission(h.point)
    ensures var (v, g) := OnReport(w, h, input); Balanced(w, h, v, g) && Placed(g)
  {
    hide Told, Tell, TellSent, Answer, Send, SendEmpty, Cancelled499, Leave, Reject, FailContext, Refuse, FinishWith, Contain, AtGate;
  }

  lemma RunBalanced(w: World, h: Handler, input: Input)
    requires Placed(h) && Backed(w, h) && (h.point.AtAdmission? || h.point.ReportRun? || h.point.ReportMarshal?)
    ensures var (v, g) := OnReport(w, h, input); Balanced(w, h, v, g) && Placed(g)
  {
    hide Told, Tell, TellSent, Answer, Send, SendEmpty, Cancelled499, Leave, Reject, FailContext, Refuse, FinishWith, Contain, AtGate;
  }

  lemma WriteBalanced(w: World, h: Handler, input: Input)
    requires Placed(h) && Backed(w, h) && (h.point.ReportWriteTry? || h.point.ReportWriteHeld? || h.point.ReportWriting?)
    ensures var (v, g) := OnReport(w, h, input); Balanced(w, h, v, g) && Placed(g)
  {
    hide Told, Tell, TellSent, Answer, Send, SendEmpty, Cancelled499, Leave, Reject, FailContext, Refuse, FinishWith, Contain, AtGate;
  }

  lemma ReportBalanced(w: World, h: Handler, input: Input)
    requires Placed(h) && Backed(w, h) && OnReportPath(h.point)
    ensures var (v, g) := OnReport(w, h, input); Balanced(w, h, v, g) && Placed(g)
  {
    hide OnReport, Placed, Backed, Balanced;
    if BeforeAdmission(h.point) {
      DecodeBalanced(w, h, input);
    } else if h.point.ReportWriteTry? || h.point.ReportWriteHeld? || h.point.ReportWriting? {
      WriteBalanced(w, h, input);
    } else {
      RunBalanced(w, h, input);
    }
  }

  lemma ReadBalanced(w: World, h: Handler, input: Input)
    requires Placed(h) && Backed(w, h) && (h.point.ContextTry? || h.point.ContextDecodeTry? || h.point.ContextReading?)
    ensures var (v, g) := OnContext(w, h, input); Balanced(w, h, v, g) && Placed(g)
  {
    hide Told, Tell, TellSent, Answer, Send, SendEmpty, Cancelled499, Leave, Reject, FailContext, Refuse, FinishWith, Contain, AtGate;
  }

  lemma LookupBalanced(w: World, h: Handler, input: Input)
    requires Placed(h) && Backed(w, h) && (h.point.ContextLookup? || h.point.ContextWriteTry? || h.point.ContextWriting?)
    ensures var (v, g) := OnContext(w, h, input); Balanced(w, h, v, g) && Placed(g)
  {
    hide Told, Tell, TellSent, Answer, Send, SendEmpty, Cancelled499, Leave, Reject, FailContext, Refuse, FinishWith, Contain, AtGate;
  }

  lemma ContextBalanced(w: World, h: Handler, input: Input)
    requires Placed(h) && Backed(w, h) && OnContextPath(h.point)
    ensures var (v, g) := OnContext(w, h, input); Balanced(w, h, v, g) && Placed(g)
  {
    hide OnContext, Placed, Backed, Balanced;
    if h.point.ContextTry? || h.point.ContextDecodeTry? || h.point.ContextReading? {
      ReadBalanced(w, h, input);
    } else {
      LookupBalanced(w, h, input);
    }
  }

  lemma LeavingBalanced(w: World, h: Handler, input: Input)
    requires Placed(h) && Backed(w, h) && h.point.Leaving?
    ensures var (v, g) := OnLeaving(w, h, input); Balanced(w, h, v, g) && Placed(g)
  {
    hide Contain;
  }

  lemma EndingBalanced(w: World, h: Handler, input: Input)
    requires Placed(h) && Backed(w, h) && h.point.Ending?
    ensures var (v, g) := OnEnding(w, h, input); Balanced(w, h, v, g) && Placed(g)
  {
    hide Tell;
  }

  lemma AdvanceBalanced(w: World, h: Handler, input: Input)
    requires Placed(h) && Backed(w, h)
    ensures var (v, g) := Advance(w, h, input); Balanced(w, h, v, g) && Placed(g)
  {
    hide Told, Tell, AtGate, OnReport, OnContext, OnLeaving, OnEnding, Moved;
    if h.point.Leaving? {
      LeavingBalanced(w, h, input);
    } else if h.point.Ending? {
      EndingBalanced(w, h, input);
    } else if h.point.Exited? || input.panics || h.point.Entered? || h.point.Gate? {
    } else if OnReportPath(h.point) {
      ReportBalanced(w, h, input);
    } else {
      ContextBalanced(w, h, input);
    }
  }

  // ----- Every request is accounted for -----

  function CountOf(records: seq<Record>, terminal: bool): nat {
    if records == [] then 0
    else
      var last := records[|records| - 1];
      CountOf(records[..|records| - 1], terminal)
      + if (terminal && last.event == HTTPTerminal) || (!terminal && EndsReport(last.event)) then 1 else 0
  }

  lemma CountMore(records: seq<Record>, r: Record, terminal: bool)
    ensures CountOf(records + [r], terminal) == CountOf(records, terminal)
            + if (terminal && r.event == HTTPTerminal) || (!terminal && EndsReport(r.event)) then 1 else 0
  {
    assert (records + [r])[..|records|] == records;
  }

  ghost predicate AllValid(records: seq<Record>) { forall i :: 0 <= i < |records| ==> Valid(records[i]) }

  ghost predicate NeverAdmitted(writes: seq<bool>) { forall i :: 0 <= i < |writes| ==> !writes[i] }

  ghost predicate WriterOK(w: Writer) { w.attempted ==> 100 <= w.status <= 599 }

  /** The handler's records are valid, it never wrote while admitted, and its flag says whether its report
      has been ended. */
  ghost predicate Base(h: Handler) {
    && ValidRequestID(h.requestID) && (if h.route == Reports then ValidReportID(h.reportID) else h.reportID == "")
    && RouteMethod(h.route, h.verb) && WriterOK(h.writer) && h.seen.actual <= h.seen.attempted
    && AllValid(h.records) && NeverAdmitted(h.writesWhileAdmitted)
    && CountOf(h.records, false) == (if h.reportTerminal then 1 else 0) && (h.reportTerminal ==> h.route == Reports)
  }

  /** The terminal record can be told. */
  ghost predicate Tellable(h: Handler) {
    100 <= h.seen.status <= 599 && TerminalStatus(h.seen.outcome, h.seen.status, h.route)
  }

  ghost predicate Finished(h: Handler) { (h.route == Reports ==> h.reportTerminal) && Tellable(h) }

  ghost predicate Accounted(h: Handler) {
    && Base(h) && CountOf(h.records, true) == (if h.point.Exited? then 1 else 0)
    && (if h.point.Ending? || (h.point.Leaving? && !h.point.panicked) then Finished(h)
        else if h.point.Exited? then h.route == Reports ==> h.reportTerminal
        else !h.reportTerminal)
    && (h.point.ReportRefused? ==> OutcomeOf(h.point.key) in {RequestTooLarge, InvalidJSON})
  }

  ghost predicate Within(w: World) { w.tokens.admission <= w.limits.admission && w.tokens.contexts <= w.limits.contexts }

  lemma RecordValid(w: World, h: Handler, event: Event, outcome: Outcome, input: Input)
    requires Base(h) && Within(w) && InputOK(input) && h.route == Reports && event != HTTPTerminal && ReportEventOutcome(event, outcome)
    ensures Valid(RecordOf(w, h, event, outcome, 0, input))
  {
  }

  lemma ToldKeeps(h: Handler, r: Record)
    requires Base(h) && Valid(r) && (EndsReport(r.event) ==> !h.reportTerminal && h.route == Reports)
    ensures Base(Told(h, r)) && CountOf(Told(h, r).records, true) == CountOf(h.records, true) + if r.event == HTTPTerminal then 1 else 0
    ensures Told(h, r).reportTerminal == (h.reportTerminal || EndsReport(r.event))
    ensures Told(h, r).seen == h.seen
  {
    hide Valid;
    CountMore(h.records, r, false);
    CountMore(h.records, r, true);
    var t := Told(h, r).records;
    forall i | 0 <= i < |t| ensures Valid(t[i]) {
    }
  }

  lemma TellKeeps(w: World, h: Handler, event: Event, outcome: Outcome, input: Input)
    requires Base(h) && Within(w) && InputOK(input) && h.route == Reports && event != HTTPTerminal && ReportEventOutcome(event, outcome)
    requires !h.reportTerminal
    ensures var g := Tell(w, h, event, outcome, 0, input);
            && Base(g) && CountOf(g.records, true) == CountOf(h.records, true) && g.reportTerminal == EndsReport(event) && g.seen == h.seen
  {
    hide Base, Valid, CountOf;
    RecordValid(w, h, event, outcome, input);
    ToldKeeps(h, RecordOf(w, h, event, outcome, 0, input));
  }

  lemma WritesMore(writes: seq<bool>)
    requires NeverAdmitted(writes)
    ensures NeverAdmitted(writes + [false])
  {
  }

  lemma AnswerKeeps(h: Handler, key: ErrorKey, input: Input)
    requires Base(h) && !h.admissionHeld
    ensures var g := Answer(h, key, input);
            && Base(g) && Tellable(g) && g.records == h.records && g.reportTerminal == h.reportTerminal && g.seen.outcome != Unset
            && (g.seen.outcome == OutcomeOf(key) || g.seen.outcome == WriteFailedZero || g.seen.outcome == WriteFailedPartial)
  {
    hide AllValid, CountOf, ErrorObserved;
    ErrorsCanBeTold(h.seen, key, input.size, input.raw, h.route);
    WritesMore(h.writesWhileAdmitted);
  }

  lemma SendKeeps(h: Handler, input: Input)
    requires Base(h) && !h.admissionHeld
    ensures var g := Send(h, input);
            && Base(g) && Tellable(g) && g.records == h.records && g.reportTerminal == h.reportTerminal
            && g.seen.outcome in {OK, WriteFailedZero, WriteFailedPartial}
  {
    hide AllValid, CountOf;
    WritesMore(h.writesWhileAdmitted);
  }

  /** A handler that is still at work. */
  ghost predicate Working(h: Handler) {
    Base(h) && CountOf(h.records, true) == 0 && !h.reportTerminal
  }

  ghost predicate LeftWell(h: Handler) {
    Base(h) && CountOf(h.records, true) == 0 && Finished(h) && h.point == Leaving(false, false, false)
  }

  lemma RejectKeeps(w: World, h: Handler, key: ErrorKey, input: Input)
    requires Working(h) && Within(w) && InputOK(input) && h.route == Reports && !h.admissionHeld
    requires OutcomeOf(key) in {Unauthorized, RateLimited, InvalidJSON, InvalidRequest, RequestTooLarge, ServerCapacity, BodyCapacity, ServerDraining, Policy}
    ensures LeftWell(Reject(w, h, key, input))
  {
    hide AllValid, CountOf, Tell, Answer;
    TellKeeps(w, h, ReportReject, OutcomeOf(key), input);
    AnswerKeeps(Tell(w, h, ReportReject, OutcomeOf(key), 0, input), key, input);
  }

  lemma LeaveKeeps(h: Handler)
    requires Base(h) && CountOf(h.records, true) == 0 && Finished(h)
    ensures LeftWell(Leave(h))
  {
    hide AllValid, CountOf;
  }

  lemma ReleasedKeeps(w: World, h: Handler)
    requires Base(h)
    ensures var (v, g) := Released(w, h);
            && Base(g) && !g.admissionHeld && g.records == h.records && g.reportTerminal == h.reportTerminal && g.route == h.route
            && g.seen == h.seen && g.point == h.point && g.contextAdmitted == h.contextAdmitted
            && (Within(w) ==> Within(v)) && v.limits == w.limits
  {
    hide AllValid, CountOf;
  }

  lemma FinishWithKeeps(w: World, h: Handler, key: ErrorKey, input: Input)
    requires Working(h) && Within(w) && InputOK(input) && h.route == Reports
    requires OutcomeOf(key) in {PanicSafeFailure, WriteCapacity, Serialization, FullSize, CompactSize}
    ensures LeftWell(FinishWith(w, h, key, input).1)
  {
    hide Base, CountOf, Tell, Answer, Released, Within, Leave;
    ReleasedKeeps(w, h);
    var (v, g) := Released(w, h);
    AnswerKeeps(g, key, input);
    var a := Answer(g, key, input);
    TellKeeps(v, a, ReportFinish, a.seen.outcome, input);
    LeaveKeeps(Tell(v, a, ReportFinish, a.seen.outcome, 0, input));
  }

  lemma FailContextKeeps(h: Handler, key: ErrorKey, input: Input)
    requires Working(h) && h.route == IPContext && !h.admissionHeld
    ensures LeftWell(FailContext(h, key, input))
  {
    hide AllValid, CountOf, Answer;
    AnswerKeeps(h, key, input);
  }

  lemma RefuseKeeps(w: World, h: Handler, key: ErrorKey, input: Input)
    requires Working(h) && Within(w) && InputOK(input) && !h.admissionHeld
    requires OutcomeOf(key) in {Unauthorized, RateLimited, ServerDraining}
    ensures LeftWell(Refuse(w, h, key, input))
  {
    hide AllValid, CountOf, Answer, Reject;
    if h.route == Reports {
      RejectKeeps(w, h, key, input);
    } else {
      AnswerKeeps(h, key, input);
    }
  }

  /** A handler that answers without a report record leaves well. */
  lemma PlainKeeps(h: Handler, g: Handler)
    requires Working(h) && Base(g) && g.records == h.records && g.reportTerminal == h.reportTerminal && g.route == h.route != Reports && Tellable(g)
    ensures LeftWell(Leave(g))
  {
    hide Base, CountOf, Leave;
    LeaveKeeps(g);
  }

  lemma LeftIsAccounted(h: Handler)
    requires LeftWell(h)
    ensures Accounted(h)
  {
    hide Base, CountOf;
  }

  lemma WorkingOn(h: Handler, p: Point)
    requires Working(h) && !p.Ending? && !p.Exited? && !p.ReportRefused? && !(p.Leaving? && !p.panicked)
    ensures Accounted(h.(point := p))
  {
    hide AllValid, CountOf;
  }

  lemma AnsweredPlainly(h: Handler, key: ErrorKey, input: Input)
    requires Working(h) && !h.admissionHeld && h.route != Reports
    ensures Accounted(Leave(Answer(h, key, input)))
  {
    hide Base, CountOf, Leave, Answer, Accounted;
    AnswerKeeps(h, key, input);
    PlainKeeps(h, Answer(h, key, input));
    LeftIsAccounted(Leave(Answer(h, key, input)));
  }

  lemma DispatchKeeps(h: Handler, input: Input)
    requires Working(h) && !h.admissionHeld
    ensures Accounted(Dispatch(h, input))
  {
    hide Base, CountOf, Leave, Answer, Send, SendEmpty, Cancelled499, Accounted, LeftWell;
    match h.route
    case Reports => WorkingOn(h, ReportQuery);
    case NoRoute => WorkingOn(h, ReportQuery);
    case IPContext =>
      WorkingOn(h, ContextTry);
      SeenOnly(h);
      PlainKeeps(h, Cancelled499(h));
      LeftIsAccounted(Leave(Cancelled499(h)));
    case Options =>
      EmptyKeeps(h, input);
      PlainKeeps(h, SendEmpty(h, input));
      LeftIsAccounted(Leave(SendEmpty(h, input)));
    case Health =>
      AnsweredPlainly(h, KeySerialization, input);
      SendKeeps(h, input);
      PlainKeeps(h, Send(h, input));
      LeftIsAccounted(Leave(Send(h, input)));
    case Checks =>
      AnsweredPlainly(h, KeySerialization, input);
      SendKeeps(h, input);
      PlainKeeps(h, Send(h, input));
      LeftIsAccounted(Leave(Send(h, input)));
  }

  lemma RefusedAtGate(w: World, h: Handler, key: ErrorKey, input: Input)
    requires Working(h) && Within(w) && InputOK(input) && !h.admissionHeld && OutcomeOf(key) in {Unauthorized, RateLimited, ServerDraining}
    ensures Accounted(Refuse(w, h, key, input))
  {
    hide Refuse, Working, LeftWell, Accounted, Within, InputOK;
    RefuseKeeps(w, h, key, input);
    LeftIsAccounted(Refuse(w, h, key, input));
  }

  lemma GateKeeps(w: World, h: Handler, input: Input)
    requires Working(h) && Within(w) && InputOK(input) && !h.admissionHeld
    ensures Accounted(AtGate(w, h, input))
  {
    hide Answer, Leave, Refuse, Dispatch, Working, Accounted, Within, InputOK;
    RefusedAtGate(w, h, KeyUnauthorized, input);
    RefusedAtGate(w, h, KeyRateLimited, input);
    RefusedAtGate(w, h, KeyServerDraining, input);
    if h.route == NoRoute {
      AnsweredPlainly(h, KeyMethodNotAllowed, input);
      AnsweredPlainly(h, KeyRouteNotFound, input);
    }
    DispatchKeeps(h, input);
  }

  lemma EmptyKeeps(h: Handler, input: Input)
    requires Base(h) && !h.admissionHeld
    ensures var g := SendEmpty(h, input); Base(g) && Tellable(g) && g.records == h.records && g.reportTerminal == h.reportTerminal
  {
    hide AllValid, CountOf;
    WritesMore(h.writesWhileAdmitted);
  }

  lemma SeenOnly(h: Handler)
    requires Base(h)
    ensures var g := Cancelled499(h);
            && Base(g) && g.records == h.records && g.reportTerminal == h.reportTerminal
            && (h.route == Reports || h.route == IPContext ==> Tellable(g))
  {
    hide AllValid, CountOf;
  }

  lemma Rejected(w: World, h: Handler, key: ErrorKey, input: Input)
    requires Working(h) && Within(w) && InputOK(input) && h.route == Reports && !h.admissionHeld
    requires OutcomeOf(key) in {InvalidJSON, InvalidRequest, RequestTooLarge, ServerCapacity, BodyCapacity, ServerDraining, Policy}
    ensures Accounted(Reject(w, h, key, input))
  {
    hide Reject, Working, LeftWell, Accounted, Within, InputOK;
    RejectKeeps(w, h, key, input);
    LeftIsAccounted(Reject(w, h, key, input));
  }

  lemma FinishedWith(w: World, h: Handler, key: ErrorKey, input: Input)
    requires Working(h) && Within(w) && InputOK(input) && h.route == Reports
    requires OutcomeOf(key) in {PanicSafeFailure, WriteCapacity, Serialization, FullSize, CompactSize}
    ensures Accounted(FinishWith(w, h, key, input).1)
  {
    hide FinishWith, Working, LeftWell, Accounted, Within, InputOK;
    FinishWithKeeps(w, h, key, input);
    LeftIsAccounted(FinishWith(w, h, key, input).1);
  }

  lemma WorkingAt(h: Handler, p: Point)
    requires Working(h)
    ensures Working(h.(point := p)) && Working(h.(point := p, admissionHeld := true)) && Working(h.(point := p, contextAdmitted := true))
  {
    hide AllValid, CountOf;
  }

  /** The runs of a report that was admitted. */
  lemma AdmitKeeps(w: World, h: Handler, input: Input)
    requires Working(h) && Within(w) && InputOK(input) && h.route == Reports && Free(w, Admission)
    ensures var v := w.(tokens := Moved(w.tokens, Admission, 1));
            Accounted(Tell(v, Tell(v, h.(admissionHeld := true, point := ReportRun), ReportAdmit, OK, 0, input), ReportStart, OK, 0, input))
  {
    hide Base, CountOf, Tell;
    var v := w.(tokens := Moved(w.tokens, Admission, 1));
    var a := h.(admissionHeld := true, point := ReportRun);
    WorkingAt(h, ReportRun);
    TellKeeps(v, a, ReportAdmit, OK, input);
    TellKeeps(v, Tell(v, a, ReportAdmit, OK, 0, input), ReportStart, OK, input);
  }

  lemma CancelKeeps(w: World, h: Handler, input: Input)
    requires Working(h) && Within(w) && InputOK(input) && h.route == Reports
    ensures var (v, g) := Released(w, h); Accounted(Leave(Tell(v, Cancelled499(g), ReportCancel, Cancelled, 0, input)))
  {
    hide Base, CountOf, Tell, Released, Leave, Within, Cancelled499;
    ReleasedKeeps(w, h);
    var (v, g) := Released(w, h);
    SeenOnly(g);
    TellKeeps(v, Cancelled499(g), ReportCancel, Cancelled, input);
    LeaveKeeps(Tell(v, Cancelled499(g), ReportCancel, Cancelled, 0, input));
    LeftIsAccounted(Leave(Tell(v, Cancelled499(g), ReportCancel, Cancelled, 0, input)));
  }

  lemma ComputedKeeps(w: World, h: Handler, input: Input)
    requires Working(h) && Within(w) && InputOK(input) && h.route == Reports
    ensures var c := Tell(w, h, ReportComputed, OK, 0, input);
            && Accounted(c.(point := ReportMarshal))
            && var (v, g) := Released(w, c); Accounted(Reject(v, g, KeyNetworkPolicy, input))
  {
    hide Base, CountOf, Tell, Released, Reject, Within, Accounted;
    var c := Tell(w, h, ReportComputed, OK, 0, input);
    TellKeeps(w, h, ReportComputed, OK, input);
    ReleasedKeeps(w, c);
    var (v, g) := Released(w, c);
    Rejected(v, g, KeyNetworkPolicy, input);
    WorkingOn(c, ReportMarshal);
  }

  lemma SentKeeps(w: World, h: Handler, input: Input)
    requires Working(h) && Within(w) && InputOK(input) && h.route == Reports && !h.admissionHeld
    ensures Accounted(TellSent(w, Send(h, input), input).(point := Leaving(false, true, false)))
  {
    hide AllValid, CountOf, Send, Valid;
    SendKeeps(h, input);
    var a := Send(h, input);
    SentRecordValid(w, a, input);
    var r := RecordOf(w, a, ReportFinish, a.seen.outcome, 0, input);
    var candidate := r.(diagnostics := input.diagnostics);
    ToldKeeps(a, if r.outcome == OK && r.attempted > 0 && r.actual == r.attempted && ValidDiagnostics(candidate) then candidate else r);
  }

  lemma SentRecordValid(w: World, h: Handler, input: Input)
    requires Base(h) && Within(w) && InputOK(input) && h.route == Reports && h.seen.outcome in {OK, WriteFailedZero, WriteFailedPartial}
    ensures var r := RecordOf(w, h, ReportFinish, h.seen.outcome, 0, input);
            Valid(r) && (ValidDiagnostics(r.(diagnostics := input.diagnostics)) ==> Valid(r.(diagnostics := input.diagnostics)))
  {
    RecordValid(w, h, ReportFinish, h.seen.outcome, input);
  }

  lemma ReportKeeps(w: World, h: Handler, input: Input)
    requires Working(h) && Within(w) && InputOK(input) && OnReportPath(h.point) && Placed(h)
    requires h.point.ReportRefused? ==> OutcomeOf(h.point.key) in {RequestTooLarge, InvalidJSON}
    ensures Accounted(OnReport(w, h, input).1)
  {
    hide Working, Accounted, Within, Reject, FinishWith, Released, TellSent, Send, Tell, Told, Leave, Cancelled499;
    match h.point
    case ReportQuery =>
      Rejected(w, h, KeyInvalidRequest, input);
      Rejected(w, h, KeyRequestTooLarge, input);
      WorkingOn(h, ReportDecodeTry);
    case ReportDecodeTry =>
      WorkingOn(h, ReportDecoding);
      Rejected(w, h, KeyBodyDecodeCapacity, input);
    case ReportDecoding =>
      WorkingOn(h, ReportValidate);
      RefusedOn(h, KeyRequestTooLarge);
      RefusedOn(h, KeyInvalidJSON);
    case ReportRefused(key) => RefusalRejected(w, h, key, input);
    case ReportValidate =>
      WorkingOn(h, AtAdmission);
      Rejected(w, h, KeyInvalidRequest, input);
    case AtAdmission =>
      if Free(w, Admission) {
        AdmitKeeps(w, h, input);
      } else {
        Rejected(w, h, KeyServerBusy, input);
      }
    case ReportRun =>
      FinishedWith(w, h, KeyInternal, input);
      CancelKeeps(w, h, input);
      ComputedKeeps(w, h, input);
    case ReportMarshal =>
      if input.marshalError.Some? {
        FinishedWith(w, h, input.marshalError.value, input);
      }
      WorkingOn(h, ReportWriteTry);
    case ReportWriteTry =>
      WorkingOn(h, ReportWriteHeld);
      FinishedWith(w, h, KeyWriteCapacity, input);
    case ReportWriteHeld =>
      ReleasedWorking(w, h);
    case ReportWriting => SentKeeps(w, h, input);
  }

  lemma RefusalRejected(w: World, h: Handler, key: ErrorKey, input: Input)
    requires Working(h) && Within(w) && InputOK(input) && h.route == Reports && !h.admissionHeld
    requires OutcomeOf(key) in {RequestTooLarge, InvalidJSON}
    ensures Accounted(Reject(w, h, key, input))
  {
    Rejected(w, h, key, input);
  }

  lemma RefusedOn(h: Handler, key: ErrorKey)
    requires Working(h) && (key == KeyRequestTooLarge || key == KeyInvalidJSON)
    ensures Accounted(h.(point := ReportRefused(key)))
  {
    hide AllValid, CountOf;
  }

  lemma ReleasedWorking(w: World, h: Handler)
    requires Working(h)
    ensures Accounted(Released(w, h).1.(point := ReportWriting))
  {
    hide Base, CountOf, Released, Accounted;
    ReleasedKeeps(w, h);
    WorkingOn(Released(w, h).1, ReportWriting);
  }

  lemma ContextFailed(h: Handler, key: ErrorKey, input: Input)
    requires Working(h) && h.route == IPContext && !h.admissionHeld
    ensures Accounted(FailContext(h, key, input))
  {
    hide FailContext, Working, LeftWell, Accounted;
    FailContextKeeps(h, key, input);
    LeftIsAccounted(FailContext(h, key, input));
  }

  lemma ContextSent(h: Handler, input: Input)
    requires Working(h) && h.route == IPContext && !h.admissionHeld
    ensures Accounted(Send(h, input).(point := Leaving(false, true, false)))
    ensures Accounted(Leave(Cancelled499(h)))
  {
    hide AllValid, CountOf, Send, Cancelled499;
    SendKeeps(h, input);
    SeenOnly(h);
  }

  lemma ContextKeeps(w: World, h: Handler, input: Input)
    requires Working(h) && Within(w) && InputOK(input) && OnContextPath(h.point) && Placed(h)
    ensures Accounted(OnContext(w, h, input).1)
  {
    hide Working, Accounted, FailContext, Send, Leave, Cancelled499, Moved, Within, InputOK;
    match h.point
    case ContextTry =>
      if Free(w, Contexts) {
        WorkingAt(h, ContextTry);
        WorkingOn(h.(contextAdmitted := true), ContextDecodeTry);
        ContextFailed(h.(contextAdmitted := true), KeyRequestTooLarge, input);
      } else {
        ContextFailed(h, KeyServerBusy, input);
      }
    case ContextDecodeTry =>
      WorkingOn(h, ContextReading);
      ContextFailed(h, KeyBodyDecodeCapacity, input);
    case ContextReading =>
      if input.read.ReadOK? {
        WorkingOn(h, ContextLookup);
      } else {
        ContextFailed(h, if input.read.ReadTooLarge? then KeyRequestTooLarge else KeyInvalidJSON, input);
      }
    case ContextLookup =>
      if input.refusal.Some? {
        ContextFailed(h, input.refusal.value, input);
      } else if input.cancelled {
        ContextSent(h, input);
      } else {
        WorkingOn(h, ContextWriteTry);
      }
    case ContextWriteTry =>
      WorkingOn(h, ContextWriting);
      ContextFailed(h, KeyWriteCapacity, input);
    case ContextWriting => ContextSent(h, input);
  }

  /** A contained panic always leaves a finished handler. */
  lemma ContainKeeps(w: World, h: Handler, input: Input)
    requires Base(h) && Within(w) && InputOK(input) && !h.admissionHeld && !h.reportTerminal && CountOf(h.records, true) == 0
    ensures var g := Contain(w, h, input); Base(g) && Finished(g) && CountOf(g.records, true) == 0
  {
    hide AllValid, CountOf, Tell, Answer;
    AnswerKeeps(h, KeyInternal, input);
    var b := Answer(h, KeyInternal, input);
    var a := if h.writer.attempted && h.writer.status != 0 then h.(seen := h.seen.(status := h.writer.status, outcome := PanicSafeFailure))
             else b.(seen := b.seen.(outcome := PanicSafeFailure));
    if a.route == Reports {
      TellKeeps(w, a, ReportFinish, PanicSafeFailure, input);
    }
  }

  lemma LeavingKeeps(w: World, h: Handler, input: Input)
    requires Accounted(h) && Within(w) && InputOK(input) && h.point.Leaving?
    ensures Accounted(OnLeaving(w, h, input).1)
  {
    hide AllValid, CountOf, Contain;
    if !h.point.decode && !h.point.write && !h.admissionHeld && h.point.panicked {
      ContainKeeps(w, h, input);
    }
  }

  lemma TerminalValid(w: World, h: Handler, input: Input)
    requires Base(h) && Finished(h) && Within(w) && InputOK(input)
    ensures Valid(RecordOf(w, h, HTTPTerminal, h.seen.outcome, h.seen.status, input))
  {
  }

  lemma EndingKeeps(w: World, h: Handler, input: Input)
    requires Accounted(h) && Within(w) && InputOK(input) && h.point.Ending?
    ensures Accounted(OnEnding(w, h, input).1)
  {
    hide AllValid, CountOf, Valid;
    TerminalValid(w, h, input);
    ToldKeeps(h, RecordOf(w, h, HTTPTerminal, h.seen.outcome, h.seen.status, input));
  }

  lemma EnteredKeeps(w: World, h: Handler, input: Input)
    requires Working(h) && Within(w) && InputOK(input)
    ensures Accounted((if h.route == Reports then Tell(w, h, ReportSubmit, OK, 0, input) else h).(point := Gate))
  {
    hide AllValid, CountOf, Tell;
    if h.route == Reports {
      TellKeeps(w, h, ReportSubmit, OK, input);
    }
  }

  lemma AdvanceKeeps(w: World, h: Handler, input: Input)
    requires Accounted(h) && Placed(h) && Within(w) && InputOK(input)
    ensures Accounted(Advance(w, h, input).1)
  {
    hide Base, CountOf, OnReport, OnContext, OnLeaving, OnEnding, AtGate, Tell, Within, InputOK;
    if h.point.Exited? {
    } else if h.point.Leaving? {
      LeavingKeeps(w, h, input);
    } else if h.point.Ending? {
      EndingKeeps(w, h, input);
    } else if input.panics {
      WorkingOn(h, Leaving(HoldsDecode(h.point), HoldsWrite(h.point), true));
    } else if h.point.Entered? {
      EnteredKeeps(w, h, input);
    } else if h.point.Gate? {
      GateKeeps(w, h, input);
    } else if OnReportPath(h.point) {
      ReportKeeps(w, h, input);
    } else {
      ContextKeeps(w, h, input);
    }
  }

  // ----- Whole runs -----

  ghost predicate MoveOK(e: Move) {
    match e
    case Arrive(_, route, verb, requestID, reportID) =>
      RouteMethod(route, verb) && ValidRequestID(requestID) && (if route == Reports then ValidReportID(reportID) else reportID == "")
    case Step(_, input) => InputOK(input)
  }

  datatype Path = HealthPath | ChecksPath | ContextPath | ReportsPath | OtherPath(underAPI: bool)

  /** The route of a request, and whether only its method was wrong. */
  function Classify(verb: Method, path: Path): (Route, bool) {
    if verb == OptionsMethod && (!path.OtherPath? || path.underAPI) then (Options, false)
    else match path
      case HealthPath => if verb == Get then (Health, false) else (NoRoute, true)
      case ChecksPath => if verb == Get then (Checks, false) else (NoRoute, true)
      case ContextPath => if verb == Post then (IPContext, false) else (NoRoute, true)
      case ReportsPath => if verb == Post then (Reports, false) else (NoRoute, true)
      case OtherPath(_) => (NoRoute, false)
  }

  /** Whatever a client sends, its handler starts with a route, a method and identifiers that can be told. */
  lemma ArrivalsAreOK(id: nat, verb: Method, path: Path, request: seq<Byte>, report: seq<Byte>)
    requires |request| == 16 && |report| == 12
    ensures var route := Classify(verb, path).0;
            MoveOK(Arrive(id, route, verb, OpaqueID("req_", request), if route == Reports then OpaqueID("", report) else ""))
  {
    IdentifiersValid(request, report);
  }

  ghost predicate Invariant(w: World) {
    && Conserved(w)
    && forall id :: id in w.handlers ==> Placed(w.handlers[id]) && Accounted(w.handlers[id])
  }

  lemma StepConserves(w: World, id: nat, v: World, g: Handler)
    requires Conserved(w) && id in w.handlers && Balanced(w, w.handlers[id], v, g)
    ensures Conserved(v.(handlers := w.handlers[id := g]))
  {
    hide Holds, Holders, Count;
    var t := v.(handlers := w.handlers[id := g]);
    forall kind: Kind ensures Count(t.tokens, kind) == |Holders(t.handlers, kind)| && Count(t.tokens, kind) <= Count(t.limits, kind) {
      HoldersChange(w.handlers, id, g, kind);
    }
  }

  lemma ConservedBacks(w: World, id: nat)
    requires Conserved(w) && id in w.handlers
    ensures Backed(w, w.handlers[id]) && Within(w)
  {
    hide Holds, Holders;
    assert Count(w.tokens, Admission) <= Count(w.limits, Admission) && Count(w.tokens, Contexts) <= Count(w.limits, Contexts);
    forall kind: Kind ensures Holds(w.handlers[id], kind) ==> Count(w.tokens, kind) > 0 {
      HoldersChange(w.handlers, id, w.handlers[id], kind);
    }
  }

  lemma StepKeeps(w: World, id: nat, input: Input)
    requires Invariant(w) && InputOK(input) && id in w.handlers
    ensures Invariant(Turn(w, Step(id, input)))
  {
    hide Advance, Placed, Accounted, Conserved, Balanced, Backed, Within, InputOK;
    var h := w.handlers[id];
    var (v, g) := Advance(w, h, input);
    ConservedBacks(w, id);
    AdvanceBalanced(w, h, input);
    AdvanceKeeps(w, h, input);
    StepConserves(w, id, v, g);
  }

  lemma ArriveKeeps(w: World, e: Move)
    requires Invariant(w) && MoveOK(e) && e.Arrive?
    ensures Invariant(Turn(w, e))
  {
    if e.id !in w.handlers {
      var t := Turn(w, e);
      var h := t.handlers[e.id];
      assert Placed(h) && Accounted(h);
      hide Placed, Accounted;
      forall kind: Kind ensures Holders(t.handlers, kind) == Holders(w.handlers, kind) {
        HoldersArrive(w.handlers, e.id, h, kind);
      }
    }
  }

  function After(w: World, moves: seq<Move>): World
    decreases |moves|
  {
    if moves == [] then w else After(Turn(w, moves[0]), moves[1..])
  }

  lemma {:induction false} AfterKeeps(w: World, moves: seq<Move>)
    requires Invariant(w) && forall i :: 0 <= i < |moves| ==> MoveOK(moves[i])
    ensures Invariant(After(w, moves)) && After(w, moves).limits == w.limits
    decreases |moves|
  {
    hide Invariant, MoveOK, Advance;
    if moves != [] {
      if moves[0].Arrive? {
        ArriveKeeps(w, moves[0]);
      } else if moves[0].id in w.handlers {
        MoveInput(moves[0]);
        StepKeeps(w, moves[0].id, moves[0].input);
      }
      LimitsStay(w, moves[0]);
      AfterKeeps(Turn(w, moves[0]), moves[1..]);
    }
  }

  lemma MoveInput(e: Move)
    requires MoveOK(e) && e.Step?
    ensures InputOK(e.input)
  {
  }

  lemma LimitsStay(w: World, e: Move)
    ensures Turn(w, e).limits == w.limits
  {
  }

  function Idle(limits: Tokens): World { World(Tokens(0, 0, 0, 0), limits, map[]) }

  /** Over every interleaving of any number of requests, panics and cancellations included: each semaphore
      holds one token for each handler that holds one; a handler that has exited holds none; no report is
      written while its admission is held; every record is valid; and a handler that has exited has told one
      terminal record and, for a report, exactly one of reject, finish and cancel. */
  lemma HandlersSafe(limits: Tokens, moves: seq<Move>)
    requires forall i :: 0 <= i < |moves| ==> MoveOK(moves[i])
    ensures var w := After(Idle(limits), moves);
            && Conserved(w) && w.limits == limits
            && forall id :: id in w.handlers ==> Safe(w.handlers[id])
  {
    var w := Idle(limits);
    assert Invariant(w) by {
      forall kind: Kind ensures Holders(w.handlers, kind) == {} {
      }
    }
    AfterKeeps(w, moves);
    var v := After(w, moves);
    assert Conserved(v) && v.limits == limits && forall id :: id in v.handlers ==> Placed(v.handlers[id]) && Accounted(v.handlers[id]);
    hide After, Conserved, AllValid, CountOf, Placed, Accounted;
    forall id | id in v.handlers ensures Safe(v.handlers[id]) {
      AccountedIsSafe(v.handlers[id]);
    }
  }

  ghost predicate Safe(h: Handler) {
    && AllValid(h.records) && NeverAdmitted(h.writesWhileAdmitted)
    && CountOf(h.records, false) <= 1 && CountOf(h.records, true) <= 1
    && (h.point.Exited? ==> CountOf(h.records, true) == 1 && (h.route == Reports ==> CountOf(h.records, false) == 1))
    && (h.point.Exited? ==> forall kind: Kind :: !Holds(h, kind))
  }

  lemma AccountedIsSafe(h: Handler)
    requires Placed(h) && Accounted(h)
    ensures Safe(h)
  {
    hide AllValid, CountOf;
  }

  /** When every handler has exited, every semaphore is empty again. */
  lemma TokensReturn(limits: Tokens, moves: seq<Move>)
    requires forall i :: 0 <= i < |moves| ==> MoveOK(moves[i])
    requires forall id :: id in After(Idle(limits), moves).handlers ==> After(Idle(limits), moves).handlers[id].point.Exited?
    ensures After(Idle(limits), moves).tokens == Tokens(0, 0, 0, 0)
  {
    HandlersSafe(limits, moves);
    var w := After(Idle(limits), moves);
    hide After, AllValid, CountOf;
    forall kind: Kind ensures Count(w.tokens, kind) == 0 {
      assert Holders(w.handlers, kind) == {};
    }
    assert Count(w.tokens, Admission) == 0 && Count(w.tokens, Decodes) == 0 && Count(w.tokens, Writes) == 0 && Count(w.tokens, Contexts) == 0;
  }
}
