/** Telemetry records and their validator (backend/api/telemetry.go:20-100, 120-145, 198-470), the error
    registry (backend/api/error_contract.go:38-55) and the response writer (backend/api/response_writer.go:60-239). */
module Telemetry {
  import opened Text

  const MAX_TARGETS := 20
  const MAX_COUNT := 0x10_0000
  const MAX_BYTES := 0x4000_0000
  const MAX_DURATION := 24 * 3600 * 1_000_000_000

  datatype Event = HTTPTerminal | ReportSubmit | ReportAdmit | ReportReject | ReportStart | ReportComputed | ReportFinish | ReportCancel

  datatype Outcome =
    | OK | Unauthorized | RateLimited | InvalidJSON | InvalidRequest | RequestTooLarge | ServerCapacity | ServerDraining
    | BodyCapacity | CheckerCapacity | WriteCapacity | Policy | TimedOut | Cancelled | PanicSafeFailure | Serialization
    | FullSize | CompactSize | WriteFailedZero | WriteFailedPartial | Unmatched | Unset

  datatype Route = Health | Checks | IPContext | Reports | Options | NoRoute

  datatype Method = Get | Head | Post | Put | Patch | Delete | Connect | OptionsMethod | Trace | Other

  datatype Status = Healthy | Degraded | Unreachable | NoStatus

  datatype Verdict = VerdictHealthy | VerdictAttention | VerdictInconclusive | NoVerdict

  datatype Diagnostics = Diagnostics(status: Status, verdict: Verdict, total: int, failed: int, findings: int)

  datatype Durations = Durations(total: int, runner: int, marshal: int, write: int)

  datatype Record = Record(
    event: Event, outcome: Outcome, requestID: string, reportID: string, verb: Method, route: Route, status: int,
    active: int, capacity: int, requestBytes: int, attempted: int, actual: int, durations: Durations,
    diagnostics: Option<Diagnostics>)

  // ----- Identifiers -----

  predicate LowerHex(text: string) { forall i :: 0 <= i < |text| ==> '0' <= text[i] <= '9' || 'a' <= text[i] <= 'f' }

  predicate ValidRequestID(id: string) { |id| == 36 && id[..4] == "req_" && LowerHex(id[4..]) }

  predicate ValidReportID(id: string) { |id| == 24 && LowerHex(id) }

  function HexChar(d: nat): char
    requires d < 16
  {
    if d < 10 then (48 + d) as char else (87 + d) as char
  }

  function HexOfBytes(bytes: seq<Byte>): (r: string)
    ensures |r| == 2 * |bytes| && LowerHex(r)
  {
    if bytes == [] then "" else [HexChar(bytes[0] / 16), HexChar(bytes[0] % 16)] + HexOfBytes(bytes[1..])
  }

  function OpaqueID(prefix: string, bytes: seq<Byte>): string { prefix + HexOfBytes(bytes) }

  /** Whatever bytes the source or the fallback digest gave, the identifiers pass the validator. */
  lemma IdentifiersValid(request: seq<Byte>, report: seq<Byte>)
    requires |request| == 16 && |report| == 12
    ensures ValidRequestID(OpaqueID("req_", request)) && ValidReportID(OpaqueID("", report))
  {
    assert OpaqueID("req_", request)[4..] == HexOfBytes(request);
    assert OpaqueID("", report) == HexOfBytes(report);
  }

  // ----- The validator -----

  predicate ReportEventOutcome(event: Event, outcome: Outcome) {
    match event
    case ReportCancel => outcome == Cancelled
    case ReportReject =>
      outcome in {Unauthorized, RateLimited, InvalidJSON, InvalidRequest, RequestTooLarge, ServerCapacity, BodyCapacity, ServerDraining, Policy}
    case ReportFinish =>
      outcome in {OK, PanicSafeFailure, WriteCapacity, Serialization, FullSize, CompactSize, WriteFailedZero, WriteFailedPartial}
    case _ => outcome == OK
  }

  predicate RouteMethod(route: Route, verb: Method) {
    match route
    case Health => verb == Get
    case Checks => verb == Get
    case IPContext => verb == Post
    case Reports => verb == Post
    case Options => verb == OptionsMethod
    case NoRoute => true
  }

  predicate TerminalStatus(outcome: Outcome, status: int, route: Route) {
    match outcome
    case OK => status == 200 || status == 204
    case InvalidJSON => status == 400
    case Unauthorized => status == 401
    case Unmatched => status == 404 || status == 405
    case RequestTooLarge => status == 413
    case InvalidRequest => status == 422
    case Policy => status == 422
    case RateLimited => status == 429
    case Serialization => status == 500
    case FullSize => status == 500
    case CompactSize => status == 500
    case ServerCapacity => status == 503
    case ServerDraining => status == 503
    case BodyCapacity => status == 503
    case WriteCapacity => status == 503
    case Cancelled => (route == Reports || route == IPContext) && status == 499
    case PanicSafeFailure => true
    case WriteFailedZero => true
    case WriteFailedPartial => true
    case _ => false
  }

  predicate ValidSemantics(r: Record) {
    if r.event == HTTPTerminal then 100 <= r.status <= 599 && RouteMethod(r.route, r.verb) && TerminalStatus(r.outcome, r.status, r.route)
    else r.verb == Post && r.route == Reports && r.status == 0 && ReportEventOutcome(r.event, r.outcome)
  }

  predicate ValidDiagnostics(r: Record) {
    match r.diagnostics
    case None => true
    case Some(d) =>
      && r.event == ReportFinish && r.outcome == OK && r.status == 0 && r.attempted > 0 && r.actual == r.attempted
      && 1 <= d.total <= MAX_TARGETS && 0 <= d.failed <= d.total && 0 <= d.findings <= 2 * MAX_TARGETS
      && d.verdict != NoVerdict
      && match d.status
         case Healthy => d.failed == 0
         case Degraded => d.failed > 0
         case Unreachable => d.failed == d.total
         case NoStatus => false
  }

  predicate Valid(r: Record) {
    && r.outcome != Unset && ValidRequestID(r.requestID)
    && (if r.event == HTTPTerminal then r.reportID == "" || ValidReportID(r.reportID) else ValidReportID(r.reportID))
    && ValidSemantics(r) && ValidDiagnostics(r)
    && r.active >= 0 && r.requestBytes >= 0 && 0 <= r.actual <= r.attempted && r.active <= r.capacity
    && r.durations.total >= 0 && r.durations.runner >= 0 && r.durations.marshal >= 0 && r.durations.write >= 0
  }

  function Min(a: int, b: int): int { if a < b then a else b }

  function Clamped(r: Record): Record {
    r.(active := Min(r.active, MAX_COUNT), capacity := Min(r.capacity, MAX_COUNT), requestBytes := Min(r.requestBytes, MAX_BYTES),
       attempted := Min(r.attempted, MAX_BYTES), actual := Min(r.actual, MAX_BYTES),
       durations := Durations(Min(r.durations.total, MAX_DURATION), Min(r.durations.runner, MAX_DURATION),
                              Min(r.durations.marshal, MAX_DURATION), Min(r.durations.write, MAX_DURATION)))
  }

  predicate WithinLimits(r: Record) {
    && r.active <= MAX_COUNT && r.capacity <= MAX_COUNT && r.requestBytes <= MAX_BYTES && r.attempted <= MAX_BYTES && r.actual <= MAX_BYTES
    && r.durations.total <= MAX_DURATION && r.durations.runner <= MAX_DURATION && r.durations.marshal <= MAX_DURATION && r.durations.write <= MAX_DURATION
  }

  /** Nothing but what is over its limit has changed, and that is at its limit. */
  predicate Limited(before: Record, after: Record) {
    && Measured(before.active, after.active, MAX_COUNT) && Measured(before.capacity, after.capacity, MAX_COUNT)
    && Measured(before.requestBytes, after.requestBytes, MAX_BYTES)
    && Measured(before.attempted, after.attempted, MAX_BYTES) && Measured(before.actual, after.actual, MAX_BYTES)
    && Measured(before.durations.total, after.durations.total, MAX_DURATION) && Measured(before.durations.runner, after.durations.runner, MAX_DURATION)
    && Measured(before.durations.marshal, after.durations.marshal, MAX_DURATION) && Measured(before.durations.write, after.durations.write, MAX_DURATION)
    && before.event == after.event && before.outcome == after.outcome && before.requestID == after.requestID && before.reportID == after.reportID
    && before.verb == after.verb && before.route == after.route && before.status == after.status && before.diagnostics == after.diagnostics
  }

  predicate Measured(before: int, after: int, limit: int) { if before > limit then after == limit else after == before }

  /** Validation in the order of the checks: it refuses exactly the invalid records, and what it passes on is
      still valid, within the limits, and unchanged where it was within them. */
  method ValidateTelemetryRecord(r: Record) returns (bounded: Option<Record>)
    ensures bounded.Some? <==> Valid(r)
    ensures bounded.Some? ==> Valid(bounded.value) && WithinLimits(bounded.value) && Limited(r, bounded.value)
  {
    if r.outcome == Unset || !ValidRequestID(r.requestID) {
      return None;
    }
    if r.event == HTTPTerminal {
      if r.reportID != "" && !ValidReportID(r.reportID) {
        return None;
      }
    } else if !ValidReportID(r.reportID) {
      return None;
    }
    if !ValidSemantics(r) || !ValidDiagnostics(r) {
      return None;
    }
    if r.active < 0 || r.capacity < 0 || r.requestBytes < 0 || r.attempted < 0 || r.actual < 0 {
      return None;
    }
    if r.durations.total < 0 || r.durations.runner < 0 || r.durations.marshal < 0 || r.durations.write < 0 {
      return None;
    }
    if r.active > r.capacity || r.actual > r.attempted {
      return None;
    }
    return Some(Clamped(r));
  }

  // ----- The error registry -----

  datatype ErrorKey =
    | KeyBodyDecodeCapacity | KeyCompactTooLarge | KeyFullTooLarge | KeyInternal | KeyInvalidJSON | KeyInvalidRequest
    | KeyMethodNotAllowed | KeyNetworkPolicy | KeyRateLimited | KeyRequestTooLarge | KeyRouteNotFound | KeySerialization
    | KeyServerBusy | KeyServerDraining | KeyUnauthorized | KeyWriteCapacity

  function StatusOf(key: ErrorKey): nat {
    match key
    case KeyBodyDecodeCapacity => 503
    case KeyCompactTooLarge => 500
    case KeyFullTooLarge => 500
    case KeyInternal => 500
    case KeyInvalidJSON => 400
    case KeyInvalidRequest => 422
    case KeyMethodNotAllowed => 405
    case KeyNetworkPolicy => 422
    case KeyRateLimited => 429
    case KeyRequestTooLarge => 413
    case KeyRouteNotFound => 404
    case KeySerialization => 500
    case KeyServerBusy => 503
    case KeyServerDraining => 503
    case KeyUnauthorized => 401
    case KeyWriteCapacity => 503
  }

  function OutcomeOf(key: ErrorKey): Outcome {
    match key
    case KeyBodyDecodeCapacity => BodyCapacity
    case KeyCompactTooLarge => CompactSize
    case KeyFullTooLarge => FullSize
    case KeyInternal => PanicSafeFailure
    case KeyInvalidJSON => InvalidJSON
    case KeyInvalidRequest => InvalidRequest
    case KeyMethodNotAllowed => Unmatched
    case KeyNetworkPolicy => Policy
    case KeyRateLimited => RateLimited
    case KeyRequestTooLarge => RequestTooLarge
    case KeyRouteNotFound => Unmatched
    case KeySerialization => Serialization
    case KeyServerBusy => ServerCapacity
    case KeyServerDraining => ServerDraining
    case KeyUnauthorized => Unauthorized
    case KeyWriteCapacity => WriteCapacity
  }

  // ----- The response writer -----

  datatype Writer = Writer(attempted: bool, committed: bool, status: nat)

  datatype Observation = Observation(status: nat, outcome: Outcome, attempted: nat, actual: nat)

  /** How the raw connection behaves during one response: a panic while headers are set, in WriteHeader or in
      Write, or a count with or without an error. */
  datatype Raw = Raw(applyPanics: bool, setPanics: bool, headerPanics: bool, bodyPanics: bool, count: int, fails: bool)

  function HeaderWritten(w: Writer, status: nat, panics: bool): Writer {
    var a := if w.attempted then w else w.(attempted := true, status := status);
    if panics then a else a.(committed := true)
  }

  /** The bytes that count as sent. */
  function Sent(size: nat, raw: Raw): nat {
    if raw.setPanics || raw.headerPanics || raw.bodyPanics || raw.count < 0 then 0 else if raw.count > size then size else raw.count
  }

  predicate WriteFails(size: nat, raw: Raw) {
    raw.setPanics || raw.headerPanics || raw.bodyPanics || raw.fails || Sent(size, raw) != size
  }

  function PayloadWritten(w: Writer, status: nat, raw: Raw): Writer {
    if raw.setPanics then w else HeaderWritten(w, status, raw.headerPanics)
  }

  function PayloadObserved(o: Observation, status: nat, outcome: Outcome, size: nat, raw: Raw): Observation {
    var sent := Sent(size, raw);
    Observation(status, if !WriteFails(size, raw) then outcome else if sent == 0 then WriteFailedZero else WriteFailedPartial,
                o.attempted + size, o.actual + sent)
  }

  function ErrorWritten(w: Writer, key: ErrorKey, raw: Raw): Writer {
    if raw.applyPanics then w else PayloadWritten(w, StatusOf(key), raw)
  }

  function ErrorObserved(o: Observation, key: ErrorKey, size: nat, raw: Raw): Observation {
    if raw.applyPanics then o.(status := StatusOf(key), outcome := WriteFailedZero)
    else PayloadObserved(o, StatusOf(key), OutcomeOf(key), size, raw)
  }

  class ResponseWriter {
    var attempted: bool
    var committed: bool
    var status: nat
    var observed: Observation

    constructor ()
      ensures State() == Writer(false, false, 0) && observed == Observation(0, Unset, 0, 0)
    {
      attempted, committed, status, observed := false, false, 0, Observation(0, Unset, 0, 0);
    }

    function State(): Writer
      reads this
    {
      Writer(attempted, committed, status)
    }

    /** A panic of the raw call is reported by `ok`. */
    method WriteHeader(code: nat, panics: bool) returns (ok: bool)
      modifies this`attempted, this`committed, this`status
      ensures ok == !panics && State() == HeaderWritten(old(State()), code, panics)
    {
      if !attempted {
        attempted := true;
        status := code;
      }
      if panics {
        return false;
      }
      committed := true;
      return true;
    }

    method Write(raw: Raw) returns (ok: bool, count: int, failed: bool)
      requires attempted
      modifies this`committed
      ensures ok == !raw.bodyPanics && (ok ==> count == raw.count && failed == raw.fails)
      ensures committed == (old(committed) || (ok && (raw.count > 0 || !raw.fails)))
    {
      if raw.bodyPanics {
        return false, 0, true;
      }
      if raw.count > 0 || !raw.fails {
        committed := true;
      }
      return true, raw.count, raw.fails;
    }

    /** No panic leaves it; at most what was attempted counts as sent, and less than that is an error. */
    method WritePayload(code: nat, size: nat, raw: Raw) returns (tried: nat, sent: nat, failed: bool)
      modifies this`attempted, this`committed, this`status
      ensures tried == size && sent == Sent(size, raw) && failed == WriteFails(size, raw) && sent <= tried
      ensures State() == PayloadWritten(old(State()), code, raw)
    {
      tried, sent, failed := size, 0, true;
      if raw.setPanics {
        return;
      }
      var ok := WriteHeader(code, raw.headerPanics);
      if !ok {
        return;
      }
      var count;
      ok, count, failed := Write(raw);
      if !ok {
        failed := true;
        return;
      }
      sent := if count < 0 then 0 else if count > tried then tried else count;
      if !failed && sent != tried {
        failed := true;
      }
    }

    method WriteJSONPayload(code: nat, outcome: Outcome, size: nat, raw: Raw)
      modifies this
      ensures State() == PayloadWritten(old(State()), code, raw)
      ensures observed == PayloadObserved(old(observed), code, outcome, size, raw)
    {
      observed := observed.(status := code, outcome := outcome);
      var tried, sent, failed := WritePayload(code, size, raw);
      observed := observed.(attempted := observed.attempted + tried, actual := observed.actual + sent);
      if failed {
        observed := observed.(outcome := if sent == 0 then WriteFailedZero else WriteFailedPartial);
      }
    }

    method WriteAPIError(key: ErrorKey, size: nat, raw: Raw)
      modifies this
      ensures State() == ErrorWritten(old(State()), key, raw) && observed == ErrorObserved(old(observed), key, size, raw)
    {
      if raw.applyPanics {
        observed := observed.(status := StatusOf(key), outcome := WriteFailedZero);
        return;
      }
      WriteJSONPayload(StatusOf(key), OutcomeOf(key), size, raw);
    }
  }

  /** The registry's own status and outcome belong together on every route. */
  lemma RegistryCanBeTold(key: ErrorKey, route: Route)
    ensures 400 <= StatusOf(key) <= 599 && TerminalStatus(OutcomeOf(key), StatusOf(key), route)
  {
  }

  /** Every answer of the registry, sent or not, can be told in the terminal record of every route. */
  lemma ErrorsCanBeTold(o: Observation, key: ErrorKey, size: nat, raw: Raw, route: Route)
    requires o.actual <= o.attempted
    ensures var e := ErrorObserved(o, key, size, raw);
            && 100 <= e.status <= 599 && TerminalStatus(e.outcome, e.status, route) && e.actual <= e.attempted && e.outcome != Unset
            && (e.outcome == OutcomeOf(key) || e.outcome == WriteFailedZero || e.outcome == WriteFailedPartial)
  {
    RegistryCanBeTold(key, route);
    hide StatusOf, OutcomeOf;
  }

}
