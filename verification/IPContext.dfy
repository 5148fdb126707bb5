/** The IP context controller (frontend/state.js:195-318). Each synchronous turn is one step; turns of the
    user, the timer and the network interleave freely. Clock readings and the owner check are inputs. */
module IPContext {
  import opened Text

  const CACHE_LIMIT := 64
  const WAIT := 10000

  datatype Scope = Scope(report: nat, apiBaseURL: string, authRevision: nat, token: string)
  datatype Target = Target(scope: Scope, address: string)

  /** An owner object: `serial` tells one object from another with the same contents. */
  datatype Owner = Owner(serial: nat, target: Target)

  /** A fetched value; `under` is the scope it was fetched in. */
  datatype Fact = Fact(address: string, expires: int, body: string, under: Scope)

  datatype Phase =
    | Idle | Cancelled | Ineligible | Unavailable | InsecureAuth | Loading | TimedOut
    | Unsupported | Unauthorized | RateLimited | Busy | InvalidResponse
    | Ready(fact: Fact, appCache: bool)

  datatype Stage = Fetching | Reading | Cleaning

  datatype Request = Request(
    owner: Owner, generation: nat, deadline: int, stage: Stage,
    aborted: bool, settled: bool, hasBody: bool, bodyCancelled: bool, cleanup: bool)

  /** One evaluation of the owner check and of the monotonic clock. */
  datatype Look = Look(current: bool, now: int)

  /** What the controller did, in order. */
  datatype Note =
    | Settle(id: nat, ok: bool, phase: Phase)
    | Start(id: nat, owner: Option<Owner>, charged: nat)
    | Revocation(generation: nat)
    | Accept(request: Request, fact: Fact, generation: nat, owner: Option<Owner>, now: int)

  datatype State = State(
    owner: Option<Owner>, generation: nat, alive: bool, flight: Option<nat>, phase: Phase,
    cache: seq<Fact>, running: map<nat, Request>, nextId: nat, log: seq<Note>)

  const INITIAL := State(None, 0, true, None, Idle, [], map[], 0, [])

  // ----- The parts of a turn -----

  function Publish(s: State, phase: Phase): State { s.(phase := phase) }

  function Change(s: State, id: nat, r: Request): State { s.(running := s.running[id := r]) }

  /** Cancels the response body once; a cancel that does not throw leaves a cleanup to wait for. */
  function Stopped(r: Request, throws: bool): Request {
    if !r.hasBody || r.bodyCancelled then r else r.(bodyCancelled := true, cleanup := !throws)
  }

  function StopBody(s: State, id: nat, throws: bool): State
    requires id in s.running
  {
    Change(s, id, Stopped(s.running[id], throws))
  }

  function SettleRequest(s: State, id: nat, ok: bool): State
    requires id in s.running
  {
    if s.running[id].settled then s
    else Change(s, id, s.running[id].(settled := true)).(log := s.log + [Settle(id, ok, s.phase)])
  }

  /** Takes away the authority of the operation under way, which stays charged. */
  function Revoke(s: State, throws: bool): State {
    var t := s.(generation := s.generation + 1, log := s.log + [Revocation(s.generation + 1)]);
    if t.flight.Some? && t.flight.value in t.running then
      var id := t.flight.value;
      SettleRequest(StopBody(Change(t, id, t.running[id].(aborted := true)), id, throws), id, false)
    else t
  }

  function SameScope(a: Option<Owner>, b: Option<Target>): bool {
    a.Some? && b.Some? && a.value.target.scope == b.value.scope
  }

  function Without(cache: seq<Fact>, address: string): seq<Fact> {
    if cache == [] then []
    else (if cache[0].address == address then [] else [cache[0]]) + Without(cache[1..], address)
  }

  function Find(cache: seq<Fact>, address: string): Option<Fact> {
    if cache == [] then None else if cache[0].address == address then Some(cache[0]) else Find(cache[1..], address)
  }

  /** A lookup drops an expired value and moves a live one to the end. */
  function Cached(s: State, address: string, wall: int): (State, Option<Fact>) {
    var found := Find(s.cache, address);
    var rest := Without(s.cache, address);
    if found.None? || found.value.expires <= wall then (s.(cache := rest), None)
    else (s.(cache := rest + [found.value]), found)
  }

  /** Oldest values go first. */
  function Trimmed(cache: seq<Fact>): seq<Fact> {
    if |cache| > CACHE_LIMIT then cache[|cache| - CACHE_LIMIT..] else cache
  }

  predicate Owns(s: State, r: Request, look: Look) {
    s.alive && s.generation == r.generation && s.owner == Some(r.owner) && look.current
  }

  predicate Live(s: State, r: Request, look: Look) { Owns(s, r, look) && !r.aborted && look.now < r.deadline }

  function Timeout(s: State, id: nat, look: Look, throws: bool): State
    requires id in s.running
  {
    var r := s.running[id];
    if s.flight != Some(id) || r.settled then s
    else
      var t := if Owns(s, r, look) && !r.aborted then Publish(s, TimedOut) else s;
      SettleRequest(StopBody(Change(t, id, r.(aborted := true)), id, throws), id, false)
  }

  function Remove(s: State, id: nat): State {
    s.(running := s.running - {id}, flight := if s.flight == Some(id) then None else s.flight)
  }

  /** The end of an operation: it stays charged while its body is being cleaned up. */
  function Finish(s: State, id: nat, first: Look, second: Look, throws: bool): State
    requires id in s.running
  {
    var r := s.running[id];
    var t := if Owns(s, r, first) && !r.aborted && first.now >= r.deadline then Timeout(s, id, second, throws) else s;
    var u := SettleRequest(t, id, false);
    if u.running[id].cleanup then Change(u, id, u.running[id].(stage := Cleaning)) else Remove(u, id)
  }

  /** An exception inside the operation. */
  function Fail(s: State, id: nat, invalid: bool, look: Look, throws: bool): State
    requires id in s.running
  {
    var t := StopBody(s, id, throws);
    if Live(t, t.running[id], look) then Publish(t, if invalid then InvalidResponse else Unavailable) else t
  }

  // ----- The turns -----

  datatype Response = Response(redirected: bool, status: nat, hasBody: bool, oversized: bool, readable: bool)

  datatype Fetched = FetchRejected(invalid: bool) | FetchAnswered(response: Response)

  /** What a read gave: `parsed` is the expiry and contents of a value that parsed for the address. */
  datatype ReadResult = ReadRejected(invalid: bool) | ReadChunk(fits: bool) | ReadEnd(parsed: Option<(int, string)>)

  datatype QueryInput = QueryInput(eligible: bool, urlValid: bool, secure: bool, wall: int, timerThrows: bool)

  datatype Event =
    | SetOwner(next: Option<Target>, wall: int)
    | Cancel
    | Destroy
    | Query(input: QueryInput)
    | TimerFires(id: nat)
    | FetchSettles(id: nat, fetched: Fetched)
    | ReadSettles(id: nat, result: ReadResult, wall: int)
    | CleanupSettles(id: nat)

  function StatusPhase(status: nat): Phase {
    if status == 404 then Unsupported
    else if status == 401 then Unauthorized
    else if status == 429 then RateLimited
    else if status == 503 then Busy
    else Unavailable
  }

  function SetOwnerTurn(s: State, next: Option<Target>, wall: int, throws: bool): State {
    if !s.alive || (SameScope(s.owner, next) && s.owner.value.target.address == next.value.address) then s
    else
      var t := if SameScope(s.owner, next) then s else s.(cache := []);
      var u := Revoke(t, throws);
      if next.None? then Publish(u.(owner := None), Idle)
      else
        var (v, value) := Cached(u.(owner := Some(Owner(u.generation, next.value))), next.value.address, wall);
        Publish(v, if value.Some? then Ready(value.value, true) else Idle)
  }

  /** A query that answers at once. */
  function Answer(s: State, ok: bool): State { s.(nextId := s.nextId + 1, log := s.log + [Settle(s.nextId, ok, s.phase)]) }

  function StartFetch(s: State, id: nat, look: nat -> Look, throws: bool): State
    requires id in s.running
  {
    if !Live(s, s.running[id], look(2)) || !Live(s, s.running[id], look(3)) then Finish(s, id, look(4), look(5), throws)
    else s.(log := s.log + [Start(id, s.owner, |s.running|)])
  }

  /** Charges a new operation to the owner. */
  function Charge(s: State, deadline: int): State
    requires s.owner.Some?
  {
    var r := Request(s.owner.value, s.generation, deadline, Fetching, false, false, false, false, false);
    Publish(s.(flight := Some(s.nextId), running := s.running[s.nextId := r], nextId := s.nextId + 1), Loading)
  }

  function QueryTurn(s: State, input: QueryInput, look: nat -> Look, throws: bool): State {
    if !s.alive || s.owner.None? || !look(0).current then Answer(s, false)
    else if !input.eligible then Answer(Publish(s, Ineligible), false)
    else if s.flight.Some? then Answer(s, false)
    else
      var (t, saved) := Cached(s, s.owner.value.target.address, input.wall);
      if saved.Some? then Answer(Publish(t, Ready(saved.value, true)), true)
      else if !input.urlValid then Answer(Publish(t, Unavailable), false)
      else if !input.secure then Answer(Publish(t, InsecureAuth), false)
      else if input.timerThrows then Publish(Answer(t, false), Unavailable)
      else StartFetch(Charge(t, look(1).now + WAIT), t.nextId, look, throws)
  }

  function FetchTurn(s: State, id: nat, fetched: Fetched, look: nat -> Look, throws: bool): State
    requires id in s.running
  {
    match fetched
    case FetchRejected(invalid) => Finish(Fail(s, id, invalid, look(0), throws), id, look(1), look(2), throws)
    case FetchAnswered(response) =>
      var t := Change(s, id, s.running[id].(hasBody := response.hasBody));
      var r := t.running[id];
      if !Live(t, r, look(0)) then Finish(StopBody(t, id, throws), id, look(1), look(2), throws)
      else if response.redirected || response.status != 200 then
        var u := StopBody(t, id, throws);
        var v := if Live(u, u.running[id], look(1)) then Publish(u, StatusPhase(response.status)) else u;
        Finish(v, id, look(2), look(3), throws)
      else if response.oversized || !response.readable then
        Finish(Fail(t, id, true, look(1), throws), id, look(2), look(3), throws)
      else if !Live(t, r, look(1)) || !Live(t, r, look(2)) then Finish(StopBody(t, id, throws), id, look(3), look(4), throws)
      else Change(t, id, r.(stage := Reading))
  }

  function ReadTurn(s: State, id: nat, result: ReadResult, wall: int, look: nat -> Look, throws: bool): State
    requires id in s.running
  {
    var r := s.running[id];
    if result.ReadRejected? then Finish(Fail(s, id, result.invalid, look(0), throws), id, look(1), look(2), throws)
    else if !Live(s, r, look(0)) then Finish(StopBody(s, id, throws), id, look(1), look(2), throws)
    else if result.ReadChunk? then
      if !result.fits then Finish(Fail(s, id, true, look(1), throws), id, look(2), look(3), throws)
      else if !Live(s, r, look(1)) then Finish(StopBody(s, id, throws), id, look(2), look(3), throws)
      else s
    else if !Live(s, r, look(1)) then Finish(s, id, look(2), look(3), throws)
    else if result.parsed.None? then Finish(Fail(s, id, true, look(2), throws), id, look(3), look(4), throws)
    else
      var fact := Fact(r.owner.target.address, result.parsed.value.0, result.parsed.value.1, r.owner.target.scope);
      if !Live(s, r, look(2)) then Finish(s, id, look(3), look(4), throws)
      else Finish(AcceptFact(s, id, fact, wall, look(2).now), id, look(3), look(4), throws)
  }

  function AcceptFact(s: State, id: nat, fact: Fact, wall: int, now: int): State
    requires id in s.running
  {
    var t := if fact.expires > wall then s.(cache := Trimmed(Without(s.cache, fact.address) + [fact])) else s;
    var u := Publish(t.(log := t.log + [Accept(s.running[id], fact, s.generation, s.owner, now)]), Ready(fact, false));
    SettleRequest(u, id, true)
  }

  /** One turn. A network event for an operation that is not waiting for it cannot happen. */
  function Turn(s: State, event: Event, look: nat -> Look, throws: bool): State {
    match event
    case SetOwner(next, wall) => SetOwnerTurn(s, next, wall, throws)
    case Cancel => if !s.alive then s else Publish(Revoke(s, throws), Cancelled)
    case Destroy => if !s.alive then s else Revoke(s, throws).(alive := false, owner := None, cache := [], phase := Idle)
    case Query(input) => QueryTurn(s, input, look, throws)
    case TimerFires(id) => if id in s.running then Timeout(s, id, look(0), throws) else s
    case FetchSettles(id, fetched) =>
      if id in s.running && s.running[id].stage == Fetching then FetchTurn(s, id, fetched, look, throws) else s
    case ReadSettles(id, result, wall) =>
      if id in s.running && s.running[id].stage == Reading then ReadTurn(s, id, result, wall, look, throws) else s
    case CleanupSettles(id) =>
      if id in s.running && s.running[id].stage == Cleaning then Remove(s, id) else s
  }

  datatype Step = Step(event: Event, look: nat -> Look, throws: bool)

  function Run(s: State, steps: seq<Step>): State
    decreases |steps|
  {
    if steps == [] then s else Run(Turn(s, steps[0].event, steps[0].look, steps[0].throws), steps[1..])
  }

  // ----- What every turn keeps -----

  /** Only one operation is charged, and it is the flight. */
  ghost predicate OneFlight(s: State) {
    s.running.Keys == (if s.flight.Some? then {s.flight.value} else {})
  }

  /** The cache: at most 64 values, one per address, all fetched under the owner's scope. */
  ghost predicate CacheSound(cache: seq<Fact>, owner: Option<Owner>) {
    && |cache| <= CACHE_LIMIT
    && (forall i, j :: 0 <= i < j < |cache| ==> cache[i].address != cache[j].address)
    && forall i :: 0 <= i < |cache| ==> owner.Some? && cache[i].under == owner.value.target.scope
  }

  /** An operation whose generation is past has lost its authority and its answer. */
  ghost predicate Revoked(s: State) {
    && (!s.alive ==> s.owner.None?)
    && forall id :: id in s.running ==>
         && id < s.nextId && s.running[id].generation <= s.generation
         && (s.running[id].generation < s.generation ==> s.running[id].aborted)
         && (s.running[id].aborted ==> s.running[id].settled)
         && (s.running[id].stage == Cleaning ==> s.running[id].settled)
  }

  function Settlements(log: seq<Note>, id: nat): nat {
    if log == [] then 0
    else Settlements(log[..|log| - 1], id) + if log[|log| - 1].Settle? && log[|log| - 1].id == id then 1 else 0
  }

  predicate Pending(s: State, id: nat) { id in s.running && !s.running[id].settled }

  /** Each query has settled exactly once, or not yet because its operation is still under way. */
  ghost predicate SettledOnce(s: State) {
    forall id: nat :: Settlements(s.log, id) == if id < s.nextId && !Pending(s, id) then 1 else 0
  }

  /** `true` is the answer only while the controller shows a value; a value is accepted only for the
      generation and owner that asked, before the deadline; an operation starts alone and for the owner. */
  ghost predicate GoodNote(note: Note) {
    match note
    case Settle(_, ok, phase) => ok ==> phase.Ready?
    case Start(_, owner, charged) => owner.Some? && charged == 1
    case Revocation(_) => true
    case Accept(r, fact, generation, owner, now) =>
      && r.generation == generation && Some(r.owner) == owner && now < r.deadline && !r.aborted
      && fact.address == r.owner.target.address && fact.under == r.owner.target.scope
  }

  /** What is accepted after a revocation was asked for after it. */
  ghost predicate GoodLog(log: seq<Note>, generation: nat) {
    && (forall i :: 0 <= i < |log| ==> GoodNote(log[i]))
    && (forall i :: 0 <= i < |log| && log[i].Revocation? ==> log[i].generation <= generation)
    && forall i, j :: 0 <= i < j < |log| && log[i].Revocation? && log[j].Accept? ==> log[i].generation <= log[j].request.generation
  }

  ghost predicate Invariant(s: State) { OneFlight(s) && CacheSound(s.cache, s.owner) && Revoked(s) && SettledOnce(s) && GoodLog(s.log, s.generation) }

  lemma LogGrows(log: seq<Note>, note: Note, id: nat)
    ensures Settlements(log + [note], id) == Settlements(log, id) + if note.Settle? && note.id == id then 1 else 0
  {
    assert (log + [note])[..|log|] == log;
  }

  lemma {:induction false} WithoutSound(cache: seq<Fact>, address: string)
    ensures |Without(cache, address)| <= |cache|
    ensures forall i :: 0 <= i < |Without(cache, address)| ==> Without(cache, address)[i] in cache && Without(cache, address)[i].address != address
    ensures (forall i, j :: 0 <= i < j < |cache| ==> cache[i].address != cache[j].address) ==>
              forall i, j :: 0 <= i < j < |Without(cache, address)| ==> Without(cache, address)[i].address != Without(cache, address)[j].address
  {
    if cache != [] {
      WithoutSound(cache[1..], address);
    }
  }

  lemma {:induction false} FindSound(cache: seq<Fact>, address: string)
    ensures Find(cache, address).Some? ==>
              Find(cache, address).value in cache && Find(cache, address).value.address == address
    ensures Find(cache, address).Some? ==> |Without(cache, address)| < |cache|
  {
    if cache != [] {
      FindSound(cache[1..], address);
      WithoutSound(cache[1..], address);
    }
  }

  /** Everything but the authority of the operations. */
  ghost predicate Core(s: State) { OneFlight(s) && CacheSound(s.cache, s.owner) && SettledOnce(s) && GoodLog(s.log, s.generation) }

  /** `t` differs from `s` in nothing that Core reads but one operation, whose answer is the same. */
  lemma ChangeKeeps(s: State, id: nat, r: Request)
    requires Core(s) && id in s.running && r.settled == s.running[id].settled
    ensures Core(Change(s, id, r))
  {
    var t := Change(s, id, r);
    assert t.running.Keys == s.running.Keys;
    forall k: nat ensures Pending(t, k) == Pending(s, k) {
    }
  }

  lemma GoodLogGrows(log: seq<Note>, note: Note, before: nat, now: nat)
    requires GoodLog(log, before) && GoodNote(note) && before <= now
    requires note.Revocation? ==> note.generation <= now
    requires note.Accept? ==> note.generation == before
    ensures GoodLog(log + [note], now)
  {
    var t := log + [note];
    forall i | 0 <= i < |t| ensures GoodNote(t[i]) && (t[i].Revocation? ==> t[i].generation <= now) {
      assert i < |log| ==> t[i] == log[i];
    }
    forall i, j | 0 <= i < j < |t| && t[i].Revocation? && t[j].Accept? ensures t[i].generation <= t[j].request.generation {
      assert t[i] == log[i] && (j < |log| ==> t[j] == log[j]);
    }
  }

  lemma SettleKeeps(s: State, id: nat, ok: bool)
    requires Core(s) && id in s.running && id < s.nextId && (ok ==> s.phase.Ready?)
    ensures Core(SettleRequest(s, id, ok)) && SettleRequest(s, id, ok).running.Keys == s.running.Keys
  {
    if !s.running[id].settled {
      var t := SettleRequest(s, id, ok);
      assert t.running.Keys == s.running.Keys;
      GoodLogGrows(s.log, Settle(id, ok, s.phase), s.generation, s.generation);
      assert SettledOnce(t) by {
        forall k: nat ensures Settlements(t.log, k) == if k < t.nextId && !Pending(t, k) then 1 else 0 {
          LogGrows(s.log, Settle(id, ok, s.phase), k);
          assert Pending(s, id);
          assert k != id ==> Pending(t, k) == Pending(s, k);
        }
      }
    }
  }

  lemma PublishKeeps(s: State, phase: Phase)
    requires Invariant(s)
    ensures Invariant(Publish(s, phase))
  {
    forall k: nat ensures Pending(Publish(s, phase), k) == Pending(s, k) {
    }
  }

  lemma StopBodyKeeps(s: State, id: nat, throws: bool)
    requires Invariant(s) && id in s.running
    ensures Invariant(StopBody(s, id, throws))
  {
    hide SettledOnce, GoodLog, CacheSound;
    ChangeKeeps(s, id, Stopped(s.running[id], throws));
  }

  /** Aborting an operation settles its answer. */
  lemma AbortKeeps(s: State, id: nat, throws: bool)
    requires Core(s) && id in s.running && id < s.nextId
    ensures var t := SettleRequest(StopBody(Change(s, id, s.running[id].(aborted := true)), id, throws), id, false);
            && Core(t) && t.running.Keys == s.running.Keys
            && t.running[id].aborted && t.running[id].settled && t.running[id].generation == s.running[id].generation
            && (forall k :: k in s.running && k != id ==> t.running[k] == s.running[k])
  {
    var a := Change(s, id, s.running[id].(aborted := true));
    ChangeKeeps(s, id, a.running[id]);
    ChangeKeeps(a, id, Stopped(a.running[id], throws));
    SettleKeeps(StopBody(a, id, throws), id, false);
  }

  lemma RevokeStarts(s: State)
    requires Invariant(s)
    ensures Core(s.(generation := s.generation + 1, log := s.log + [Revocation(s.generation + 1)]))
  {
    hide Settlements, GoodLog, CacheSound;
    var note := Revocation(s.generation + 1);
    var t := s.(generation := s.generation + 1, log := s.log + [note]);
    GoodLogGrows(s.log, note, s.generation, t.generation);
    assert SettledOnce(t) by {
      forall k: nat ensures Settlements(t.log, k) == Settlements(s.log, k) && Pending(t, k) == Pending(s, k) {
        LogGrows(s.log, note, k);
      }
    }
  }

  lemma RevokeKeeps(s: State, throws: bool)
    requires Invariant(s)
    ensures Invariant(Revoke(s, throws)) && Revoke(s, throws).generation == s.generation + 1
    ensures forall id :: id in Revoke(s, throws).running ==> Revoke(s, throws).running[id].aborted
  {
    hide SettledOnce, GoodLog, CacheSound;
    var t := s.(generation := s.generation + 1, log := s.log + [Revocation(s.generation + 1)]);
    RevokeStarts(s);
    if t.flight.Some? {
      AbortKeeps(t, t.flight.value, throws);
    }
  }

  lemma TimeoutKeeps(s: State, id: nat, look: Look, throws: bool)
    requires Invariant(s) && id in s.running
    ensures Invariant(Timeout(s, id, look, throws)) && id in Timeout(s, id, look, throws).running
  {
    if s.flight == Some(id) && !s.running[id].settled {
      var t := if Owns(s, s.running[id], look) && !s.running[id].aborted then Publish(s, TimedOut) else s;
      PublishKeeps(s, TimedOut);
      AbortKeeps(t, id, throws);
    }
  }

  lemma RemoveKeeps(s: State, id: nat)
    requires Invariant(s) && id in s.running && s.running[id].settled
    ensures Invariant(Remove(s, id)) && Remove(s, id).running == map[]
  {
    var t := Remove(s, id);
    forall k: nat ensures Pending(t, k) == Pending(s, k) {
    }
    assert t.running.Keys == {};
  }

  lemma SettleInvariant(s: State, id: nat, ok: bool)
    requires Invariant(s) && id in s.running && (ok ==> s.phase.Ready?)
    ensures Invariant(SettleRequest(s, id, ok)) && id in SettleRequest(s, id, ok).running && SettleRequest(s, id, ok).running[id].settled
  {
    hide SettledOnce, GoodLog, CacheSound;
    SettleKeeps(s, id, ok);
  }

  /** An operation changes in nothing that decides its authority or its answer. */
  lemma ChangeInvariant(s: State, id: nat, r: Request)
    requires Invariant(s) && id in s.running
    requires r.generation == s.running[id].generation && r.aborted == s.running[id].aborted && r.settled == s.running[id].settled
    requires r.stage == Cleaning ==> r.settled
    ensures Invariant(Change(s, id, r))
  {
    hide SettledOnce, GoodLog, CacheSound;
    ChangeKeeps(s, id, r);
  }

  lemma FinishKeeps(s: State, id: nat, first: Look, second: Look, throws: bool)
    requires Invariant(s) && id in s.running
    ensures Invariant(Finish(s, id, first, second, throws))
  {
    hide Invariant, Timeout, SettleRequest, Remove, Owns;
    var r := s.running[id];
    TimeoutKeeps(s, id, second, throws);
    var t := if Owns(s, r, first) && !r.aborted && first.now >= r.deadline then Timeout(s, id, second, throws) else s;
    SettleInvariant(t, id, false);
    var u := SettleRequest(t, id, false);
    if u.running[id].cleanup {
      ChangeInvariant(u, id, u.running[id].(stage := Cleaning));
    } else {
      RemoveKeeps(u, id);
    }
  }

  lemma FailKeeps(s: State, id: nat, invalid: bool, look: Look, throws: bool)
    requires Invariant(s) && id in s.running
    ensures Invariant(Fail(s, id, invalid, look, throws)) && id in Fail(s, id, invalid, look, throws).running
  {
    StopBodyKeeps(s, id, throws);
    PublishKeeps(StopBody(s, id, throws), if invalid then InvalidResponse else Unavailable);
  }

  lemma CachedKeeps(s: State, address: string, wall: int)
    requires Invariant(s)
    ensures Invariant(Cached(s, address, wall).0)
  {
    WithoutSound(s.cache, address);
    FindSound(s.cache, address);
    var t := Cached(s, address, wall).0;
    forall k: nat ensures Pending(t, k) == Pending(s, k) {
    }
  }

  lemma AnswerKeeps(s: State, ok: bool)
    requires Invariant(s) && (ok ==> s.phase.Ready?)
    ensures Invariant(Answer(s, ok))
  {
    var t := Answer(s, ok);
    GoodLogGrows(s.log, Settle(s.nextId, ok, s.phase), s.generation, s.generation);
    forall k: nat ensures Settlements(t.log, k) == if k < t.nextId && !Pending(t, k) then 1 else 0 {
      LogGrows(s.log, Settle(s.nextId, ok, s.phase), k);
      assert Pending(t, k) == Pending(s, k);
    }
  }

  lemma NoteKeeps(s: State, note: Note)
    requires Invariant(s) && GoodNote(note) && !note.Settle? && !note.Revocation?
    requires note.Accept? ==> note.generation == s.generation
    ensures Invariant(s.(log := s.log + [note]))
  {
    var t := s.(log := s.log + [note]);
    GoodLogGrows(s.log, note, s.generation, s.generation);
    forall k: nat ensures Settlements(t.log, k) == Settlements(s.log, k) && Pending(t, k) == Pending(s, k) {
      LogGrows(s.log, note, k);
    }
  }

  lemma SetOwnerKeeps(s: State, next: Option<Target>, wall: int, throws: bool)
    requires Invariant(s)
    ensures Invariant(SetOwnerTurn(s, next, wall, throws))
  {
    if s.alive && !(SameScope(s.owner, next) && s.owner.value.target.address == next.value.address) {
      var t := if SameScope(s.owner, next) then s else s.(cache := []);
      assert Invariant(t) by {
        forall k: nat ensures Pending(t, k) == Pending(s, k) {
        }
      }
      RevokeKeeps(t, throws);
      var u := Revoke(t, throws);
      var v := u.(owner := if next.None? then None else Some(Owner(u.generation, next.value)));
      assert Invariant(v) by {
        assert u.cache == t.cache && u.owner == s.owner;
        forall k: nat ensures Pending(v, k) == Pending(u, k) {
        }
      }
      if next.None? {
        PublishKeeps(v, Idle);
      } else {
        CachedKeeps(v, next.value.address, wall);
        var (w, value) := Cached(v, next.value.address, wall);
        PublishKeeps(w, if value.Some? then Ready(value.value, true) else Idle);
      }
    }
  }

  lemma StartFetchKeeps(s: State, id: nat, look: nat -> Look, throws: bool)
    requires Invariant(s) && id in s.running
    ensures Invariant(StartFetch(s, id, look, throws))
  {
    FinishKeeps(s, id, look(4), look(5), throws);
    assert s.running.Keys == {id};
    OneKey(s.running, id);
    if Live(s, s.running[id], look(2)) {
      NoteKeeps(s, Start(id, s.owner, |s.running|));
    }
  }

  lemma OneKey(m: map<nat, Request>, id: nat)
    requires m.Keys == {id}
    ensures |m| == 1
  {
    assert |m| == |m.Keys|;
  }

  lemma QueryKeeps(s: State, input: QueryInput, look: nat -> Look, throws: bool)
    requires Invariant(s)
    ensures Invariant(QueryTurn(s, input, look, throws))
  {
    if !s.alive || s.owner.None? || !look(0).current || (input.eligible && s.flight.Some?) {
      AnswerKeeps(s, false);
    } else if !input.eligible {
      PublishKeeps(s, Ineligible);
      AnswerKeeps(Publish(s, Ineligible), false);
    } else {
      var address := s.owner.value.target.address;
      CachedKeeps(s, address, input.wall);
      var (t, saved) := Cached(s, address, input.wall);
      if saved.None? && input.urlValid && input.secure && !input.timerThrows {
        ChargeKeeps(t, look(1).now + WAIT);
        StartFetchKeeps(Charge(t, look(1).now + WAIT), t.nextId, look, throws);
      } else if saved.None? && input.urlValid && input.secure {
        AnswerKeeps(t, false);
        PublishKeeps(Answer(t, false), Unavailable);
      } else {
        var phase := if saved.Some? then Ready(saved.value, true) else if !input.urlValid then Unavailable else InsecureAuth;
        PublishKeeps(t, phase);
        AnswerKeeps(Publish(t, phase), saved.Some?);
      }
    }
  }

  /** A new operation is charged only when none is. */
  lemma ChargeKeeps(s: State, deadline: int)
    requires Invariant(s) && s.flight.None? && s.owner.Some?
    ensures Invariant(Charge(s, deadline))
  {
    var t := Charge(s, deadline);
    assert s.running.Keys == {} && t.running.Keys == {s.nextId};
    forall k: nat ensures Settlements(t.log, k) == if k < t.nextId && !Pending(t, k) then 1 else 0 {
      assert Pending(t, k) == (k == s.nextId || Pending(s, k));
    }
  }

  lemma FetchKeeps(s: State, id: nat, fetched: Fetched, look: nat -> Look, throws: bool)
    requires Invariant(s) && id in s.running && s.running[id].stage == Fetching
    ensures Invariant(FetchTurn(s, id, fetched, look, throws))
  {
    hide Invariant, Finish, Fail;
    match fetched
    case FetchRejected(invalid) =>
      FailKeeps(s, id, invalid, look(0), throws);
      FinishKeeps(Fail(s, id, invalid, look(0), throws), id, look(1), look(2), throws);
    case FetchAnswered(response) =>
      var t := Change(s, id, s.running[id].(hasBody := response.hasBody));
      ChangeInvariant(s, id, t.running[id]);
      StopBodyKeeps(t, id, throws);
      FailKeeps(t, id, true, look(1), throws);
      var u := StopBody(t, id, throws);
      if !Live(t, t.running[id], look(0)) {
        FinishKeeps(u, id, look(1), look(2), throws);
      } else if response.redirected || response.status != 200 {
        PublishKeeps(u, StatusPhase(response.status));
        var v := if Live(u, u.running[id], look(1)) then Publish(u, StatusPhase(response.status)) else u;
        FinishKeeps(v, id, look(2), look(3), throws);
      } else if response.oversized || !response.readable {
        FinishKeeps(Fail(t, id, true, look(1), throws), id, look(2), look(3), throws);
      } else if !Live(t, t.running[id], look(1)) || !Live(t, t.running[id], look(2)) {
        FinishKeeps(u, id, look(3), look(4), throws);
      } else {
        ChangeInvariant(t, id, t.running[id].(stage := Reading));
      }
  }

  lemma AcceptKeeps(s: State, id: nat, fact: Fact, wall: int, look: Look)
    requires Invariant(s) && id in s.running && Live(s, s.running[id], look)
    requires fact.address == s.owner.value.target.address && fact.under == s.owner.value.target.scope
    ensures Invariant(AcceptFact(s, id, fact, wall, look.now)) && id in AcceptFact(s, id, fact, wall, look.now).running
  {
    var t := if fact.expires > wall then s.(cache := Trimmed(Without(s.cache, fact.address) + [fact])) else s;
    WithoutSound(s.cache, fact.address);
    assert Invariant(t) by {
      forall k: nat ensures Pending(t, k) == Pending(s, k) {
      }
    }
    var note := Accept(s.running[id], fact, s.generation, s.owner, look.now);
    NoteKeeps(t, note);
    PublishKeeps(t.(log := t.log + [note]), Ready(fact, false));
    SettleKeeps(Publish(t.(log := t.log + [note]), Ready(fact, false)), id, true);
  }

  lemma ReadKeeps(s: State, id: nat, result: ReadResult, wall: int, look: nat -> Look, throws: bool)
    requires Invariant(s) && id in s.running
    ensures Invariant(ReadTurn(s, id, result, wall, look, throws))
  {
    hide Finish, Fail, AcceptFact;
    var r := s.running[id];
    StopBodyKeeps(s, id, throws);
    if result.ReadRejected? {
      FailKeeps(s, id, result.invalid, look(0), throws);
      FinishKeeps(Fail(s, id, result.invalid, look(0), throws), id, look(1), look(2), throws);
    } else if !Live(s, r, look(0)) {
      FinishKeeps(StopBody(s, id, throws), id, look(1), look(2), throws);
    } else if result.ReadChunk? {
      FailKeeps(s, id, true, look(1), throws);
      FinishKeeps(Fail(s, id, true, look(1), throws), id, look(2), look(3), throws);
      FinishKeeps(StopBody(s, id, throws), id, look(2), look(3), throws);
    } else if !Live(s, r, look(1)) {
      FinishKeeps(s, id, look(2), look(3), throws);
    } else if result.parsed.None? {
      FailKeeps(s, id, true, look(2), throws);
      FinishKeeps(Fail(s, id, true, look(2), throws), id, look(3), look(4), throws);
    } else if !Live(s, r, look(2)) {
      FinishKeeps(s, id, look(3), look(4), throws);
    } else {
      var fact := Fact(r.owner.target.address, result.parsed.value.0, result.parsed.value.1, r.owner.target.scope);
      AcceptKeeps(s, id, fact, wall, look(2));
      FinishKeeps(AcceptFact(s, id, fact, wall, look(2).now), id, look(3), look(4), throws);
    }
  }

  lemma DestroyKeeps(s: State, throws: bool)
    requires Invariant(s)
    ensures Invariant(Revoke(s, throws).(alive := false, owner := None, cache := [], phase := Idle))
  {
    RevokeKeeps(s, throws);
    var u := Revoke(s, throws);
    var v := u.(alive := false, owner := None, cache := [], phase := Idle);
    forall k: nat ensures Pending(v, k) == Pending(u, k) {
    }
  }

  lemma CleaningIsSettled(s: State, id: nat)
    requires Invariant(s) && id in s.running && s.running[id].stage == Cleaning
    ensures s.running[id].settled
  {
  }

  lemma TurnKeeps(s: State, event: Event, look: nat -> Look, throws: bool)
    requires Invariant(s)
    ensures Invariant(Turn(s, event, look, throws))
  {
    hide Invariant, SetOwnerTurn, QueryTurn, FetchTurn, ReadTurn, Revoke, Timeout;
    match event
    case SetOwner(next, wall) => SetOwnerKeeps(s, next, wall, throws);
    case Cancel =>
      RevokeKeeps(s, throws);
      PublishKeeps(Revoke(s, throws), Cancelled);
    case Destroy => DestroyKeeps(s, throws);
    case Query(input) => QueryKeeps(s, input, look, throws);
    case TimerFires(id) =>
      if id in s.running {
        TimeoutKeeps(s, id, look(0), throws);
      }
    case FetchSettles(id, fetched) =>
      if id in s.running && s.running[id].stage == Fetching {
        FetchKeeps(s, id, fetched, look, throws);
      }
    case ReadSettles(id, result, wall) =>
      if id in s.running {
        ReadKeeps(s, id, result, wall, look, throws);
      }
    case CleanupSettles(id) =>
      if id in s.running && s.running[id].stage == Cleaning {
        CleaningIsSettled(s, id);
        RemoveKeeps(s, id);
      }
  }

  lemma InitialHolds()
    ensures Invariant(INITIAL)
  {
  }

  lemma {:induction false} RunKeeps(s: State, steps: seq<Step>)
    requires Invariant(s)
    ensures Invariant(Run(s, steps))
    decreases |steps|
  {
    hide Invariant, Turn;
    if steps != [] {
      TurnKeeps(s, steps[0].event, steps[0].look, steps[0].throws);
      RunKeeps(Turn(s, steps[0].event, steps[0].look, steps[0].throws), steps[1..]);
    }
  }

  /** Safety over every run: one charged operation at most, a bounded cache of the owner's scope, one answer
      to each query, `true` only with a value on show, and no value from an operation of a past generation. */
  lemma ControllerSafe(steps: seq<Step>)
    ensures var s := Run(INITIAL, steps);
            && |s.running| <= 1 && (s.flight.None? <==> s.running == map[])
            && CacheSound(s.cache, s.owner)
            && (forall id: nat :: id < s.nextId && !Pending(s, id) ==> Settlements(s.log, id) == 1)
            && (forall id: nat :: id >= s.nextId || Pending(s, id) ==> Settlements(s.log, id) == 0)
            && GoodLog(s.log, s.generation)
  {
    InitialHolds();
    RunKeeps(INITIAL, steps);
    var s := Run(INITIAL, steps);
    if s.flight.Some? {
      OneKey(s.running, s.flight.value);
    } else {
      assert s.running.Keys == {};
      assert s.running == map[];
    }
  }

  // ----- The controller object -----

  class Controller {
    var owner: Option<Owner>
    var generation: nat
    var alive: bool
    var flight: Option<nat>
    var phase: Phase
    var cache: seq<Fact>
    var running: map<nat, Request>
    var nextId: nat
    ghost var log: seq<Note>

    constructor ()
      ensures Snapshot() == INITIAL
    {
      owner, generation, alive, flight, phase, cache, running, nextId, log := None, 0, true, None, Idle, [], map[], 0, [];
    }

    ghost function Snapshot(): State
      reads this
    {
      State(owner, generation, alive, flight, phase, cache, running, nextId, log)
    }

    method CancelBody(id: nat, throws: bool)
      requires id in running
      modifies this
      ensures Snapshot() == StopBody(old(Snapshot()), id, throws) && id in running
    {
      var request := running[id];
      if !(!request.hasBody || request.bodyCancelled) {
        request := request.(bodyCancelled := true, cleanup := !throws);
      }
      running := running[id := request];
    }

    method SettleOnce(id: nat, ok: bool)
      requires id in running
      modifies this
      ensures Snapshot() == SettleRequest(old(Snapshot()), id, ok) && id in running
    {
      if !running[id].settled {
        running := running[id := running[id].(settled := true)];
        log := log + [Settle(id, ok, phase)];
      }
    }

    method AnswerAtOnce(ok: bool)
      modifies this
      ensures Snapshot() == Answer(old(Snapshot()), ok)
    {
      log := log + [Settle(nextId, ok, phase)];
      nextId := nextId + 1;
    }

    method RevokeFlight(throws: bool)
      modifies this
      ensures Snapshot() == Revoke(old(Snapshot()), throws)
    {
      generation := generation + 1;
      log := log + [Revocation(generation)];
      if flight.Some? && flight.value in running {
        running := running[flight.value := running[flight.value].(aborted := true)];
        CancelBody(flight.value, throws);
        SettleOnce(flight.value, false);
      }
    }

    method LookUp(address: string, wall: int) returns (value: Option<Fact>)
      modifies this
      ensures (Snapshot(), value) == Cached(old(Snapshot()), address, wall)
    {
      value := Find(cache, address);
      if value.None? || value.value.expires <= wall {
        cache := Without(cache, address);
        return None;
      }
      cache := Without(cache, address) + [value.value];
    }

    method Expire(id: nat, look: Look, throws: bool)
      requires id in running
      modifies this
      ensures Snapshot() == Timeout(old(Snapshot()), id, look, throws) && id in running
    {
      var request := running[id];
      if flight != Some(id) || request.settled {
        return;
      }
      if alive && generation == request.generation && owner == Some(request.owner) && look.current && !request.aborted {
        phase := TimedOut;
      }
      running := running[id := request.(aborted := true)];
      CancelBody(id, throws);
      SettleOnce(id, false);
    }

    method End(id: nat, first: Look, second: Look, throws: bool)
      requires id in running
      modifies this
      ensures Snapshot() == Finish(old(Snapshot()), id, first, second, throws)
    {
      hide Timeout, SettleRequest;
      var request := running[id];
      if alive && generation == request.generation && owner == Some(request.owner) && first.current
         && !request.aborted && first.now >= request.deadline {
        Expire(id, second, throws);
      }
      SettleOnce(id, false);
      if running[id].cleanup {
        running := running[id := running[id].(stage := Cleaning)];
      } else {
        Release(id);
      }
    }

    method Release(id: nat)
      modifies this
      ensures Snapshot() == Remove(old(Snapshot()), id)
    {
      running := running - {id};
      if flight == Some(id) {
        flight := None;
      }
    }

    /** The live check: authority, no abort, and time left. */
    method Check(id: nat, look: Look) returns (ok: bool)
      requires id in running
      ensures ok == Live(Snapshot(), running[id], look)
    {
      var request := running[id];
      ok := alive && generation == request.generation && owner == Some(request.owner) && look.current
            && !request.aborted && look.now < request.deadline;
    }

    method Catch(id: nat, invalid: bool, look: Look, throws: bool)
      requires id in running
      modifies this
      ensures Snapshot() == Fail(old(Snapshot()), id, invalid, look, throws) && id in running
    {
      CancelBody(id, throws);
      var live := Check(id, look);
      if live {
        phase := if invalid then InvalidResponse else Unavailable;
      }
    }

    method SetOwner(next: Option<Target>, wall: int, ghost look: nat -> Look, throws: bool)
      requires Invariant(Snapshot())
      modifies this
      ensures Snapshot() == Turn(old(Snapshot()), Event.SetOwner(next, wall), look, throws) && Invariant(Snapshot())
    {
      TurnKeeps(Snapshot(), Event.SetOwner(next, wall), look, throws);
      if !alive {
        return;
      }
      if SameScope(owner, next) && owner.value.target.address == next.value.address {
        return;
      }
      if !SameScope(owner, next) {
        cache := [];
      }
      RevokeFlight(throws);
      owner := if next.None? then None else Some(Owner(generation, next.value));
      var value: Option<Fact> := None;
      if owner.Some? {
        value := LookUp(owner.value.target.address, wall);
      }
      phase := if value.Some? then Ready(value.value, true) else Idle;
    }

    method Cancel(ghost look: nat -> Look, throws: bool)
      requires Invariant(Snapshot())
      modifies this
      ensures Snapshot() == Turn(old(Snapshot()), Event.Cancel, look, throws) && Invariant(Snapshot())
    {
      TurnKeeps(Snapshot(), Event.Cancel, look, throws);
      if !alive {
        return;
      }
      RevokeFlight(throws);
      phase := Cancelled;
    }

    method Destroy(ghost look: nat -> Look, throws: bool)
      requires Invariant(Snapshot())
      modifies this
      ensures Snapshot() == Turn(old(Snapshot()), Event.Destroy, look, throws) && Invariant(Snapshot())
    {
      TurnKeeps(Snapshot(), Event.Destroy, look, throws);
      if !alive {
        return;
      }
      RevokeFlight(throws);
      alive := false;
      owner := None;
      cache := [];
      phase := Idle;
    }

    method ChargeFlight(deadline: int)
      requires owner.Some?
      modifies this
      ensures Snapshot() == Charge(old(Snapshot()), deadline)
    {
      running := running[nextId := Request(owner.value, generation, deadline, Fetching, false, false, false, false, false)];
      flight := Some(nextId);
      nextId := nextId + 1;
      phase := Loading;
    }

    /** Charges an operation and calls fetch, unless the owner is gone already. */
    method Launch(look: nat -> Look, throws: bool)
      requires owner.Some?
      modifies this
      ensures Snapshot() == StartFetch(Charge(old(Snapshot()), look(1).now + WAIT), old(nextId), look, throws)
    {
      var id := nextId;
      ChargeFlight(look(1).now + WAIT);
      var live := Check(id, look(2));
      if live {
        live := Check(id, look(3));
      }
      if !live {
        End(id, look(4), look(5), throws);
        return;
      }
      log := log + [Start(id, owner, |running|)];
    }

    method Query(input: QueryInput, look: nat -> Look, throws: bool)
      requires Invariant(Snapshot())
      modifies this
      ensures Snapshot() == Turn(old(Snapshot()), Event.Query(input), look, throws) && Invariant(Snapshot())
    {
      TurnKeeps(Snapshot(), Event.Query(input), look, throws);
      if !alive || owner.None? || !look(0).current {
        AnswerAtOnce(false);
        return;
      }
      if !input.eligible {
        phase := Ineligible;
        AnswerAtOnce(false);
        return;
      }
      if flight.Some? {
        AnswerAtOnce(false);
        return;
      }
      var saved := LookUp(owner.value.target.address, input.wall);
      if saved.Some? {
        phase := Ready(saved.value, true);
        AnswerAtOnce(true);
        return;
      }
      if !input.urlValid {
        phase := Unavailable;
        AnswerAtOnce(false);
        return;
      }
      if !input.secure {
        phase := InsecureAuth;
        AnswerAtOnce(false);
        return;
      }
      if input.timerThrows {
        AnswerAtOnce(false);
        phase := Unavailable;
        return;
      }
      Launch(look, throws);
    }

    method OnTimer(id: nat, look: nat -> Look, throws: bool)
      requires Invariant(Snapshot())
      modifies this
      ensures Snapshot() == Turn(old(Snapshot()), TimerFires(id), look, throws) && Invariant(Snapshot())
    {
      TurnKeeps(Snapshot(), TimerFires(id), look, throws);
      if id in running {
        Expire(id, look(0), throws);
      }
    }

    method OnFetch(id: nat, fetched: Fetched, look: nat -> Look, throws: bool)
      requires Invariant(Snapshot()) && id in running && running[id].stage == Fetching
      modifies this
      ensures Snapshot() == Turn(old(Snapshot()), FetchSettles(id, fetched), look, throws) && Invariant(Snapshot())
    {
      hide Finish, Fail, Stopped, Live, Invariant, StatusPhase;
      TurnKeeps(Snapshot(), FetchSettles(id, fetched), look, throws);
      if fetched.FetchRejected? {
        Catch(id, fetched.invalid, look(0), throws);
        End(id, look(1), look(2), throws);
        return;
      }
      var response := fetched.response;
      running := running[id := running[id].(hasBody := response.hasBody)];
      var live := Check(id, look(0));
      if !live {
        CancelBody(id, throws);
        End(id, look(1), look(2), throws);
        return;
      }
      if response.redirected || response.status != 200 {
        CancelBody(id, throws);
        live := Check(id, look(1));
        if live {
          phase := StatusPhase(response.status);
        }
        End(id, look(2), look(3), throws);
        return;
      }
      if response.oversized || !response.readable {
        Catch(id, true, look(1), throws);
        End(id, look(2), look(3), throws);
        return;
      }
      live := Check(id, look(1));
      if live {
        live := Check(id, look(2));
      }
      if !live {
        CancelBody(id, throws);
        End(id, look(3), look(4), throws);
        return;
      }
      running := running[id := running[id].(stage := Reading)];
    }

    /** Stores a value that has not expired and drops the oldest ones beyond the limit. */
    method Store(value: Fact, wall: int)
      modifies this`cache
      ensures cache == if value.expires > wall then Trimmed(Without(old(cache), value.address) + [value]) else old(cache)
    {
      if value.expires > wall {
        cache := Without(cache, value.address) + [value];
        ghost var full := cache;
        while |cache| > CACHE_LIMIT
          invariant |cache| <= |full| && cache == full[|full| - |cache|..] && Trimmed(cache) == Trimmed(full)
        {
          cache := cache[1..];
        }
      }
    }

    method AcceptValue(id: nat, value: Fact, wall: int, ghost now: int)
      requires id in running
      modifies this
      ensures Snapshot() == AcceptFact(old(Snapshot()), id, value, wall, now)
    {
      Store(value, wall);
      log := log + [Accept(running[id], value, generation, owner, now)];
      phase := Ready(value, false);
      SettleOnce(id, true);
    }

    method OnRead(id: nat, result: ReadResult, wall: int, look: nat -> Look, throws: bool)
      requires Invariant(Snapshot()) && id in running && running[id].stage == Reading
      modifies this
      ensures Snapshot() == Turn(old(Snapshot()), ReadSettles(id, result, wall), look, throws) && Invariant(Snapshot())
    {
      TurnKeeps(Snapshot(), ReadSettles(id, result, wall), look, throws);
      if result.ReadRejected? {
        Catch(id, result.invalid, look(0), throws);
        End(id, look(1), look(2), throws);
        return;
      }
      var live := Check(id, look(0));
      if !live {
        CancelBody(id, throws);
        End(id, look(1), look(2), throws);
        return;
      }
      if result.ReadChunk? {
        if !result.fits {
          Catch(id, true, look(1), throws);
          End(id, look(2), look(3), throws);
          return;
        }
        live := Check(id, look(1));
        if !live {
          CancelBody(id, throws);
          End(id, look(2), look(3), throws);
        }
        return;
      }
      live := Check(id, look(1));
      if !live {
        End(id, look(2), look(3), throws);
        return;
      }
      if result.parsed.None? {
        Catch(id, true, look(2), throws);
        End(id, look(3), look(4), throws);
        return;
      }
      var target := running[id].owner.target;
      var value := Fact(target.address, result.parsed.value.0, result.parsed.value.1, target.scope);
      live := Check(id, look(2));
      if !live {
        End(id, look(3), look(4), throws);
        return;
      }
      AcceptValue(id, value, wall, look(2).now);
      End(id, look(3), look(4), throws);
    }

    method OnCleanup(id: nat, ghost look: nat -> Look, ghost throws: bool)
      requires Invariant(Snapshot()) && id in running && running[id].stage == Cleaning
      modifies this
      ensures Snapshot() == Turn(old(Snapshot()), CleanupSettles(id), look, throws) && Invariant(Snapshot())
    {
      TurnKeeps(Snapshot(), CleanupSettles(id), look, throws);
      Release(id);
    }
  }
}
