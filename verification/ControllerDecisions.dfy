/** What the IP context controller shows, keeps and answers in each turn (frontend/state.js:195-318), as tables of
    causes apart from the turns themselves, over every run. */
module ControllerDecisions {
  import opened Text
  import opened IPContext

  // ----- What is shown -----

  datatype Row = Row(cause: bool, shows: Option<Phase>)

  function FirstOf(rows: seq<Row>): Option<Phase> {
    if rows == [] then None else if rows[0].cause then rows[0].shows else FirstOf(rows[1..])
  }

  /** The operation has not lost its authority. */
  predicate Holds(s: State, r: Request, l: Look) {
    l.current && s.owner == Some(r.owner) && s.generation == r.generation && !r.aborted
  }

  predicate May(s: State, r: Request, l: Look) { Holds(s, r, l) && l.now < r.deadline }

  predicate Overdue(s: State, r: Request, l: Look) { Holds(s, r, l) && l.now >= r.deadline && !r.settled }

  /** An operation that is found overdue at its end shows that, whatever else went wrong. */
  function Overtime(s: State, r: Request, l: Look, m: Look): Row { Row(Overdue(s, r, l) && Holds(s, r, m), Some(TimedOut)) }

  function FetchRows(s: State, r: Request, fetched: Fetched, look: nat -> Look): seq<Row> {
    match fetched
    case FetchRejected(invalid) =>
      [Overtime(s, r, look(1), look(2)), Row(May(s, r, look(0)) && invalid, Some(InvalidResponse)), Row(May(s, r, look(0)), Some(Unavailable))]
    case FetchAnswered(p) =>
      if !May(s, r, look(0)) then [Overtime(s, r, look(1), look(2))]
      else if p.redirected || p.status != 200 then
        [Overtime(s, r, look(2), look(3)), Row(!May(s, r, look(1)), None), Row(p.status == 404, Some(Unsupported)), Row(p.status == 401, Some(Unauthorized)),
         Row(p.status == 429, Some(RateLimited)), Row(p.status == 503, Some(Busy)), Row(true, Some(Unavailable))]
      else if p.oversized || !p.readable then [Overtime(s, r, look(2), look(3)), Row(May(s, r, look(1)), Some(InvalidResponse))]
      else [Row(May(s, r, look(1)) && May(s, r, look(2)), None), Overtime(s, r, look(3), look(4))]
  }

  function ReadRows(s: State, r: Request, result: ReadResult, look: nat -> Look): seq<Row> {
    match result
    case ReadRejected(invalid) =>
      [Overtime(s, r, look(1), look(2)), Row(May(s, r, look(0)) && invalid, Some(InvalidResponse)), Row(May(s, r, look(0)), Some(Unavailable))]
    case ReadChunk(fits) =>
      if !May(s, r, look(0)) then [Overtime(s, r, look(1), look(2))]
      else [Row(fits && May(s, r, look(1)), None), Overtime(s, r, look(2), look(3)), Row(!fits && May(s, r, look(1)), Some(InvalidResponse))]
    case ReadEnd(parsed) =>
      if !May(s, r, look(0)) then [Overtime(s, r, look(1), look(2))]
      else if !May(s, r, look(1)) then [Overtime(s, r, look(2), look(3))]
      else if parsed.None? then [Overtime(s, r, look(3), look(4)), Row(May(s, r, look(2)), Some(InvalidResponse))]
      else if !May(s, r, look(2)) then [Overtime(s, r, look(3), look(4))]
      else [Row(true, Some(Ready(Parsed(r, parsed.value), false)))]
  }

  /** What was read stands for the address that was asked for, under the scope it was asked in. */
  function Parsed(r: Request, value: (int, string)): Fact { Fact(r.owner.target.address, value.0, value.1, r.owner.target.scope) }

  /** The value in the cache that has not expired. */
  ghost function Saved(cache: seq<Fact>, address: string, wall: int): Option<Fact> {
    if k: nat :| k < |cache| && cache[k].address == address && cache[k].expires > wall then Some(cache[k]) else None
  }

  ghost predicate Asks(s: State, input: QueryInput, look: nat -> Look) {
    s.owner.Some? && look(0).current && input.eligible && s.flight.None?
  }

  ghost function QueryRows(s: State, input: QueryInput, look: nat -> Look): seq<Row> {
    if s.owner.None? || !look(0).current then []
    else
      var saved := Saved(s.cache, s.owner.value.target.address, input.wall);
      [Row(!input.eligible, Some(Ineligible)), Row(s.flight.Some?, None), Row(saved.Some?, if saved.Some? then Some(Ready(saved.value, true)) else None),
       Row(!input.urlValid, Some(Unavailable)), Row(!input.secure, Some(InsecureAuth)), Row(input.timerThrows, Some(Unavailable)),
       Row(look(2).current && look(2).now < look(1).now + WAIT && look(3).current && look(3).now < look(1).now + WAIT, Some(Loading)),
       Row(look(4).current && look(4).now >= look(1).now + WAIT && look(5).current, Some(TimedOut)), Row(true, Some(Loading))]
  }

  predicate Moves(s: State, next: Option<Target>) {
    s.alive && !(s.owner.Some? && next.Some? && s.owner.value.target == next.value)
  }

  /** The values that outlive a change of owner: those of the same scope. */
  ghost function Outliving(s: State, next: Option<Target>): seq<Fact> {
    if s.owner.Some? && next.Some? && s.owner.value.target.scope == next.value.scope then s.cache else []
  }

  ghost function Rows(s: State, e: Event, look: nat -> Look): seq<Row> {
    match e
    case SetOwner(next, wall) =>
      if !Moves(s, next) then []
      else
        var saved := if next.Some? then Saved(Outliving(s, next), next.value.address, wall) else None;
        [Row(true, Some(if saved.Some? then Ready(saved.value, true) else Idle))]
    case Cancel => [Row(s.alive, Some(Cancelled))]
    case Destroy => [Row(s.alive, Some(Idle))]
    case Query(input) => QueryRows(s, input, look)
    case TimerFires(id) => if id in s.running then [Row(Holds(s, s.running[id], look(0)) && !s.running[id].settled, Some(TimedOut))] else []
    case FetchSettles(id, fetched) => if id in s.running && s.running[id].stage == Fetching then FetchRows(s, s.running[id], fetched, look) else []
    case ReadSettles(id, result, _) => if id in s.running && s.running[id].stage == Reading then ReadRows(s, s.running[id], result, look) else []
    case CleanupSettles(_) => []
  }

  // ----- What is kept -----

  /** A lookup moves a live value to the end and drops an expired one. */
  ghost predicate LookedUp(before: seq<Fact>, after: seq<Fact>, address: string, wall: int) {
    && ((forall k: nat :: k < |before| ==> before[k].address != address) ==> after == before)
    && forall k: nat :: k < |before| && before[k].address == address ==>
         after == before[..k] + before[k + 1..] + if before[k].expires > wall then [before[k]] else []
  }

  function LastOnes(facts: seq<Fact>): seq<Fact> { if |facts| > CACHE_LIMIT then facts[|facts| - CACHE_LIMIT..] else facts }

  /** A value takes the place of the one for its address, at the end. */
  ghost predicate Stored(before: seq<Fact>, after: seq<Fact>, fact: Fact) {
    && ((forall k: nat :: k < |before| ==> before[k].address != fact.address) ==> after == LastOnes(before + [fact]))
    && forall k: nat :: k < |before| && before[k].address == fact.address ==> after == LastOnes(before[..k] + before[k + 1..] + [fact])
  }

  /** The value that a read completes, when its operation may still act. */
  function Accepted(s: State, e: Event, look: nat -> Look): Option<Fact> {
    if e.ReadSettles? && e.id in s.running && s.running[e.id].stage == Reading && e.result.ReadEnd? && e.result.parsed.Some?
       && May(s, s.running[e.id], look(0)) && May(s, s.running[e.id], look(1)) && May(s, s.running[e.id], look(2))
    then Some(Parsed(s.running[e.id], e.result.parsed.value)) else None
  }

  ghost predicate CacheTold(s: State, e: Event, look: nat -> Look, after: seq<Fact>) {
    match e
    case SetOwner(next, wall) =>
      if !Moves(s, next) then after == s.cache
      else if next.None? then after == []
      else LookedUp(Outliving(s, next), after, next.value.address, wall)
    case Destroy => if s.alive then after == [] else after == s.cache
    case Query(input) =>
      if Asks(s, input, look) then LookedUp(s.cache, after, s.owner.value.target.address, input.wall) else after == s.cache
    case ReadSettles(_, _, wall) =>
      var fact := Accepted(s, e, look);
      if fact.Some? && fact.value.expires > wall then Stored(s.cache, after, fact.value) else after == s.cache
    case _ => after == s.cache
  }

  // ----- Who may act -----

  ghost predicate AuthorityTold(s: State, e: Event, t: State) {
    match e
    case SetOwner(next, _) =>
      && t.alive == s.alive
      && (if Moves(s, next) then t.generation == s.generation + 1 && t.owner == (if next.None? then None else Some(Owner(t.generation, next.value)))
          else t.generation == s.generation && t.owner == s.owner)
    case Cancel => t.alive == s.alive && t.owner == s.owner && t.generation == s.generation + if s.alive then 1 else 0
    case Destroy => !t.alive && t.owner == None && t.generation == s.generation + if s.alive then 1 else 0
    case _ => t.alive == s.alive && t.owner == s.owner && t.generation == s.generation
  }

  // ----- The operations -----

  /** A body that can still be cancelled is; a cancel that does not throw is waited for. */
  function Dropped(r: Request, throws: bool): Request {
    if r.hasBody && !r.bodyCancelled then r.(bodyCancelled := true, cleanup := !throws) else r
  }

  datatype End = GoesOn | Ends(discards: bool, at: nat) | Completes

  function FetchEnd(s: State, r: Request, fetched: Fetched, look: nat -> Look): End {
    match fetched
    case FetchRejected(_) => Ends(true, 1)
    case FetchAnswered(p) =>
      if !May(s, r, look(0)) then Ends(true, 1)
      else if p.redirected || p.status != 200 || p.oversized || !p.readable then Ends(true, 2)
      else if May(s, r, look(1)) && May(s, r, look(2)) then GoesOn
      else Ends(true, 3)
  }

  function ReadEndOf(s: State, r: Request, result: ReadResult, look: nat -> Look): End {
    if result.ReadRejected? || !May(s, r, look(0)) then Ends(true, 1)
    else match result
      case ReadRejected(_) => GoesOn
      case ReadChunk(fits) => if fits && May(s, r, look(1)) then GoesOn else Ends(true, 2)
      case ReadEnd(parsed) =>
        if !May(s, r, look(1)) then Ends(false, 2)
        else if parsed.None? then Ends(true, 3)
        else if !May(s, r, look(2)) then Ends(false, 3)
        else Completes
  }

  /** An operation after its last step, at which it was found overdue or not. */
  function Ended(r: Request, discards: bool, overdue: bool, throws: bool): Request {
    var d := if discards || overdue then Dropped(r, throws) else r;
    d.(aborted := r.aborted || overdue, settled := true)
  }

  /** An ended operation stays charged until its body has been cleaned up, and is gone otherwise. */
  ghost predicate Over(t: State, id: nat, r: Request) {
    if r.cleanup then t.flight == Some(id) && t.running == map[id := r.(stage := Cleaning)] else t.flight == None && t.running == map[]
  }

  function SettledBy(r: Request, id: nat, ok: bool, phase: Phase): seq<Note> { if r.settled then [] else [Settle(id, ok, phase)] }

  ghost predicate OperationTold(s: State, id: nat, r: Request, end: End, fact: Option<Fact>, look: nat -> Look, throws: bool, t: State) {
    match end
    case GoesOn => t.flight == Some(id) && t.running == map[id := r.(stage := Reading)] && t.log == s.log
    case Ends(discards, at) =>
      Over(t, id, Ended(r, discards, Overdue(s, r, look(at)), throws)) && t.log == s.log + SettledBy(r, id, false, t.phase)
    case Completes =>
      && Over(t, id, Ended(r, false, false, throws)) && fact.Some?
      && t.log == s.log + [Accept(r, fact.value, s.generation, s.owner, look(2).now)] + SettledBy(r, id, true, t.phase)
  }

  ghost predicate QueryTold(s: State, input: QueryInput, look: nat -> Look, throws: bool, t: State) {
    var id := s.nextId;
    && t.nextId == id + 1
    && if !Asks(s, input, look) || Saved(s.cache, s.owner.value.target.address, input.wall).Some? || !input.urlValid || !input.secure || input.timerThrows then
         && t.running == s.running && t.flight == s.flight
         && var saved := Asks(s, input, look) && Saved(s.cache, s.owner.value.target.address, input.wall).Some?;
            t.log == s.log + [Settle(id, saved, if Asks(s, input, look) && !saved && input.urlValid && input.secure then s.phase else t.phase)]
       else
         var r := Request(s.owner.value, s.generation, look(1).now + WAIT, Fetching, false, false, false, false, false);
         if May(s, r, look(2)) && May(s, r, look(3)) then
           t.flight == Some(id) && t.running == map[id := r] && t.log == s.log + [Start(id, s.owner, 1)]
         else Over(t, id, Ended(r, false, Overdue(s, r, look(4)), throws)) && t.log == s.log + [Settle(id, false, t.phase)]
  }

  /** The operation under way, when there is one, is aborted, its body cancelled and its query answered; it stays charged. */
  ghost predicate Dismissed(s: State, notes: seq<Note>, phase: Phase, throws: bool, t: State) {
    && t.flight == s.flight
    && match s.flight
       case None => t.running == map[] && t.log == s.log + notes
       case Some(id) =>
         && id in s.running
         && var r := s.running[id];
            && t.running == map[id := Dropped(r, throws).(aborted := true, settled := true)]
            && t.log == s.log + notes + SettledBy(r, id, false, phase)
  }

  ghost predicate Untouched(s: State, t: State) { t.running == s.running && t.flight == s.flight && t.log == s.log }

  ghost predicate OperationsTold(s: State, e: Event, look: nat -> Look, throws: bool, t: State) {
    && (!e.Query? ==> t.nextId == s.nextId)
    && match e
       case SetOwner(next, _) =>
         if Moves(s, next) then Dismissed(s, [Revocation(s.generation + 1)], s.phase, throws, t) else Untouched(s, t)
       case Cancel => if s.alive then Dismissed(s, [Revocation(s.generation + 1)], s.phase, throws, t) else Untouched(s, t)
       case Destroy => if s.alive then Dismissed(s, [Revocation(s.generation + 1)], s.phase, throws, t) else Untouched(s, t)
       case Query(input) => QueryTold(s, input, look, throws, t)
       case TimerFires(id) =>
         if id in s.running && !s.running[id].settled then Dismissed(s, [], t.phase, throws, t) else Untouched(s, t)
       case FetchSettles(id, fetched) =>
         if id in s.running && s.running[id].stage == Fetching then
           var r := if fetched.FetchAnswered? then s.running[id].(hasBody := fetched.response.hasBody) else s.running[id];
           OperationTold(s, id, r, FetchEnd(s, r, fetched, look), None, look, throws, t)
         else Untouched(s, t)
       case ReadSettles(id, result, _) =>
         if id in s.running && s.running[id].stage == Reading then
           OperationTold(s, id, s.running[id], ReadEndOf(s, s.running[id], result, look), Accepted(s, e, look), look, throws, t)
         else Untouched(s, t)
       case CleanupSettles(id) =>
         if id in s.running && s.running[id].stage == Cleaning then t.flight == None && t.running == map[] && t.log == s.log else Untouched(s, t)
  }

  ghost predicate Told(s: State, e: Event, look: nat -> Look, throws: bool, t: State) {
    && t.phase == (var shown := FirstOf(Rows(s, e, look)); if shown.Some? then shown.value else s.phase)
    && CacheTold(s, e, look, t.cache) && AuthorityTold(s, e, t) && OperationsTold(s, e, look, throws, t)
  }

  // ----- The parts of a turn -----

  lemma {:induction false} FirstAt(rows: seq<Row>, k: nat)
    requires k <= |rows| && (forall j :: 0 <= j < k ==> !rows[j].cause) && (k < |rows| ==> rows[k].cause)
    ensures FirstOf(rows) == if k < |rows| then rows[k].shows else None
  {
    if 0 < k {
      FirstAt(rows[1..], k - 1);
    }
  }

  /** One operation is under way, and the controller is alive when it has an owner. */
  ghost predicate Flying(s: State, id: nat) {
    s.flight == Some(id) && s.running.Keys == {id} && (s.owner.Some? ==> s.alive)
  }

  lemma OneOperation(s: State, id: nat)
    requires Flying(s, id)
    ensures s.running == map[id := s.running[id]]
    ensures forall r: Request :: s.running[id := r] == map[id := r]
  {
  }

  /** Aborting an operation drops its body and answers its query. */
  lemma AbortTold(s: State, id: nat, throws: bool)
    requires Flying(s, id)
    ensures var r := s.running[id];
            var t := SettleRequest(StopBody(Change(s, id, r.(aborted := true)), id, throws), id, false);
            t == s.(running := map[id := Dropped(r, throws).(aborted := true, settled := true)], log := s.log + SettledBy(r, id, false, s.phase))
  {
    OneOperation(s, id);
    assert s.log + [] == s.log;
  }

  lemma TimeoutTold(s: State, id: nat, look: Look, throws: bool)
    requires Flying(s, id) && !s.running[id].settled
    ensures var r, t := s.running[id], Timeout(s, id, look, throws);
            t == s.(running := map[id := Dropped(r, throws).(aborted := true, settled := true)], log := s.log + [Settle(id, false, t.phase)],
                    phase := if Holds(s, r, look) then TimedOut else s.phase)
  {
    hide StopBody, SettleRequest, Change, Dropped;
    var t := if Owns(s, s.running[id], look) && !s.running[id].aborted then Publish(s, TimedOut) else s;
    AbortTold(t, id, throws);
  }

  lemma SettledStays(s: State, id: nat, look: Look, throws: bool)
    requires Flying(s, id) && s.running[id].settled
    ensures Timeout(s, id, look, throws) == s
  {
  }

  lemma DropKeeps(r: Request, throws: bool)
    ensures var d := Dropped(r, throws);
            && d.settled == r.settled && d.aborted == r.aborted && d.stage == r.stage
            && d.owner == r.owner && d.generation == r.generation && d.deadline == r.deadline
    ensures forall stage :: Dropped(r, throws).(aborted := true, settled := true, stage := stage) == Dropped(r, throws).(aborted := true, settled := true).(stage := stage)
  {
  }

  lemma FinishTold(s: State, id: nat, first: Look, second: Look, throws: bool)
    requires Flying(s, id)
    ensures var r, t := s.running[id], Finish(s, id, first, second, throws);
            && t.phase == (if Overdue(s, r, first) && Holds(s, r, second) then TimedOut else s.phase)
            && t.cache == s.cache && t.owner == s.owner && t.generation == s.generation && t.alive == s.alive && t.nextId == s.nextId
            && Over(t, id, Ended(r, false, Overdue(s, r, first), throws)) && t.log == s.log + SettledBy(r, id, false, t.phase)
  {
    hide Timeout, Dropped;
    OneOperation(s, id);
    assert s.log + [] == s.log;
    if Overdue(s, s.running[id], first) {
      TimeoutTold(s, id, second, throws);
      DropKeeps(s.running[id], throws);
    } else if s.running[id].settled {
      SettledStays(s, id, second, throws);
    }
  }

  lemma StopTold(s: State, id: nat, throws: bool)
    requires Flying(s, id)
    ensures StopBody(s, id, throws) == s.(running := map[id := Dropped(s.running[id], throws)]) && Flying(StopBody(s, id, throws), id)
  {
  }

  lemma FailTold(s: State, id: nat, invalid: bool, look: Look, throws: bool)
    requires Flying(s, id)
    ensures var t := Fail(s, id, invalid, look, throws);
            && Flying(t, id) && t.running[id] == Dropped(s.running[id], throws)
            && t == s.(running := t.running, phase := if May(s, s.running[id], look) then (if invalid then InvalidResponse else Unavailable) else s.phase)
  {
    StopTold(s, id, throws);
  }

  lemma DropTwice(s: State, r: Request, overdue: bool, throws: bool)
    ensures Ended(Dropped(r, throws), false, overdue, throws) == Ended(r, true, overdue, throws)
    ensures forall l :: Overdue(s, Dropped(r, throws), l) == Overdue(s, r, l) && Holds(s, Dropped(r, throws), l) == Holds(s, r, l)
  {
  }

  /** What the turn of an operation that ends with a failure or is dropped comes to. */
  lemma EndTold(s: State, id: nat, r: Request, u: State, discards: bool, at: nat, shown: Option<Phase>, look: nat -> Look, throws: bool)
    requires Flying(s, id) && Flying(u, id) && (r.settled == s.running[id].settled)
    requires u.running[id] == if discards then Dropped(r, throws) else r
    requires u == s.(running := u.running, phase := if shown.Some? then shown.value else s.phase)
    ensures var t := Finish(u, id, look(at), look(at + 1), throws);
            && OperationTold(s, id, r, Ends(discards, at), None, look, throws, t)
            && t.phase == (if Overdue(s, r, look(at)) && Holds(s, r, look(at + 1)) then TimedOut else u.phase)
            && t.cache == s.cache && t.owner == s.owner && t.generation == s.generation && t.alive == s.alive && t.nextId == s.nextId
  {
    hide Finish, Ended, Over;
    FinishTold(u, id, look(at), look(at + 1), throws);
    DropTwice(s, r, Overdue(s, r, look(at)), throws);
  }

  // ----- The cache -----

  lemma {:induction false} NoneWithout(cache: seq<Fact>, address: string)
    requires forall k: nat :: k < |cache| ==> cache[k].address != address
    ensures Without(cache, address) == cache && Find(cache, address) == None
  {
    if cache != [] {
      assert forall k: nat :: k < |cache[1..]| ==> cache[1..][k] == cache[k + 1];
      NoneWithout(cache[1..], address);
    }
  }

  ghost predicate Distinct(cache: seq<Fact>) { forall i, j :: 0 <= i < j < |cache| ==> cache[i].address != cache[j].address }

  /** With one value for an address, taking it out leaves the others in their order. */
  lemma {:induction false} OneWithout(cache: seq<Fact>, address: string, k: nat)
    requires Distinct(cache) && k < |cache| && cache[k].address == address
    ensures Without(cache, address) == cache[..k] + cache[k + 1..] && Find(cache, address) == Some(cache[k])
  {
    if k == 0 {
      forall j: nat | j < |cache[1..]| ensures cache[1..][j].address != address {
        assert cache[1..][j] == cache[j + 1];
      }
      NoneWithout(cache[1..], address);
    } else {
      assert cache[1..][k - 1] == cache[k];
      OneWithout(cache[1..], address, k - 1);
      assert cache[..k] == [cache[0]] + cache[1..][..k - 1] && cache[1..][k..] == cache[k + 1..];
    }
  }

  lemma CachedTold(s: State, address: string, wall: int)
    requires Distinct(s.cache)
    ensures var (t, value) := Cached(s, address, wall);
            t == s.(cache := t.cache) && LookedUp(s.cache, t.cache, address, wall) && value == Saved(s.cache, address, wall)
  {
    hide Find, Without;
    if k: nat :| k < |s.cache| && s.cache[k].address == address {
      OneWithout(s.cache, address, k);
      forall j: nat | j < |s.cache| && s.cache[j].address == address ensures j == k {
      }
      assert s.cache[..k] + s.cache[k + 1..] + [] == s.cache[..k] + s.cache[k + 1..];
    } else {
      NoneWithout(s.cache, address);
    }
  }

  lemma StoredTold(cache: seq<Fact>, fact: Fact)
    requires Distinct(cache)
    ensures Stored(cache, Trimmed(Without(cache, fact.address) + [fact]), fact)
  {
    hide Without;
    forall k: nat | k < |cache| && cache[k].address == fact.address ensures Without(cache, fact.address) == cache[..k] + cache[k + 1..] {
      OneWithout(cache, fact.address, k);
    }
    if forall k: nat :: k < |cache| ==> cache[k].address != fact.address {
      NoneWithout(cache, fact.address);
    }
  }

  // ----- One turn -----

  lemma FetchTold(s: State, id: nat, fetched: Fetched, look: nat -> Look, throws: bool)
    requires Flying(s, id) && s.running[id].stage == Fetching
    ensures Told(s, FetchSettles(id, fetched), look, throws, FetchTurn(s, id, fetched, look, throws))
  {
    hide Finish, Fail, StopBody, FirstOf, Over, Ended, Dropped;
    OneOperation(s, id);
    match fetched
    case FetchRejected(invalid) =>
      var r := s.running[id];
      FailTold(s, id, invalid, look(0), throws);
      var shown := if May(s, r, look(0)) then Some(if invalid then InvalidResponse else Unavailable) else None;
      EndTold(s, id, r, Fail(s, id, invalid, look(0), throws), true, 1, shown, look, throws);
      FirstAt(FetchRows(s, r, fetched, look),
              if Overtime(s, r, look(1), look(2)).cause then 0 else if May(s, r, look(0)) && invalid then 1 else if May(s, r, look(0)) then 2 else 3);
    case FetchAnswered(p) =>
      AnsweredTold(s, id, p, look, throws);
  }

  function StatusShown(status: nat): Phase {
    if status == 404 then Unsupported else if status == 401 then Unauthorized else if status == 429 then RateLimited
    else if status == 503 then Busy else Unavailable
  }

  lemma StatusRows(s: State, r: Request, p: Response, look: nat -> Look)
    requires May(s, r, look(0)) && (p.redirected || p.status != 200)
    ensures FirstOf(FetchRows(s, r, FetchAnswered(p), look)) ==
            if Overtime(s, r, look(2), look(3)).cause then Some(TimedOut) else if !May(s, r, look(1)) then None else Some(StatusShown(p.status))
  {
    hide FirstOf, May, Overdue, Holds;
    FirstAt(FetchRows(s, r, FetchAnswered(p), look),
            if Overtime(s, r, look(2), look(3)).cause then 0 else if !May(s, r, look(1)) then 1
            else if p.status == 404 then 2 else if p.status == 401 then 3 else if p.status == 429 then 4 else if p.status == 503 then 5 else 6);
  }

  lemma OtherRows(s: State, r: Request, p: Response, look: nat -> Look)
    requires !May(s, r, look(0)) || !(p.redirected || p.status != 200)
    ensures FirstOf(FetchRows(s, r, FetchAnswered(p), look)) ==
            if !May(s, r, look(0)) then (if Overtime(s, r, look(1), look(2)).cause then Some(TimedOut) else None)
            else if p.oversized || !p.readable then
              (if Overtime(s, r, look(2), look(3)).cause then Some(TimedOut) else if May(s, r, look(1)) then Some(InvalidResponse) else None)
            else if May(s, r, look(1)) && May(s, r, look(2)) then None
            else if Overtime(s, r, look(3), look(4)).cause then Some(TimedOut) else None
  {
    hide FirstOf, May, Overdue, Holds;
    FirstAt(FetchRows(s, r, FetchAnswered(p), look),
            if !May(s, r, look(0)) then (if Overtime(s, r, look(1), look(2)).cause then 0 else 1)
            else if p.oversized || !p.readable then (if Overtime(s, r, look(2), look(3)).cause then 0 else if May(s, r, look(1)) then 1 else 2)
            else if May(s, r, look(1)) && May(s, r, look(2)) then 0
            else if Overtime(s, r, look(3), look(4)).cause then 1 else 2);
  }

  /** The operation once its answer is there. */
  function Answered(s: State, id: nat, p: Response): Request
    requires id in s.running
  {
    s.running[id].(hasBody := p.hasBody)
  }

  lemma AnsweredTurn(s: State, id: nat, p: Response, look: nat -> Look, throws: bool)
    requires Flying(s, id)
    ensures var r := Answered(s, id, p);
            var t := Change(s, id, r);
            var u := StopBody(t, id, throws);
            FetchTurn(s, id, FetchAnswered(p), look, throws) ==
              if !May(s, r, look(0)) then Finish(u, id, look(1), look(2), throws)
              else if p.redirected || p.status != 200 then Finish(if May(s, r, look(1)) then Publish(u, StatusShown(p.status)) else u, id, look(2), look(3), throws)
              else if p.oversized || !p.readable then Finish(Fail(t, id, true, look(1), throws), id, look(2), look(3), throws)
              else if !May(s, r, look(1)) || !May(s, r, look(2)) then Finish(u, id, look(3), look(4), throws)
              else Change(t, id, r.(stage := Reading))
  {
    hide Finish, Fail, StopBody, Dropped;
    var t := Change(s, id, Answered(s, id, p));
    StopTold(t, id, throws);
    DropKeeps(t.running[id], throws);
  }

  lemma SameAuthority(s: State, id: nat, p: Response)
    requires id in s.running
    ensures forall l :: May(s, Answered(s, id, p), l) == May(s, s.running[id], l)
    ensures forall l, m :: Overtime(s, Answered(s, id, p), l, m) == Overtime(s, s.running[id], l, m)
  {
  }

  lemma ChangeFlying(s: State, id: nat, r: Request)
    requires Flying(s, id)
    ensures Change(s, id, r) == s.(running := map[id := r]) && Flying(Change(s, id, r), id)
  {
  }

  /** A fetch changes nothing but its operation, the notes and what is shown. */
  lemma FetchComes(s: State, id: nat, p: Response, look: nat -> Look, throws: bool, t: State)
    requires Flying(s, id) && s.running[id].stage == Fetching
    requires var shown := FirstOf(FetchRows(s, s.running[id], FetchAnswered(p), look));
             t.phase == if shown.Some? then shown.value else s.phase
    requires t.cache == s.cache && t.owner == s.owner && t.generation == s.generation && t.alive == s.alive && t.nextId == s.nextId
    requires OperationTold(s, id, Answered(s, id, p), FetchEnd(s, Answered(s, id, p), FetchAnswered(p), look), None, look, throws, t)
    ensures Told(s, FetchSettles(id, FetchAnswered(p)), look, throws, t)
  {
    hide FetchRows, FetchEnd, OperationTold, FirstOf;
  }

  lemma ReadingTold(s: State, id: nat, r: Request, look: nat -> Look, throws: bool)
    requires Flying(s, id)
    ensures var t := Change(Change(s, id, r), id, r.(stage := Reading));
            && OperationTold(s, id, r, GoesOn, None, look, throws, t) && t == s.(running := t.running)
  {
    ChangeFlying(s, id, r);
    ChangeFlying(Change(s, id, r), id, r.(stage := Reading));
  }

  lemma AnsweredTold(s: State, id: nat, p: Response, look: nat -> Look, throws: bool)
    requires Flying(s, id) && id in s.running && s.running[id].stage == Fetching
    ensures Told(s, FetchSettles(id, FetchAnswered(p)), look, throws, FetchTurn(s, id, FetchAnswered(p), look, throws))
  {
    hide Finish, Fail, StopBody, Change, FirstOf, Dropped, FetchTurn, FetchRows, May, Overdue, Holds, Flying, Told, OperationTold;
    var r := Answered(s, id, p);
    var t := Change(s, id, r);
    ChangeFlying(s, id, r);
    AnsweredTurn(s, id, p, look, throws);
    SameAuthority(s, id, p);
    StopTold(t, id, throws);
    var u := StopBody(t, id, throws);
    if !May(s, r, look(0)) {
      EndTold(s, id, r, u, true, 1, None, look, throws);
      OtherRows(s, s.running[id], p, look);
    } else if p.redirected || p.status != 200 {
      var shown := if May(s, r, look(1)) then Some(StatusShown(p.status)) else None;
      PublishFlying(u, id, StatusShown(p.status));
      EndTold(s, id, r, if May(s, r, look(1)) then Publish(u, StatusShown(p.status)) else u, true, 2, shown, look, throws);
      StatusRows(s, s.running[id], p, look);
    } else {
      OtherRows(s, s.running[id], p, look);
      if p.oversized || !p.readable {
        FailTold(t, id, true, look(1), throws);
        FailAuthority(s, t, r, look(1));
        EndTold(s, id, r, Fail(t, id, true, look(1), throws), true, 2, if May(s, r, look(1)) then Some(InvalidResponse) else None, look, throws);
      } else if !May(s, r, look(1)) || !May(s, r, look(2)) {
        EndTold(s, id, r, u, true, 3, None, look, throws);
      } else {
        ReadingTold(s, id, r, look, throws);
      }
    }
    FetchComes(s, id, p, look, throws, FetchTurn(s, id, FetchAnswered(p), look, throws));
  }

  lemma PublishFlying(s: State, id: nat, phase: Phase)
    requires Flying(s, id)
    ensures Flying(Publish(s, phase), id)
  {
  }

  lemma FailAuthority(s: State, t: State, r: Request, l: Look)
    requires t == s.(running := t.running)
    ensures May(t, r, l) == May(s, r, l)
  {
  }

  lemma ReadTold(s: State, id: nat, result: ReadResult, wall: int, look: nat -> Look, throws: bool)
    requires Flying(s, id) && s.running[id].stage == Reading && Distinct(s.cache)
    ensures Told(s, ReadSettles(id, result, wall), look, throws, ReadTurn(s, id, result, wall, look, throws))
  {
    hide Finish, Fail, StopBody, FirstOf, Over, Ended, Dropped, AcceptFact, Stored;
    OneOperation(s, id);
    var r := s.running[id];
    var rows := ReadRows(s, r, result, look);
    StopTold(s, id, throws);
    var u := StopBody(s, id, throws);
    if result.ReadRejected? {
      FailTold(s, id, result.invalid, look(0), throws);
      var shown := if May(s, r, look(0)) then Some(if result.invalid then InvalidResponse else Unavailable) else None;
      EndTold(s, id, r, Fail(s, id, result.invalid, look(0), throws), true, 1, shown, look, throws);
      FirstAt(rows, if Overtime(s, r, look(1), look(2)).cause then 0 else if May(s, r, look(0)) && result.invalid then 1 else if May(s, r, look(0)) then 2 else 3);
    } else if !May(s, r, look(0)) {
      EndTold(s, id, r, u, true, 1, None, look, throws);
      FirstAt(rows, if Overtime(s, r, look(1), look(2)).cause then 0 else 1);
    } else if result.ReadChunk? {
      ChunkTold(s, id, result.fits, wall, look, throws);
    } else {
      LastReadTold(s, id, result.parsed, wall, look, throws);
    }
  }

  lemma ChunkTold(s: State, id: nat, fits: bool, wall: int, look: nat -> Look, throws: bool)
    requires Flying(s, id) && s.running[id].stage == Reading && May(s, s.running[id], look(0))
    ensures Told(s, ReadSettles(id, ReadChunk(fits), wall), look, throws, ReadTurn(s, id, ReadChunk(fits), wall, look, throws))
  {
    hide Finish, Fail, StopBody, FirstOf, Over, Ended, Dropped, AcceptFact, Stored;
    OneOperation(s, id);
    var r := s.running[id];
    var rows := ReadRows(s, r, ReadChunk(fits), look);
    StopTold(s, id, throws);
    if !fits {
      FailTold(s, id, true, look(1), throws);
      EndTold(s, id, r, Fail(s, id, true, look(1), throws), true, 2, if May(s, r, look(1)) then Some(InvalidResponse) else None, look, throws);
      FirstAt(rows, if Overtime(s, r, look(2), look(3)).cause then 1 else if May(s, r, look(1)) then 2 else 3);
    } else if !May(s, r, look(1)) {
      EndTold(s, id, r, StopBody(s, id, throws), true, 2, None, look, throws);
      FirstAt(rows, if Overtime(s, r, look(2), look(3)).cause then 1 else 3);
    } else {
      FirstAt(rows, 0);
    }
  }

  lemma LastReadTold(s: State, id: nat, parsed: Option<(int, string)>, wall: int, look: nat -> Look, throws: bool)
    requires Flying(s, id) && s.running[id].stage == Reading && May(s, s.running[id], look(0)) && Distinct(s.cache)
    ensures Told(s, ReadSettles(id, ReadEnd(parsed), wall), look, throws, ReadTurn(s, id, ReadEnd(parsed), wall, look, throws))
  {
    hide Finish, Fail, StopBody, FirstOf, Over, Ended, Dropped, AcceptFact, Stored;
    OneOperation(s, id);
    var r := s.running[id];
    var rows := ReadRows(s, r, ReadEnd(parsed), look);
    if !May(s, r, look(1)) {
      EndTold(s, id, r, s, false, 2, None, look, throws);
      FirstAt(rows, if Overtime(s, r, look(2), look(3)).cause then 0 else 1);
    } else if parsed.None? {
      FailTold(s, id, true, look(2), throws);
      EndTold(s, id, r, Fail(s, id, true, look(2), throws), true, 3, if May(s, r, look(2)) then Some(InvalidResponse) else None, look, throws);
      FirstAt(rows, if Overtime(s, r, look(3), look(4)).cause then 0 else if May(s, r, look(2)) then 1 else 2);
    } else if !May(s, r, look(2)) {
      EndTold(s, id, r, s, false, 3, None, look, throws);
      FirstAt(rows, if Overtime(s, r, look(3), look(4)).cause then 0 else 1);
    } else {
      FirstAt(rows, 0);
      AcceptTold(s, id, Parsed(r, parsed.value), wall, look, throws);
    }
  }

  lemma AcceptTold(s: State, id: nat, fact: Fact, wall: int, look: nat -> Look, throws: bool)
    requires Flying(s, id) && Distinct(s.cache)
    ensures var r, t := s.running[id], Finish(AcceptFact(s, id, fact, wall, look(2).now), id, look(3), look(4), throws);
            && OperationTold(s, id, r, Completes, Some(fact), look, throws, t) && t.phase == Ready(fact, false)
            && (if fact.expires > wall then Stored(s.cache, t.cache, fact) else t.cache == s.cache)
            && t.owner == s.owner && t.generation == s.generation && t.alive == s.alive && t.nextId == s.nextId
  {
    hide Finish, Over, Trimmed, Without, Stored;
    OneOperation(s, id);
    StoredTold(s.cache, fact);
    var a := AcceptFact(s, id, fact, wall, look(2).now);
    FinishTold(a, id, look(3), look(4), throws);
    assert a.log + [] == a.log;
    assert s.log + [Accept(s.running[id], fact, s.generation, s.owner, look(2).now)] + [] == s.log + [Accept(s.running[id], fact, s.generation, s.owner, look(2).now)];
  }

  /** What a turn may count on. */
  ghost predicate Settled(s: State) {
    && Distinct(s.cache) && (s.owner.Some? ==> s.alive)
    && s.running.Keys == (if s.flight.Some? then {s.flight.value} else {})
  }

  lemma InvariantSettles(s: State)
    requires Invariant(s)
    ensures Settled(s)
    ensures s.flight.Some? ==> Flying(s, s.flight.value)
    ensures forall id :: id in s.running ==> s.flight == Some(id)
    ensures s.flight.None? ==> s.running == map[]
  {
    if s.flight.None? {
      assert s.running.Keys == {};
    }
  }

  lemma RevokeTold(s: State, throws: bool)
    requires (s.flight.Some? ==> Flying(s, s.flight.value)) && (s.flight.None? ==> s.running == map[])
    ensures var t := Revoke(s, throws);
            && Dismissed(s, [Revocation(s.generation + 1)], s.phase, throws, t)
            && t == s.(running := t.running, log := t.log, generation := s.generation + 1)
  {
    hide Dropped, StopBody, SettleRequest, Change;
    var t := s.(generation := s.generation + 1, log := s.log + [Revocation(s.generation + 1)]);
    if s.flight.Some? {
      AbortTold(t, s.flight.value, throws);
    }
  }

  lemma SetOwnerTold(s: State, next: Option<Target>, wall: int, look: nat -> Look, throws: bool)
    requires Invariant(s)
    ensures Told(s, SetOwner(next, wall), look, throws, SetOwnerTurn(s, next, wall, throws))
  {
    hide Invariant, Revoke, Cached, LookedUp, Saved, Dismissed, Distinct;
    InvariantSettles(s);
    if Moves(s, next) {
      var t := s.(cache := Outliving(s, next));
      NothingDistinct();
      RevokeTold(t, throws);
      var u := Revoke(t, throws);
      DismissedAgain(s, t, u, [Revocation(s.generation + 1)], s.phase, throws);
      if next.Some? {
        CachedTold(u.(owner := Some(Owner(u.generation, next.value))), next.value.address, wall);
      }
      DismissedAgain(s, t, SetOwnerTurn(s, next, wall, throws), [Revocation(s.generation + 1)], s.phase, throws);
    }
  }

  lemma NothingDistinct()
    ensures Distinct([])
  {
  }

  lemma DismissedAgain(s: State, t: State, u: State, notes: seq<Note>, phase: Phase, throws: bool)
    requires t == s.(cache := t.cache)
    ensures Dismissed(t, notes, phase, throws, u) == Dismissed(s, notes, phase, throws, u)
    ensures forall v: State :: v.running == u.running && v.log == u.log && v.flight == u.flight ==>
              Dismissed(s, notes, phase, throws, u) == Dismissed(s, notes, phase, throws, v)
  {
  }

  lemma TimerTold(s: State, id: nat, look: nat -> Look, throws: bool)
    requires Invariant(s) && id in s.running
    ensures Told(s, TimerFires(id), look, throws, Timeout(s, id, look(0), throws))
  {
    hide Timeout, Dropped, FirstOf, Invariant;
    InvariantSettles(s);
    OneOperation(s, id);
    assert s.log + [] == s.log;
    FirstAt([Row(Holds(s, s.running[id], look(0)) && !s.running[id].settled, Some(TimedOut))],
            if Holds(s, s.running[id], look(0)) && !s.running[id].settled then 0 else 1);
    if s.running[id].settled {
      SettledStays(s, id, look(0), throws);
    } else {
      TimeoutTold(s, id, look(0), throws);
    }
  }

  lemma CleanupTold(s: State, id: nat, look: nat -> Look, throws: bool)
    requires Invariant(s) && id in s.running && s.running[id].stage == Cleaning
    ensures Told(s, CleanupSettles(id), look, throws, Remove(s, id))
  {
    hide Invariant;
    InvariantSettles(s);
    OneOperation(s, id);
  }

  /** A query that is answered at once. */
  lemma AnswerTold(s: State, input: QueryInput, look: nat -> Look, throws: bool)
    requires Invariant(s)
    requires !Asks(s, input, look) || Saved(s.cache, s.owner.value.target.address, input.wall).Some? || !input.urlValid || !input.secure || input.timerThrows
    ensures Told(s, Query(input), look, throws, QueryTurn(s, input, look, throws))
  {
    hide Invariant, Cached, LookedUp, Saved, FirstOf, Distinct;
    InvariantSettles(s);
    var t := QueryTurn(s, input, look, throws);
    if s.owner.Some? && look(0).current {
      var address := s.owner.value.target.address;
      CachedTold(s, address, input.wall);
      var saved := Saved(s.cache, address, input.wall);
      FirstAt(QueryRows(s, input, look),
              if !input.eligible then 0 else if s.flight.Some? then 1 else if saved.Some? then 2 else if !input.urlValid then 3
              else if !input.secure then 4 else 5);
      assert CacheTold(s, Query(input), look, t.cache);
      assert t.phase == (var shown := FirstOf(Rows(s, Query(input), look)); if shown.Some? then shown.value else s.phase);
      assert QueryTold(s, input, look, throws, t);
    } else {
      FirstAt([], 0);
    }
  }

  lemma LaunchTold(s: State, input: QueryInput, look: nat -> Look, throws: bool)
    requires Invariant(s)
    requires Asks(s, input, look) && Saved(s.cache, s.owner.value.target.address, input.wall).None? && input.urlValid && input.secure && !input.timerThrows
    ensures Told(s, Query(input), look, throws, QueryTurn(s, input, look, throws))
  {
    hide Invariant, Cached, LookedUp, Saved, FirstOf, Distinct, Finish, Over, Ended;
    InvariantSettles(s);
    CachedTold(s, s.owner.value.target.address, input.wall);
    var t := Cached(s, s.owner.value.target.address, input.wall).0;
    var id := s.nextId;
    var c := Charge(t, look(1).now + WAIT);
    assert c.running == map[id := c.running[id]];
    OneKey(c.running, id);
    FinishTold(c, id, look(4), look(5), throws);
    var goes := look(2).current && look(2).now < look(1).now + WAIT && look(3).current && look(3).now < look(1).now + WAIT;
    FirstAt(QueryRows(s, input, look), if goes then 6 else if look(4).current && look(4).now >= look(1).now + WAIT && look(5).current then 7 else 8);
  }

  /** Every turn from a reachable state shows, keeps, answers and charges what the tables say. */
  lemma TurnTold(s: State, e: Event, look: nat -> Look, throws: bool)
    requires Invariant(s)
    ensures Told(s, e, look, throws, Turn(s, e, look, throws))
  {
    hide Invariant, Told, SetOwnerTurn, QueryTurn, FetchTurn, ReadTurn, Timeout, Remove, Distinct, Saved;
    InvariantSettles(s);
    match e
    case SetOwner(next, wall) => SetOwnerTold(s, next, wall, look, throws);
    case Cancel => StopsTold(s, e, look, throws);
    case Destroy => StopsTold(s, e, look, throws);
    case Query(input) =>
      if !Asks(s, input, look) || Saved(s.cache, s.owner.value.target.address, input.wall).Some? || !input.urlValid || !input.secure || input.timerThrows {
        AnswerTold(s, input, look, throws);
      } else {
        LaunchTold(s, input, look, throws);
      }
    case TimerFires(id) =>
      if id in s.running {
        TimerTold(s, id, look, throws);
      } else {
        QuietTold(s, e, look, throws);
      }
    case FetchSettles(id, fetched) =>
      if id in s.running && s.running[id].stage == Fetching {
        FetchTold(s, id, fetched, look, throws);
      } else {
        QuietTold(s, e, look, throws);
      }
    case ReadSettles(id, result, wall) =>
      if id in s.running && s.running[id].stage == Reading {
        ReadTold(s, id, result, wall, look, throws);
      } else {
        QuietTold(s, e, look, throws);
      }
    case CleanupSettles(id) =>
      if id in s.running && s.running[id].stage == Cleaning {
        CleanupTold(s, id, look, throws);
      } else {
        QuietTold(s, e, look, throws);
      }
  }

  lemma StopsTold(s: State, e: Event, look: nat -> Look, throws: bool)
    requires Invariant(s) && (e.Cancel? || e.Destroy?)
    ensures Told(s, e, look, throws, Turn(s, e, look, throws))
  {
    hide Invariant, Revoke, Dropped, Distinct, Dismissed, FirstOf;
    InvariantSettles(s);
    FirstAt(Rows(s, e, look), if s.alive then 0 else 1);
    if s.alive {
      RevokeTold(s, throws);
      DismissedAgain(s, s, Revoke(s, throws), [Revocation(s.generation + 1)], s.phase, throws);
    }
  }

  /** An event for an operation that is not waiting for it changes nothing. */
  lemma QuietTold(s: State, e: Event, look: nat -> Look, throws: bool)
    requires match e
             case TimerFires(id) => id !in s.running
             case FetchSettles(id, _) => !(id in s.running && s.running[id].stage == Fetching)
             case ReadSettles(id, _, _) => !(id in s.running && s.running[id].stage == Reading)
             case CleanupSettles(id) => !(id in s.running && s.running[id].stage == Cleaning)
             case _ => false
    ensures Told(s, e, look, throws, s) && Turn(s, e, look, throws) == s
  {
  }

  // ----- Whole runs -----

  /** Over every run and interleaving, every turn shows what the first of its causes says, keeps only what was
      accepted, and charges, answers and releases operations as the tables say. */
  lemma EveryTurnIsTold(steps: seq<Step>, e: Event, look: nat -> Look, throws: bool)
    ensures var s := Run(INITIAL, steps);
            && Told(s, e, look, throws, Turn(s, e, look, throws))
            && Run(INITIAL, steps + [Step(e, look, throws)]) == Turn(s, e, look, throws)
  {
    hide Invariant, Told, Turn;
    InitialHolds();
    RunKeeps(INITIAL, steps);
    TurnTold(Run(INITIAL, steps), e, look, throws);
    RunMore(INITIAL, steps, Step(e, look, throws));
  }

  lemma {:induction false} RunMore(s: State, steps: seq<Step>, step: Step)
    ensures Run(s, steps + [step]) == Turn(Run(s, steps), step.event, step.look, step.throws)
    decreases |steps|
  {
    hide Turn;
    var all := steps + [step];
    if steps == [] {
      assert all == [step] && all[1..] == [];
    } else {
      assert all[0] == steps[0] && all[1..] == steps[1..] + [step];
      RunMore(Turn(s, steps[0].event, steps[0].look, steps[0].throws), steps[1..], step);
    }
  }

  lemma {:induction false} NoCachedRow(rows: seq<Row>)
    requires forall k :: 0 <= k < |rows| && rows[k].shows.Some? && rows[k].shows.value.Ready? ==> !rows[k].shows.value.appCache
    ensures FirstOf(rows).Some? && FirstOf(rows).value.Ready? ==> !FirstOf(rows).value.appCache
  {
    if rows != [] {
      NoCachedRow(rows[1..]);
    }
  }

  lemma SavedIsLive(cache: seq<Fact>, address: string, wall: int)
    ensures var saved := Saved(cache, address, wall);
            saved.Some? ==> saved.value in cache && saved.value.address == address && saved.value.expires > wall
  {
  }

  lemma LookedUpKeeps(before: seq<Fact>, after: seq<Fact>, address: string, wall: int)
    requires LookedUp(before, after, address, wall)
    ensures var saved := Saved(before, address, wall); saved.Some? ==> saved.value in after
  {
    if k: nat :| k < |before| && before[k].address == address && before[k].expires > wall && Saved(before, address, wall) == Some(before[k]) {
      assert after[|after| - 1] == before[k];
    }
  }

  /** Only a query and a change of owner show a value from the cache. */
  lemma CachedRow(s: State, e: Event, look: nat -> Look)
    ensures var shown := FirstOf(Rows(s, e, look));
            shown.Some? && shown.value.Ready? && shown.value.appCache ==>
              if e.Query? then
                Asks(s, e.input, look) && Saved(s.cache, s.owner.value.target.address, e.input.wall) == Some(shown.value.fact)
              else
                e.SetOwner? && e.next.Some? && Moves(s, e.next) && Saved(Outliving(s, e.next), e.next.value.address, e.wall) == Some(shown.value.fact)
  {
    hide Saved, FirstOf;
    var rows := Rows(s, e, look);
    if e.Query? && s.owner.Some? && look(0).current {
      var saved := Saved(s.cache, s.owner.value.target.address, e.input.wall);
      if !e.input.eligible {
        FirstAt(rows, 0);
      } else if s.flight.Some? {
        FirstAt(rows, 1);
      } else if saved.Some? {
        FirstAt(rows, 2);
      } else {
        NoCachedRow(rows);
      }
    } else if e.SetOwner? && Moves(s, e.next) {
      FirstAt(rows, 0);
    } else {
      NoCachedRow(rows);
    }
  }

  /** Over every run, a turn that comes to show a value from the cache shows one that is for the owner's address,
      was fetched under the owner's scope and has not expired, and keeps it. */
  lemma ShownFromTheCacheIsFresh(steps: seq<Step>, e: Event, look: nat -> Look, throws: bool)
    ensures var s := Run(INITIAL, steps);
            var t := Turn(s, e, look, throws);
            t.phase != s.phase && t.phase.Ready? && t.phase.appCache ==>
              && t.owner.Some? && t.phase.fact.address == t.owner.value.target.address && t.phase.fact.under == t.owner.value.target.scope
              && t.phase.fact in s.cache && t.phase.fact in t.cache
              && (e.Query? || e.SetOwner?) && t.phase.fact.expires > if e.Query? then e.input.wall else e.wall
  {
    hide Run, Turn, Invariant, FirstOf, Rows, Saved, LookedUp, OperationsTold;
    InitialHolds();
    RunKeeps(INITIAL, steps);
    var s := Run(INITIAL, steps);
    TurnTold(s, e, look, throws);
    var t := Turn(s, e, look, throws);
    CachedRow(s, e, look);
    if t.phase != s.phase && t.phase.Ready? && t.phase.appCache {
      var (before, address, wall) := if e.Query? then (s.cache, s.owner.value.target.address, e.input.wall) else (Outliving(s, e.next), e.next.value.address, e.wall);
      SavedIsLive(before, address, wall);
      LookedUpKeeps(before, t.cache, address, wall);
      CacheScope(s);
    }
  }

  lemma CacheScope(s: State)
    requires Invariant(s)
    ensures forall fact :: fact in s.cache ==> s.owner.Some? && fact.under == s.owner.value.target.scope
  {
  }
}
