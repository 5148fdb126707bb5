/** The render coordinators of a page (frontend/topology-renderer.js:455-562, 587-657, 762-770, 912-933). Each
    synchronous turn is one step. Coordinators may share roots; a scheduled callback runs at most once, perhaps
    after it was cancelled; whether the request is still owned is an input of every check. */
module RenderCoordinator {
  import opened Text

  type Token = nat

  datatype Phase =
    | Rendering | Ready(completed: nat, total: nat) | Unrenderable | Empty
    | Cancelled | Failed

  predicate Terminal(phase: Phase) { phase.Cancelled? || phase.Failed? }

  /** What stands in a root. */
  datatype Piece = Chunk(token: Token, index: nat) | Notice(token: Token)

  datatype Callback = Callback(token: Token, next: nat, draw: bool)

  datatype Session = Session(
    coordinator: nat, generation: nat, root: nat, status: nat, costs: seq<nat>, draws: seq<bool>,
    aborted: bool, finished: bool, committed: nat, done: nat, notice: bool, scheduled: Option<nat>)

  datatype Coordinator = Coordinator(generation: nat, current: Option<Token>)

  /** What happened, in order; `holder` is the root's owner when a session changed it. */
  datatype Note =
    | Change(root: nat, token: Token, holder: Option<Token>)
    | Commit(token: Token, index: nat)
    | Abort(token: Token)
    | Emit(token: Token, phase: Phase)

  datatype World = World(
    coordinators: map<nat, Coordinator>, sessions: map<Token, Session>, rootOwner: map<nat, Token>, statusOwner: map<nat, Token>,
    content: map<nat, seq<Piece>>, pending: map<nat, Callback>, nextToken: Token, nextCallback: nat, log: seq<Note>)

  const INITIAL := World(map[], map[], map[], map[], map[], map[], 0, 0, [])

  // ----- The parts of a turn -----

  function Of(w: World, c: nat): Coordinator { if c in w.coordinators then w.coordinators[c] else Coordinator(0, None) }

  function Holder(w: World, root: nat): Option<Token> { if root in w.rootOwner then Some(w.rootOwner[root]) else None }

  function StatusHolder(w: World, status: nat): Option<Token> { if status in w.statusOwner then Some(w.statusOwner[status]) else None }

  function Inside(w: World, root: nat): seq<Piece> { if root in w.content then w.content[root] else [] }

  function Put(w: World, t: Token, s: Session): World { w.(sessions := w.sessions[t := s]) }

  function Say(w: World, note: Note): World { w.(log := w.log + [note]) }

  /** A session changes what its root holds. */
  function Fill(w: World, t: Token, pieces: seq<Piece>): World
    requires t in w.sessions
  {
    var root := w.sessions[t].root;
    Say(w.(content := w.content[root := pieces]), Change(root, t, Holder(w, root)))
  }

  predicate Active(w: World, t: Token, owned: bool)
    requires t in w.sessions
  {
    var s := w.sessions[t];
    var c := Of(w, s.coordinator);
    c.current == Some(t) && c.generation == s.generation && !s.aborted && Holder(w, s.root) == Some(t) && owned
  }

  /** The scheduler may or may not manage to take the callback back. */
  function Unschedule(w: World, t: Token, removed: bool): World
    requires t in w.sessions
  {
    var id := w.sessions[t].scheduled;
    if id.Some? && removed then w.(pending := w.pending - {id.value}) else w
  }

  function Aborted(w: World, t: Token, removed: bool): World
    requires t in w.sessions
  {
    Unschedule(Say(Put(w, t, w.sessions[t].(aborted := true)), Abort(t)), t, removed)
  }

  function Release(w: World, t: Token): World
    requires t in w.sessions
  {
    var s := w.sessions[t];
    var a := if Holder(w, s.root) == Some(t) then
               var f := Fill(w, t, []);
               f.(rootOwner := f.rootOwner - {s.root})
             else w;
    if StatusHolder(a, s.status) == Some(t) then a.(statusOwner := a.statusOwner - {s.status}) else a
  }

  function CancelCurrent(w: World, c: nat, owned: bool, removed: bool): World {
    var current := Of(w, c).current;
    if current.None? || current.value !in w.sessions then w
    else
      var t := current.value;
      var s := w.sessions[t];
      var announce := Holder(w, s.root) == Some(t) && StatusHolder(w, s.status) == Some(t) && !s.aborted && owned;
      var a := Release(Aborted(w.(coordinators := w.coordinators[c := Of(w, c).(current := None)]), t, removed), t);
      if announce then Say(a, Emit(t, Cancelled)) else a
  }

  function Fail(w: World, t: Token, owned: bool, removed: bool): World
    requires t in w.sessions
  {
    if !Active(w, t, owned) then w
    else
      var a := Fill(Aborted(w, t, removed), t, []);
      Say(Put(a, t, a.sessions[t].(finished := true)), Emit(t, Failed))
  }

  function Schedule(w: World, callback: Callback, throws: bool, owned: bool, removed: bool): World
    requires callback.token in w.sessions
  {
    if throws then Fail(w, callback.token, owned, removed)
    else
      Put(w, callback.token, w.sessions[callback.token].(scheduled := Some(w.nextCallback)))
        .(pending := w.pending[w.nextCallback := callback], nextCallback := w.nextCallback + 1)
  }

  function Sum(costs: seq<nat>): nat { if costs == [] then 0 else Sum(costs[..|costs| - 1]) + costs[|costs| - 1] }

  function Finish(w: World, t: Token, owned: bool): World
    requires t in w.sessions
  {
    if !Active(w, t, owned) then w
    else
      var s := w.sessions[t];
      Say(Put(w, t, s.(finished := true)), Emit(t, Ready(s.committed, Sum(s.costs))))
  }

  /** Schedules the next chunk, or finishes after the last one. */
  function Continue(w: World, t: Token, next: nat, inputs: Inputs): World
    requires t in w.sessions
  {
    if next < |w.sessions[t].costs| then
      if !Active(w, t, inputs.owned(5)) then w
      else Schedule(w, Callback(t, next, false), inputs.scheduleThrows, inputs.owned(6), inputs.removed)
    else Finish(w, t, inputs.owned(5))
  }

  // ----- The turns -----

  /** The answers of the world outside during a turn. */
  datatype Inputs = Inputs(owned: nat -> bool, scheduleThrows: bool, removed: bool, bodyThrows: bool, organizeThrows: bool)

  datatype Plan = Throws | Planned(renderable: bool, empty: bool, costs: seq<nat>, draws: seq<bool>)

  datatype Event =
    | Start(coordinator: nat, root: nat, status: nat, live: bool, plan: Plan)
    | Cancel(coordinator: nat)
    | Run(callback: nat)

  function Opened(w: World, c: nat, root: nat, status: nat, plan: Plan): World {
    var t := w.nextToken;
    var costs := if plan.Planned? then plan.costs else [];
    var draws := if plan.Planned? then plan.draws else [];
    var s := Session(c, Of(w, c).generation, root, status, costs, draws, false, false, 0, 0, false, None);
    Fill(Put(w, t, s).(coordinators := w.coordinators[c := Of(w, c).(current := Some(t))], rootOwner := w.rootOwner[root := t],
                       statusOwner := w.statusOwner[status := t], nextToken := t + 1), t, [])
  }

  /** What a new session shows first. */
  function Show(o: World, t: Token, plan: Plan, inputs: Inputs): World
    requires t in o.sessions
  {
    if plan.Throws? then Fail(o, t, inputs.owned(1), inputs.removed)
    else if !Active(o, t, inputs.owned(1)) then o
    else if !plan.renderable then
      var f := Fill(o, t, []);
      Say(Put(f, t, f.sessions[t].(finished := true)), Emit(t, Unrenderable))
    else if plan.empty then
      var f := Fill(o, t, [Notice(t)]);
      Say(Put(f, t, f.sessions[t].(finished := true, notice := true)), Emit(t, Empty))
    else Continue(Say(o, Emit(t, Rendering)), t, 0, inputs)
  }

  /** The coordinator drops its session and takes the next generation. */
  function Next(w: World, c: nat, inputs: Inputs): World {
    var a := CancelCurrent(w, c, inputs.owned(0), inputs.removed);
    a.(coordinators := a.coordinators[c := Of(a, c).(generation := Of(a, c).generation + 1)])
  }

  function StartTurn(w: World, e: Event, inputs: Inputs): World
    requires e.Start?
  {
    var b := Next(w, e.coordinator, inputs);
    if !e.live then b
    else
      var t := b.nextToken;
      var o := Opened(b, e.coordinator, e.root, e.status, e.plan);
      Show(o, t, e.plan, inputs)
  }

  function Counted(w: World, t: Token, index: nat): World
    requires t in w.sessions
  {
    Say(Put(w, t, w.sessions[t].(done := w.sessions[t].done + 1)), Commit(t, index))
  }

  /** Appends a chunk to the root. */
  function Append(w: World, t: Token, index: nat): World
    requires t in w.sessions
  {
    Fill(Counted(w, t, index), t, Inside(w, w.sessions[t].root) + [Chunk(t, index)])
  }

  /** After a chunk was appended: it is organized and counted, and the next step is scheduled. */
  function Count(a: World, t: Token, index: nat, inputs: Inputs): World
    requires t in a.sessions && index < |a.sessions[t].costs|
  {
    if !Active(a, t, inputs.owned(2)) then a
    else if inputs.organizeThrows then Fail(a, t, inputs.owned(3), inputs.removed)
    else
      var b := Put(a, t, a.sessions[t].(committed := a.sessions[t].committed + a.sessions[t].costs[index]));
      if !Active(b, t, inputs.owned(3)) then b
      else if index < |b.sessions[t].draws| && b.sessions[t].draws[index] then
        if !Active(b, t, inputs.owned(4)) then b
        else Schedule(b, Callback(t, index + 1, true), inputs.scheduleThrows, inputs.owned(6), inputs.removed)
      else Continue(b, t, index + 1, inputs)
  }

  function ChunkTurn(w: World, t: Token, index: nat, inputs: Inputs): World
    requires t in w.sessions && index < |w.sessions[t].costs|
  {
    if inputs.bodyThrows then Fail(w, t, inputs.owned(2), inputs.removed) else Count(Append(w, t, index), t, index, inputs)
  }

  function RunTurn(w: World, id: nat, inputs: Inputs): World {
    if id !in w.pending || w.pending[id].token !in w.sessions then w
    else
      var callback := w.pending[id];
      var t := callback.token;
      var a := Put(w, t, w.sessions[t].(scheduled := None)).(pending := w.pending - {id});
      if !Active(a, t, inputs.owned(0)) then a
      else if callback.draw then
        if inputs.bodyThrows then Fail(a, t, inputs.owned(1), inputs.removed)
        else if !Active(a, t, inputs.owned(1)) then a
        else Continue(a, t, callback.next, inputs)
      else if !Active(a, t, inputs.owned(1)) || callback.next >= |a.sessions[t].costs| then a
      else ChunkTurn(a, t, callback.next, inputs)
  }

  function Turn(w: World, e: Event, inputs: Inputs): World {
    match e
    case Start(_, _, _, _, _) => StartTurn(w, e, inputs)
    case Cancel(c) => CancelCurrent(w, c, inputs.owned(0), inputs.removed)
    case Run(id) => RunTurn(w, id, inputs)
  }

  datatype Step = Step(event: Event, inputs: Inputs)

  function After(w: World, steps: seq<Step>): World
    decreases |steps|
  {
    if steps == [] then w else After(Turn(w, steps[0].event, steps[0].inputs), steps[1..])
  }

  // ----- What every turn keeps -----

  function Chunks(t: Token, n: nat): (r: seq<Piece>)
    ensures |r| == n
  {
    if n == 0 then [] else Chunks(t, n - 1) + [Chunk(t, n - 1)]
  }

  /** What the owner of a root has put there. */
  function Content(t: Token, s: Session): seq<Piece> {
    if s.aborted then [] else if s.notice then [Notice(t)] else Chunks(t, s.done)
  }

  ghost predicate RootOwned(w: World, root: nat)
    requires root in w.rootOwner
  {
    var t := w.rootOwner[root];
    t in w.sessions && w.sessions[t].root == root && Inside(w, root) == Content(t, w.sessions[t])
  }

  /** A root holds its owner's chunks from the first on, and nothing of anyone else. */
  ghost predicate RootsOwned(w: World) {
    && (forall root :: root in w.rootOwner ==> RootOwned(w, root))
    && forall root :: root in w.content && root !in w.rootOwner ==> w.content[root] == []
  }

  /** A callback waits for the next chunk of its session, and no session has two. */
  ghost predicate CallbackSound(w: World, id: nat)
    requires id in w.pending
  {
    var callback := w.pending[id];
    && id < w.nextCallback && callback.token in w.sessions
    && var s := w.sessions[callback.token];
    && callback.next == s.done <= |s.costs| && s.committed == Sum(s.costs[..s.done]) && s.scheduled == Some(id) && !s.notice
  }

  ghost predicate CallbacksSound(w: World) { forall id :: id in w.pending ==> CallbackSound(w, id) }

  function CommitsOf(log: seq<Note>, t: Token): seq<nat> {
    if log == [] then []
    else
      var last := log[|log| - 1];
      CommitsOf(log[..|log| - 1], t) + if last.Commit? && last.token == t then [last.index] else []
  }

  function UpTo(n: nat): (r: seq<nat>)
    ensures |r| == n
  {
    if n == 0 then [] else UpTo(n - 1) + [n - 1]
  }

  /** Every session has committed its chunks 0, 1, … in order, each once. */
  ghost predicate CommitsInOrder(w: World) {
    && (forall t :: t in w.sessions ==> t < w.nextToken)
    && forall t: Token :: CommitsOf(w.log, t) == if t in w.sessions then UpTo(w.sessions[t].done) else []
  }

  predicate GoodNote(note: Note) {
    match note
    case Change(_, t, holder) => holder == Some(t)
    case Emit(_, Ready(completed, total)) => completed == total
    case _ => true
  }

  predicate Ends(note: Note, t: Token) { note.token == t && (note.Abort? || (note.Emit? && Terminal(note.phase))) }

  predicate NeverEnded(log: seq<Note>, t: Token) {
    log == [] || (!Ends(log[|log| - 1], t) && NeverEnded(log[..|log| - 1], t))
  }

  predicate NeverToldEnd(log: seq<Note>, t: Token) {
    log == [] || (!(Ends(log[|log| - 1], t) && log[|log| - 1].Emit?) && NeverToldEnd(log[..|log| - 1], t))
  }

  /** A session says nothing after its end but, once, that it ended. */
  predicate MaySay(log: seq<Note>, note: Note) {
    note.Emit? ==> if Terminal(note.phase) then NeverToldEnd(log, note.token) else NeverEnded(log, note.token)
  }

  predicate GoodLog(log: seq<Note>) {
    log == [] || (GoodNote(log[|log| - 1]) && MaySay(log[..|log| - 1], log[|log| - 1]) && GoodLog(log[..|log| - 1]))
  }

  /** A session that has not been aborted, or not begun, has no end in the log. */
  ghost predicate EndsRecorded(w: World) {
    forall t: Token :: (t >= w.nextToken || (t in w.sessions && !w.sessions[t].aborted)) ==> NeverEnded(w.log, t)
  }

  /** What the log says of the sessions. */
  ghost predicate LogSound(w: World) { CommitsInOrder(w) && GoodLog(w.log) && EndsRecorded(w) }

  ghost predicate Invariant(w: World) {
    RootsOwned(w) && CallbacksSound(w) && LogSound(w)
  }

  /** One more note. */
  lemma LogMore(log: seq<Note>, note: Note, t: Token)
    ensures CommitsOf(log + [note], t) == CommitsOf(log, t) + if note.Commit? && note.token == t then [note.index] else []
    ensures NeverEnded(log + [note], t) <==> NeverEnded(log, t) && !Ends(note, t)
    ensures NeverToldEnd(log + [note], t) <==> NeverToldEnd(log, t) && !(Ends(note, t) && note.Emit?)
    ensures GoodLog(log + [note]) <==> GoodLog(log) && GoodNote(note) && MaySay(log, note)
  {
    assert (log + [note])[..|log|] == log;
  }

  lemma {:induction false} NeverEndedToldNothing(log: seq<Note>, t: Token)
    requires NeverEnded(log, t)
    ensures NeverToldEnd(log, t)
  {
    if log != [] {
      NeverEndedToldNothing(log[..|log| - 1], t);
    }
  }

  /** One more note, and the one session it speaks of. */
  lemma LogStays(w: World, v: World, note: Note)
    requires LogSound(w) && v.log == w.log + [note] && v.nextToken == w.nextToken && v.sessions.Keys == w.sessions.Keys
    requires GoodNote(note) && MaySay(w.log, note)
    requires forall k :: k in w.sessions ==>
               v.sessions[k].done == w.sessions[k].done + (if note.Commit? && note.token == k then 1 else 0)
    requires note.Commit? ==> note.token in w.sessions && note.index == w.sessions[note.token].done
    requires forall k :: k in w.sessions && w.sessions[k].aborted ==> v.sessions[k].aborted
    requires forall k :: Ends(note, k) ==> k in v.sessions && v.sessions[k].aborted
    ensures LogSound(v)
  {
    hide GoodLog, NeverEnded, NeverToldEnd, CommitsOf, MaySay, Ends;
    LogMore(w.log, note, note.token);
    forall k: Token
      ensures CommitsOf(v.log, k) == CommitsOf(w.log, k) + if note.Commit? && note.token == k then [note.index] else []
      ensures NeverEnded(v.log, k) <==> NeverEnded(w.log, k) && !Ends(note, k)
    {
      LogMore(w.log, note, k);
    }
  }

  ghost predicate SameWork(a: Session, b: Session) {
    a.costs == b.costs && a.done == b.done && a.committed == b.committed && a.scheduled == b.scheduled && a.notice == b.notice
  }

  /** Callbacks depend on the work of their sessions only. */
  lemma CallbacksStay(w: World, v: World)
    requires CallbacksSound(w) && w.nextCallback <= v.nextCallback
    requires forall id :: id in v.pending ==>
               && id in w.pending && v.pending[id] == w.pending[id]
               && (v.pending[id].token in w.sessions ==>
                     v.pending[id].token in v.sessions && SameWork(w.sessions[v.pending[id].token], v.sessions[v.pending[id].token]))
    ensures CallbacksSound(v)
  {
    hide Sum;
    forall id | id in v.pending ensures CallbackSound(v, id) {
      assert CallbackSound(w, id);
    }
  }

  ghost predicate SameShow(a: Session, b: Session) { a.root == b.root && a.aborted == b.aborted && a.notice == b.notice && a.done == b.done }

  /** A root depends on its content and on what its owner shows. */
  lemma RootStays(w: World, v: World, root: nat)
    requires root in w.rootOwner && RootOwned(w, root)
    requires root in v.rootOwner && v.rootOwner[root] == w.rootOwner[root] && Inside(v, root) == Inside(w, root)
    requires v.rootOwner[root] in v.sessions && SameShow(w.sessions[w.rootOwner[root]], v.sessions[v.rootOwner[root]])
    ensures RootOwned(v, root)
  {
    hide Chunks;
  }

  /** A note that ends nothing and commits nothing. */
  lemma SayKeeps(w: World, note: Note)
    requires Invariant(w) && GoodNote(note) && !note.Commit? && !note.Abort? && (note.Emit? ==> !Terminal(note.phase))
    requires note.Emit? ==> NeverEnded(w.log, note.token)
    ensures Invariant(Say(w, note))
  {
    hide GoodLog, NeverEnded, NeverToldEnd, CommitsOf, UpTo, CallbackSound, RootOwned;
    LogStays(w, Say(w, note), note);
    SameRest(w, Say(w, note));
  }

  /** Callbacks and roots do not depend on the log. */
  lemma SameRest(w: World, v: World)
    requires RootsOwned(w) && CallbacksSound(w)
    requires v.sessions == w.sessions && v.rootOwner == w.rootOwner && v.content == w.content && v.pending == w.pending && v.nextCallback == w.nextCallback
    ensures RootsOwned(v) && CallbacksSound(v)
  {
    hide CallbackSound, RootOwned;
    CallbacksStay(w, v);
    forall root | root in v.rootOwner ensures RootOwned(v, root) {
      OwnerKnown(w, root);
      RootStays(w, v, root);
    }
  }

  lemma OwnerKnown(w: World, root: nat)
    requires root in w.rootOwner && RootOwned(w, root)
    ensures w.rootOwner[root] in w.sessions && w.sessions[w.rootOwner[root]].root == root
    ensures Inside(w, root) == Content(w.rootOwner[root], w.sessions[w.rootOwner[root]])
  {
  }

  ghost predicate LiveHolder(w: World, t: Token) {
    t in w.sessions && !w.sessions[t].aborted && Holder(w, w.sessions[t].root) == Some(t)
  }

  ghost predicate Idle(w: World, t: Token) { forall id :: id in w.pending ==> w.pending[id].token != t }

  /** Changing what neither roots nor callbacks nor commits look at. */
  lemma PutKeeps(w: World, t: Token, s: Session)
    requires Invariant(w) && t in w.sessions && SameShow(w.sessions[t], s)
    requires Idle(w, t) || SameWork(w.sessions[t], s)
    ensures Invariant(Put(w, t, s))
  {
    hide GoodLog, NeverEnded, CommitsOf, UpTo, CallbackSound, RootOwned;
    var v := Put(w, t, s);
    CallbacksStay(w, v);
    forall root | root in v.rootOwner ensures RootOwned(v, root) {
      OwnerKnown(w, root);
      RootStays(w, v, root);
    }
  }

  lemma AbortLog(w: World, t: Token, removed: bool)
    requires LogSound(w) && t in w.sessions
    ensures LogSound(Aborted(w, t, removed))
    ensures !w.sessions[t].aborted ==> NeverToldEnd(Aborted(w, t, removed).log, t)
  {
    hide GoodLog, NeverEnded, NeverToldEnd, CommitsOf, UpTo;
    LogStays(w, Aborted(w, t, removed), Abort(t));
    LogMore(w.log, Abort(t), t);
    if !w.sessions[t].aborted {
      NeverEndedToldNothing(w.log, t);
    }
  }

  /** The callbacks, and the other sessions' roots, when a session is aborted. */
  lemma AbortRest(w: World, t: Token, removed: bool)
    requires CallbacksSound(w) && RootsOwned(w) && t in w.sessions
    ensures var v := Aborted(w, t, removed);
            && CallbacksSound(v) && v.rootOwner == w.rootOwner && v.content == w.content && v.sessions == w.sessions[t := w.sessions[t].(aborted := true)]
            && (forall root :: root in v.rootOwner && v.rootOwner[root] != t ==> RootOwned(v, root))
  {
    hide CallbackSound, RootOwned;
    var v := Aborted(w, t, removed);
    CallbacksStay(w, v);
    forall root | root in v.rootOwner && v.rootOwner[root] != t ensures RootOwned(v, root) {
      OwnerKnown(w, root);
      RootStays(w, v, root);
    }
  }

  /** A session that no longer owns its root is over. */
  lemma AbortKeeps(w: World, t: Token, removed: bool)
    requires Invariant(w) && t in w.sessions && Holder(w, w.sessions[t].root) != Some(t)
    ensures Invariant(Aborted(w, t, removed))
    ensures !w.sessions[t].aborted ==> NeverToldEnd(Aborted(w, t, removed).log, t)
  {
    hide CallbackSound, CallbacksSound, RootOwned, CommitsInOrder, GoodLog, EndsRecorded, Aborted, NeverToldEnd;
    AbortLog(w, t, removed);
    AbortRest(w, t, removed);
    forall root | root in w.rootOwner ensures w.rootOwner[root] != t {
      OwnerKnown(w, root);
    }
  }

  /** The owner fills its root with what it should hold. */
  lemma FillKeeps(w: World, t: Token, pieces: seq<Piece>)
    requires CallbacksSound(w) && LogSound(w)
    requires t in w.sessions && Holder(w, w.sessions[t].root) == Some(t) && pieces == Content(t, w.sessions[t])
    requires forall root :: root in w.rootOwner && root != w.sessions[t].root ==> RootOwned(w, root)
    requires forall root :: root in w.content && root !in w.rootOwner ==> w.content[root] == []
    ensures Invariant(Fill(w, t, pieces))
  {
    hide GoodLog, NeverEnded, NeverToldEnd, CommitsOf, UpTo, CallbackSound, Content;
    var v := Fill(w, t, pieces);
    LogStays(w, v, Change(w.sessions[t].root, t, Holder(w, w.sessions[t].root)));
    CallbacksStay(w, v);
    forall root | root in v.rootOwner ensures RootOwned(v, root) {
      if root != w.sessions[t].root {
        RootStays(w, v, root);
      }
    }
  }

  /** The last word of a session. */
  lemma LastWordKeeps(w: World, t: Token, phase: Phase)
    requires Invariant(w) && t in w.sessions && w.sessions[t].aborted && Terminal(phase) && NeverToldEnd(w.log, t)
    ensures Invariant(Say(w, Emit(t, phase)))
  {
    hide GoodLog, NeverEnded, NeverToldEnd, CommitsOf, UpTo, CallbackSound, RootOwned;
    LogStays(w, Say(w, Emit(t, phase)), Emit(t, phase));
    SameRest(w, Say(w, Emit(t, phase)));
  }

  /** The owner is over and its root is emptied. */
  lemma EmptyKeeps(w: World, t: Token, removed: bool)
    requires Invariant(w) && t in w.sessions && Holder(w, w.sessions[t].root) == Some(t)
    ensures Invariant(Fill(Aborted(w, t, removed), t, []))
    ensures !w.sessions[t].aborted ==> NeverToldEnd(Fill(Aborted(w, t, removed), t, []).log, t)
  {
    hide CallbackSound, RootOwned, CallbacksSound, CommitsInOrder, GoodLog, EndsRecorded, NeverToldEnd, Aborted;
    AbortLog(w, t, removed);
    AbortRest(w, t, removed);
    var a := Aborted(w, t, removed);
    forall root | root in w.rootOwner && root != w.sessions[t].root ensures w.rootOwner[root] != t {
      OwnerKnown(w, root);
    }
    FillKeeps(a, t, []);
    LogMore(a.log, Change(w.sessions[t].root, t, Holder(a, w.sessions[t].root)), t);
  }

  lemma FailKeeps(w: World, t: Token, owned: bool, removed: bool)
    requires Invariant(w) && t in w.sessions
    ensures Invariant(Fail(w, t, owned, removed))
  {
    hide Invariant;
    if Active(w, t, owned) {
      EmptyKeeps(w, t, removed);
      var b := Fill(Aborted(w, t, removed), t, []);
      PutKeeps(b, t, b.sessions[t].(finished := true));
      LastWordKeeps(Put(b, t, b.sessions[t].(finished := true)), t, Failed);
    }
  }

  lemma ReleaseStatus(w: World, statusOwner: map<nat, Token>)
    requires Invariant(w)
    ensures Invariant(w.(statusOwner := statusOwner))
  {
    SameRest(w, w.(statusOwner := statusOwner));
  }

  lemma CoordinatorsKeep(w: World, coordinators: map<nat, Coordinator>)
    requires Invariant(w)
    ensures Invariant(w.(coordinators := coordinators))
  {
    SameRest(w, w.(coordinators := coordinators));
  }

  /** Giving up an emptied root. */
  lemma DisownKeeps(w: World, root: nat)
    requires Invariant(w) && root in w.rootOwner && w.sessions[w.rootOwner[root]].aborted
    ensures Invariant(w.(rootOwner := w.rootOwner - {root}))
  {
    hide GoodLog, NeverEnded, CommitsOf, UpTo, CallbackSound, RootOwned;
    var v := w.(rootOwner := w.rootOwner - {root});
    OwnerKnown(w, root);
    CallbacksStay(w, v);
    forall r | r in v.rootOwner ensures RootOwned(v, r) {
      OwnerKnown(w, r);
      RootStays(w, v, r);
    }
  }

  lemma CancelKeeps(w: World, c: nat, owned: bool, removed: bool)
    requires Invariant(w)
    ensures Invariant(CancelCurrent(w, c, owned, removed))
  {
    hide Invariant;
    var current := Of(w, c).current;
    if current.Some? && current.value in w.sessions {
      var t := current.value;
      var s := w.sessions[t];
      var a := w.(coordinators := w.coordinators[c := Of(w, c).(current := None)]);
      CoordinatorsKeep(w, a.coordinators);
      ReleaseKeeps(a, t, removed);
      var b := Release(Aborted(a, t, removed), t);
      if !s.aborted {
        LastWordKeeps(b, t, Cancelled);
      }
    }
  }

  lemma AbortedShape(w: World, t: Token, removed: bool)
    requires t in w.sessions
    ensures var a := Aborted(w, t, removed);
            a.sessions == w.sessions[t := w.sessions[t].(aborted := true)] && a.rootOwner == w.rootOwner && a.statusOwner == w.statusOwner
  {
  }

  lemma ReleaseKeeps(w: World, t: Token, removed: bool)
    requires Invariant(w) && t in w.sessions
    ensures var v := Release(Aborted(w, t, removed), t);
            && Invariant(v) && t in v.sessions && v.sessions[t].aborted && (!w.sessions[t].aborted ==> NeverToldEnd(v.log, t))
  {
    hide Invariant, Aborted, NeverToldEnd;
    var root := w.sessions[t].root;
    var a := Aborted(w, t, removed);
    AbortedShape(w, t, removed);
    if Holder(w, root) == Some(t) {
      EmptyKeeps(w, t, removed);
      var f := Fill(a, t, []);
      DisownKeeps(f, root);
      var b := f.(rootOwner := f.rootOwner - {root});
      ReleaseStatus(b, b.statusOwner - {w.sessions[t].status});
    } else {
      AbortKeeps(w, t, removed);
      ReleaseStatus(a, a.statusOwner - {w.sessions[t].status});
    }
  }

  /** A new callback waits for the next chunk of its session. */
  lemma PendKeeps(w: World, callback: Callback)
    requires Invariant(w) && callback.token in w.sessions && Idle(w, callback.token)
    requires var s := w.sessions[callback.token];
             callback.next == s.done <= |s.costs| && s.committed == Sum(s.costs[..s.done]) && !s.notice && s.scheduled == Some(w.nextCallback)
    ensures Invariant(w.(pending := w.pending[w.nextCallback := callback], nextCallback := w.nextCallback + 1))
  {
    hide GoodLog, NeverEnded, NeverToldEnd, CommitsOf, UpTo, Sum, RootOwned;
    var v := w.(pending := w.pending[w.nextCallback := callback], nextCallback := w.nextCallback + 1);
    forall id | id in v.pending ensures CallbackSound(v, id) {
      if id != w.nextCallback {
        assert CallbackSound(w, id);
      }
    }
    forall root | root in v.rootOwner ensures RootOwned(v, root) {
      OwnerKnown(w, root);
      RootStays(w, v, root);
    }
  }

  lemma ScheduleKeeps(w: World, callback: Callback, throws: bool, owned: bool, removed: bool)
    requires Invariant(w) && callback.token in w.sessions && Idle(w, callback.token)
    requires var s := w.sessions[callback.token]; callback.next == s.done <= |s.costs| && s.committed == Sum(s.costs[..s.done]) && !s.notice
    ensures Invariant(Schedule(w, callback, throws, owned, removed))
  {
    hide Invariant, Sum, Fail;
    if throws {
      FailKeeps(w, callback.token, owned, removed);
    } else {
      var s := w.sessions[callback.token].(scheduled := Some(w.nextCallback));
      PutKeeps(w, callback.token, s);
      PendKeeps(Put(w, callback.token, s), callback);
    }
  }

  lemma FinishKeeps(w: World, t: Token, owned: bool)
    requires Invariant(w) && t in w.sessions && w.sessions[t].committed == Sum(w.sessions[t].costs)
    ensures Invariant(Finish(w, t, owned))
  {
    if Active(w, t, owned) {
      var s := w.sessions[t].(finished := true);
      PutKeeps(w, t, s);
      SayKeeps(Put(w, t, s), Emit(t, Ready(s.committed, Sum(s.costs))));
    }
  }

  lemma ContinueKeeps(w: World, t: Token, next: nat, inputs: Inputs)
    requires Invariant(w) && t in w.sessions && Idle(w, t)
    requires var s := w.sessions[t]; next == s.done <= |s.costs| && s.committed == Sum(s.costs[..s.done]) && !s.notice
    ensures Invariant(Continue(w, t, next, inputs))
  {
    hide Invariant;
    var s := w.sessions[t];
    if next < |s.costs| {
      ScheduleKeeps(w, Callback(t, next, false), inputs.scheduleThrows, inputs.owned(6), inputs.removed);
    } else {
      assert s.costs[..s.done] == s.costs;
      FinishKeeps(w, t, inputs.owned(5));
    }
  }

  /** A new session, not yet on the page. */
  lemma EnterKeeps(w: World, s: Session, v: World)
    requires Invariant(w) && s.done == 0 && !s.aborted
    requires v == w.(sessions := w.sessions[w.nextToken := s], nextToken := w.nextToken + 1)
    ensures Invariant(v) && Idle(v, w.nextToken) && NeverEnded(v.log, w.nextToken)
  {
    hide GoodLog, NeverEnded, CommitsOf, RootOwned;
    assert w.nextToken !in w.sessions;
    assert CommitsOf(w.log, w.nextToken) == [];
    forall id | id in v.pending ensures v.pending[id].token != w.nextToken {
      assert CallbackSound(w, id);
    }
    CallbacksStay(w, v);
    forall r | r in v.rootOwner ensures RootOwned(v, r) {
      OwnerKnown(w, r);
      RootStays(w, v, r);
    }
  }

  /** The page's root goes to a session, which empties it. */
  lemma TakeKeeps(w: World, t: Token)
    requires Invariant(w) && t in w.sessions && !w.sessions[t].aborted && w.sessions[t].done == 0 && !w.sessions[t].notice
    ensures Invariant(Fill(w.(rootOwner := w.rootOwner[w.sessions[t].root := t]), t, []))
  {
    hide GoodLog, NeverEnded, CommitsOf, UpTo, CallbackSound, RootOwned;
    var root := w.sessions[t].root;
    var a := w.(rootOwner := w.rootOwner[root := t]);
    CallbacksStay(w, a);
    forall r | r in a.rootOwner && r != root ensures RootOwned(a, r) {
      OwnerKnown(w, r);
      RootStays(w, a, r);
    }
    FillKeeps(a, t, []);
  }

  lemma OpenKeeps(w: World, c: nat, root: nat, status: nat, plan: Plan)
    requires Invariant(w)
    ensures var v := Opened(w, c, root, status, plan);
            && Invariant(v) && w.nextToken in v.sessions && Idle(v, w.nextToken) && LiveHolder(v, w.nextToken)
            && v.sessions[w.nextToken].done == 0 && v.sessions[w.nextToken].committed == 0 && !v.sessions[w.nextToken].notice
            && v.sessions[w.nextToken].root == root && NeverEnded(v.log, w.nextToken)
  {
    hide Invariant, NeverEnded;
    var t := w.nextToken;
    var v := Opened(w, c, root, status, plan);
    var b := w.(sessions := w.sessions[t := v.sessions[t]], nextToken := t + 1);
    EnterKeeps(w, v.sessions[t], b);
    CoordinatorsKeep(b, v.coordinators);
    ReleaseStatus(b.(coordinators := v.coordinators), v.statusOwner);
    var d := b.(coordinators := v.coordinators, statusOwner := v.statusOwner);
    TakeKeeps(d, t);
    LogMore(d.log, Change(root, t, Some(t)), t);
    assert v == Fill(d.(rootOwner := d.rootOwner[root := t]), t, []);
  }

  lemma NextKeeps(w: World, c: nat, inputs: Inputs)
    requires Invariant(w)
    ensures Invariant(Next(w, c, inputs))
  {
    hide Invariant, CancelCurrent;
    CancelKeeps(w, c, inputs.owned(0), inputs.removed);
    CoordinatorsKeep(CancelCurrent(w, c, inputs.owned(0), inputs.removed), Next(w, c, inputs).coordinators);
  }

  lemma StartKeeps(w: World, e: Event, inputs: Inputs)
    requires Invariant(w) && e.Start?
    ensures Invariant(StartTurn(w, e, inputs))
  {
    hide Invariant, Next, Opened, Fail, Continue, NeverEnded;
    var b := Next(w, e.coordinator, inputs);
    NextKeeps(w, e.coordinator, inputs);
    if e.live {
      var t := b.nextToken;
      var o := Opened(b, e.coordinator, e.root, e.status, e.plan);
      OpenKeeps(b, e.coordinator, e.root, e.status, e.plan);
      if e.plan.Throws? {
        FailKeeps(o, t, inputs.owned(1), inputs.removed);
      } else if e.plan.renderable && !e.plan.empty {
        SayKeeps(o, Emit(t, Rendering));
        ContinueKeeps(Say(o, Emit(t, Rendering)), t, 0, inputs);
      } else {
        ShowNotice(o, t, if e.plan.renderable then Empty else Unrenderable);
      }
    }
  }

  /** A session that ends at once, with a notice or with nothing. */
  lemma ShowNotice(w: World, t: Token, phase: Phase)
    requires Invariant(w) && LiveHolder(w, t) && Idle(w, t) && w.sessions[t].done == 0 && !w.sessions[t].notice
    requires phase.Empty? || phase.Unrenderable?
    ensures var f := Fill(w, t, if phase.Empty? then [Notice(t)] else []);
            Invariant(Say(Put(f, t, f.sessions[t].(finished := true, notice := phase.Empty?)), Emit(t, phase)))
  {
    hide GoodLog, CommitsOf, UpTo, CallbackSound, RootOwned;
    var s := w.sessions[t].(finished := true, notice := phase.Empty?);
    var pieces := if phase.Empty? then [Notice(t)] else [];
    var a := Put(w, t, s);
    CallbacksStay(w, a);
    forall root | root in a.rootOwner && root != s.root ensures RootOwned(a, root) {
      OwnerKnown(w, root);
      RootStays(w, a, root);
    }
    FillKeeps(a, t, pieces);
    var f := Fill(w, t, pieces);
    assert Put(f, t, s) == Fill(a, t, pieces);
    SayKeeps(Put(f, t, s), Emit(t, phase));
  }

  /** A chunk that is counted but not yet in the root. */
  lemma CountedKeeps(w: World, t: Token, index: nat)
    requires Invariant(w) && t in w.sessions && Idle(w, t) && index == w.sessions[t].done
    ensures var a := Counted(w, t, index);
            && CallbacksSound(a) && LogSound(a)
            && forall root :: root in a.rootOwner && a.rootOwner[root] != t ==> RootOwned(a, root)
  {
    hide GoodLog, NeverEnded, CommitsOf, UpTo, CallbackSound, RootOwned;
    var a := Counted(w, t, index);
    LogStays(w, a, Commit(t, index));
    CallbacksStay(w, a);
    forall root | root in a.rootOwner && a.rootOwner[root] != t ensures RootOwned(a, root) {
      OwnerKnown(w, root);
      RootStays(w, a, root);
    }
  }

  lemma AppendKeeps(w: World, t: Token, index: nat)
    requires Invariant(w) && LiveHolder(w, t) && Idle(w, t) && index == w.sessions[t].done && !w.sessions[t].notice
    ensures Invariant(Append(w, t, index)) && Idle(Append(w, t, index), t)
  {
    hide CallbacksSound, LogSound, RootOwned;
    var s := w.sessions[t];
    CountedKeeps(w, t, index);
    OwnerKnown(w, s.root);
    forall root | root in w.rootOwner && root != s.root ensures w.rootOwner[root] != t {
      OwnerKnown(w, root);
    }
    FillKeeps(Counted(w, t, index), t, Inside(w, s.root) + [Chunk(t, index)]);
  }

  lemma SumMore(costs: seq<nat>, n: nat)
    requires n < |costs|
    ensures Sum(costs[..n + 1]) == Sum(costs[..n]) + costs[n]
  {
    assert costs[..n + 1][..n] == costs[..n];
  }

  /** Where a session stands when its callback has been taken off. */
  ghost predicate Standing(w: World, t: Token, next: nat) {
    && t in w.sessions && Idle(w, t)
    && var s := w.sessions[t];
       next == s.done <= |s.costs| && s.committed == Sum(s.costs[..s.done]) && !s.notice
  }

  lemma TakeOffKeeps(w: World, id: nat)
    requires Invariant(w) && id in w.pending
    ensures var t := w.pending[id].token;
            && t in w.sessions
            && var v := Put(w, t, w.sessions[t].(scheduled := None)).(pending := w.pending - {id});
               Invariant(v) && Standing(v, t, w.pending[id].next)
  {
    hide GoodLog, NeverEnded, CommitsOf, UpTo, Sum, RootOwned;
    var t := w.pending[id].token;
    assert CallbackSound(w, id);
    var v := Put(w, t, w.sessions[t].(scheduled := None)).(pending := w.pending - {id});
    forall k | k in v.pending ensures v.pending[k].token != t {
      assert CallbackSound(w, k);
    }
    CallbacksStay(w, v);
    forall root | root in v.rootOwner ensures RootOwned(v, root) {
      OwnerKnown(w, root);
      RootStays(w, v, root);
    }
  }

  lemma ChunkKeeps(w: World, t: Token, index: nat, inputs: Inputs)
    requires Invariant(w) && Standing(w, t, index) && LiveHolder(w, t) && index < |w.sessions[t].costs|
    ensures Invariant(ChunkTurn(w, t, index, inputs))
  {
    hide Invariant, Fail, Continue, Sum, Schedule;
    if inputs.bodyThrows {
      FailKeeps(w, t, inputs.owned(2), inputs.removed);
    } else {
      var a := Append(w, t, index);
      AppendKeeps(w, t, index);
      FailKeeps(a, t, inputs.owned(3), inputs.removed);
      var s := a.sessions[t].(committed := a.sessions[t].committed + a.sessions[t].costs[index]);
      var b := Put(a, t, s);
      SumMore(s.costs, index);
      PutKeeps(a, t, s);
      if index < |s.draws| && s.draws[index] {
        ScheduleKeeps(b, Callback(t, index + 1, true), inputs.scheduleThrows, inputs.owned(6), inputs.removed);
      } else {
        ContinueKeeps(b, t, index + 1, inputs);
      }
    }
  }

  lemma RunKeeps(w: World, id: nat, inputs: Inputs)
    requires Invariant(w)
    ensures Invariant(RunTurn(w, id, inputs))
  {
    hide Invariant, Fail, Continue, Sum, ChunkTurn;
    if id in w.pending && w.pending[id].token in w.sessions {
      var callback := w.pending[id];
      var t := callback.token;
      var a := Put(w, t, w.sessions[t].(scheduled := None)).(pending := w.pending - {id});
      TakeOffKeeps(w, id);
      if Active(a, t, inputs.owned(0)) {
        if callback.draw {
          FailKeeps(a, t, inputs.owned(1), inputs.removed);
          ContinueKeeps(a, t, callback.next, inputs);
        } else if callback.next < |a.sessions[t].costs| {
          ChunkKeeps(a, t, callback.next, inputs);
        }
      }
    }
  }

  lemma TurnKeeps(w: World, e: Event, inputs: Inputs)
    requires Invariant(w)
    ensures Invariant(Turn(w, e, inputs))
  {
    hide Invariant, StartTurn, CancelCurrent, RunTurn;
    match e
    case Start(_, _, _, _, _) => StartKeeps(w, e, inputs);
    case Cancel(c) => CancelKeeps(w, c, inputs.owned(0), inputs.removed);
    case Run(id) => RunKeeps(w, id, inputs);
  }

  lemma {:induction false} AfterKeeps(w: World, steps: seq<Step>)
    requires Invariant(w)
    ensures Invariant(After(w, steps))
    decreases |steps|
  {
    hide Invariant, Turn;
    if steps != [] {
      TurnKeeps(w, steps[0].event, steps[0].inputs);
      AfterKeeps(Turn(w, steps[0].event, steps[0].inputs), steps[1..]);
    }
  }

  lemma {:induction false} EndsRead(log: seq<Note>, i: nat, t: Token)
    requires i < |log|
    ensures NeverEnded(log, t) ==> !Ends(log[i], t)
    ensures NeverToldEnd(log, t) ==> !(Ends(log[i], t) && log[i].Emit?)
  {
    if i < |log| - 1 {
      EndsRead(log[..|log| - 1], i, t);
    }
  }

  /** What a good log says of any two of its notes. */
  lemma {:induction false} LogRead(log: seq<Note>, i: nat, j: nat)
    requires GoodLog(log) && i < j < |log|
    ensures log[i].Abort? && log[j].Emit? && log[i].token == log[j].token ==> Terminal(log[j].phase)
    ensures log[i].Emit? && Terminal(log[i].phase) && log[j].Emit? ==> log[i].token != log[j].token
  {
    var front := log[..|log| - 1];
    if j < |log| - 1 {
      LogRead(front, i, j);
    } else {
      EndsRead(front, i, log[j].token);
    }
  }

  ghost predicate OnlyOwnerChanges(log: seq<Note>) {
    forall i :: 0 <= i < |log| && log[i].Change? ==> log[i].holder == Some(log[i].token)
  }

  ghost predicate SilentAfterEnd(log: seq<Note>) {
    && (forall i, j :: 0 <= i < j < |log| && log[i].Abort? && log[j].Emit? && log[i].token == log[j].token ==> Terminal(log[j].phase))
    && (forall i, j :: 0 <= i < j < |log| && log[i].Emit? && Terminal(log[i].phase) && log[j].Emit? ==> log[i].token != log[j].token)
  }

  ghost predicate ReadyIsWhole(log: seq<Note>) {
    forall i :: 0 <= i < |log| && log[i].Emit? && log[i].phase.Ready? ==> log[i].phase.completed == log[i].phase.total
  }

  lemma {:induction false} NoteRead(log: seq<Note>, i: nat)
    requires GoodLog(log) && i < |log|
    ensures GoodNote(log[i])
  {
    if i < |log| - 1 {
      NoteRead(log[..|log| - 1], i);
    }
  }

  lemma GoodLogRead(log: seq<Note>)
    requires GoodLog(log)
    ensures OnlyOwnerChanges(log) && SilentAfterEnd(log) && ReadyIsWhole(log)
  {
    hide GoodLog;
    forall i | 0 <= i < |log| ensures GoodNote(log[i]) {
      NoteRead(log, i);
    }
    forall i, j | 0 <= i < j < |log|
      ensures log[i].Abort? && log[j].Emit? && log[i].token == log[j].token ==> Terminal(log[j].phase)
      ensures log[i].Emit? && Terminal(log[i].phase) && log[j].Emit? ==> log[i].token != log[j].token
    {
      LogRead(log, i, j);
    }
  }

  /** Safety over every run, with any number of coordinators on shared roots. */
  lemma CoordinatorsSafe(steps: seq<Step>)
    ensures var w := After(INITIAL, steps);
            && OnlyOwnerChanges(w.log) && SilentAfterEnd(w.log) && ReadyIsWhole(w.log)
            && (forall t :: t in w.sessions ==> CommitsOf(w.log, t) == UpTo(w.sessions[t].done))
            && RootsOwned(w)
  {
    assert Invariant(INITIAL);
    AfterKeeps(INITIAL, steps);
    hide After, RootsOwned, CallbacksSound, GoodLog, EndsRecorded, OnlyOwnerChanges, SilentAfterEnd, ReadyIsWhole;
    GoodLogRead(After(INITIAL, steps).log);
  }

  // ----- The coordinators of one page -----

  class Page {
    var coordinators: map<nat, Coordinator>
    var sessions: map<Token, Session>
    var rootOwner: map<nat, Token>
    var statusOwner: map<nat, Token>
    var content: map<nat, seq<Piece>>
    var pending: map<nat, Callback>
    var nextToken: Token
    var nextCallback: nat
    ghost var log: seq<Note>

    constructor ()
      ensures Snapshot() == INITIAL
    {
      coordinators, sessions, rootOwner, statusOwner, content, pending := map[], map[], map[], map[], map[], map[];
      nextToken, nextCallback, log := 0, 0, [];
    }

    ghost function Snapshot(): World
      reads this
    {
      World(coordinators, sessions, rootOwner, statusOwner, content, pending, nextToken, nextCallback, log)
    }

    method IsActive(t: Token, owned: bool) returns (active: bool)
      requires t in sessions
      ensures active == Active(Snapshot(), t, owned)
    {
      var session := sessions[t];
      var c := if session.coordinator in coordinators then coordinators[session.coordinator] else Coordinator(0, None);
      active := c.current == Some(t) && c.generation == session.generation && !session.aborted
                && session.root in rootOwner && rootOwner[session.root] == t && owned;
    }

    /** root.replaceChildren or root.append, by a session. */
    method ChangeRoot(t: Token, pieces: seq<Piece>)
      requires t in sessions
      modifies this
      ensures Snapshot() == Fill(old(Snapshot()), t, pieces)
    {
      var root := sessions[t].root;
      content := content[root := pieces];
      log := log + [Change(root, t, if root in rootOwner then Some(rootOwner[root]) else None)];
    }

    method AbortSession(t: Token, removed: bool)
      requires t in sessions
      modifies this
      ensures Snapshot() == Aborted(old(Snapshot()), t, removed)
    {
      sessions := sessions[t := sessions[t].(aborted := true)];
      log := log + [Abort(t)];
      var scheduled := sessions[t].scheduled;
      if scheduled.Some? && removed {
        pending := pending - {scheduled.value};
      }
    }

    method ReleaseSurface(t: Token)
      requires t in sessions
      modifies this
      ensures Snapshot() == Release(old(Snapshot()), t)
    {
      var session := sessions[t];
      if session.root in rootOwner && rootOwner[session.root] == t {
        ChangeRoot(t, []);
        rootOwner := rootOwner - {session.root};
      }
      if session.status in statusOwner && statusOwner[session.status] == t {
        statusOwner := statusOwner - {session.status};
      }
    }

    method CancelSession(c: nat, owned: bool, removed: bool)
      modifies this
      ensures Snapshot() == CancelCurrent(old(Snapshot()), c, owned, removed)
    {
      if c !in coordinators || coordinators[c].current.None? || coordinators[c].current.value !in sessions {
        return;
      }
      var t := coordinators[c].current.value;
      var session := sessions[t];
      var stillOwnsSurface := session.root in rootOwner && rootOwner[session.root] == t
                              && session.status in statusOwner && statusOwner[session.status] == t;
      var mayAnnounce := stillOwnsSurface && !session.aborted && owned;
      coordinators := coordinators[c := coordinators[c].(current := None)];
      AbortSession(t, removed);
      ReleaseSurface(t);
      if mayAnnounce {
        log := log + [Emit(t, Cancelled)];
      }
    }

    method FailSession(t: Token, owned: bool, removed: bool)
      requires t in sessions
      modifies this
      ensures Snapshot() == Fail(old(Snapshot()), t, owned, removed)
      ensures t in sessions
    {
      var active := IsActive(t, owned);
      if !active {
        return;
      }
      AbortSession(t, removed);
      ChangeRoot(t, []);
      sessions := sessions[t := sessions[t].(finished := true)];
      log := log + [Emit(t, Failed)];
    }

    method ScheduleSafely(callback: Callback, throws: bool, owned: bool, removed: bool)
      requires callback.token in sessions
      modifies this
      ensures Snapshot() == Schedule(old(Snapshot()), callback, throws, owned, removed)
    {
      if throws {
        FailSession(callback.token, owned, removed);
        return;
      }
      sessions := sessions[callback.token := sessions[callback.token].(scheduled := Some(nextCallback))];
      pending := pending[nextCallback := callback];
      nextCallback := nextCallback + 1;
    }

    method FinishSession(t: Token, owned: bool)
      requires t in sessions
      modifies this
      ensures Snapshot() == Finish(old(Snapshot()), t, owned)
    {
      var active := IsActive(t, owned);
      if !active {
        return;
      }
      sessions := sessions[t := sessions[t].(finished := true)];
      log := log + [Emit(t, Ready(sessions[t].committed, Sum(sessions[t].costs)))];
    }

    method ScheduleChunk(t: Token, next: nat, inputs: Inputs)
      requires t in sessions
      modifies this
      ensures Snapshot() == Continue(old(Snapshot()), t, next, inputs)
    {
      if next >= |sessions[t].costs| {
        FinishSession(t, inputs.owned(5));
        return;
      }
      var active := IsActive(t, inputs.owned(5));
      if active {
        ScheduleSafely(Callback(t, next, false), inputs.scheduleThrows, inputs.owned(6), inputs.removed);
      }
    }

    method OpenSession(c: nat, root: nat, status: nat, plan: Plan)
      modifies this
      ensures Snapshot() == Opened(old(Snapshot()), c, root, status, plan) && old(nextToken) in sessions
    {
      var t := nextToken;
      var coordinator := if c in coordinators then coordinators[c] else Coordinator(0, None);
      sessions := sessions[t := Session(c, coordinator.generation, root, status, if plan.Planned? then plan.costs else [],
                                        if plan.Planned? then plan.draws else [], false, false, 0, 0, false, None)];
      coordinators := coordinators[c := coordinator.(current := Some(t))];
      rootOwner := rootOwner[root := t];
      statusOwner := statusOwner[status := t];
      nextToken := t + 1;
      ChangeRoot(t, []);
    }

    method ShowSession(t: Token, plan: Plan, inputs: Inputs)
      requires t in sessions
      modifies this
      ensures Snapshot() == Show(old(Snapshot()), t, plan, inputs)
    {
      hide Fail, Continue;
      if plan.Throws? {
        FailSession(t, inputs.owned(1), inputs.removed);
        return;
      }
      var active := IsActive(t, inputs.owned(1));
      if !active {
        return;
      }
      if !plan.renderable {
        ChangeRoot(t, []);
        sessions := sessions[t := sessions[t].(finished := true)];
        log := log + [Emit(t, Unrenderable)];
        return;
      }
      if plan.empty {
        ChangeRoot(t, [Notice(t)]);
        sessions := sessions[t := sessions[t].(finished := true, notice := true)];
        log := log + [Emit(t, Empty)];
        return;
      }
      log := log + [Emit(t, Rendering)];
      ScheduleChunk(t, 0, inputs);
    }

    method NextGeneration(c: nat, inputs: Inputs)
      modifies this
      ensures Snapshot() == Next(old(Snapshot()), c, inputs)
    {
      hide CancelCurrent;
      CancelSession(c, inputs.owned(0), inputs.removed);
      var coordinator := if c in coordinators then coordinators[c] else Coordinator(0, None);
      coordinators := coordinators[c := coordinator.(generation := coordinator.generation + 1)];
    }

    method StartSession(c: nat, root: nat, status: nat, live: bool, plan: Plan, inputs: Inputs)
      requires Invariant(Snapshot())
      modifies this
      ensures Snapshot() == Turn(old(Snapshot()), Start(c, root, status, live, plan), inputs) && Invariant(Snapshot())
    {
      TurnKeeps(Snapshot(), Start(c, root, status, live, plan), inputs);
      hide Invariant, Next, Opened, Show;
      NextGeneration(c, inputs);
      if !live {
        return;
      }
      var t := nextToken;
      OpenSession(c, root, status, plan);
      ShowSession(t, plan, inputs);
    }

    method CancelView(c: nat, inputs: Inputs)
      requires Invariant(Snapshot())
      modifies this
      ensures Snapshot() == Turn(old(Snapshot()), Cancel(c), inputs) && Invariant(Snapshot())
    {
      TurnKeeps(Snapshot(), Cancel(c), inputs);
      CancelSession(c, inputs.owned(0), inputs.removed);
    }

    method AppendChunk(t: Token, index: nat)
      requires t in sessions
      modifies this
      ensures Snapshot() == Append(old(Snapshot()), t, index) && t in sessions
    {
      var session := sessions[t];
      var inside := if session.root in content then content[session.root] else [];
      sessions := sessions[t := session.(done := session.done + 1)];
      log := log + [Commit(t, index)];
      ChangeRoot(t, inside + [Chunk(t, index)]);
    }

    method CountChunk(t: Token, index: nat, inputs: Inputs)
      requires t in sessions && index < |sessions[t].costs|
      modifies this
      ensures Snapshot() == Count(old(Snapshot()), t, index, inputs)
    {
      hide Fail, Continue, Schedule;
      var active := IsActive(t, inputs.owned(2));
      if !active {
        return;
      }
      if inputs.organizeThrows {
        FailSession(t, inputs.owned(3), inputs.removed);
        return;
      }
      sessions := sessions[t := sessions[t].(committed := sessions[t].committed + sessions[t].costs[index])];
      active := IsActive(t, inputs.owned(3));
      if !active {
        return;
      }
      if index < |sessions[t].draws| && sessions[t].draws[index] {
        active := IsActive(t, inputs.owned(4));
        if active {
          ScheduleSafely(Callback(t, index + 1, true), inputs.scheduleThrows, inputs.owned(6), inputs.removed);
        }
      } else {
        ScheduleChunk(t, index + 1, inputs);
      }
    }

    method RunChunk(t: Token, index: nat, inputs: Inputs)
      requires t in sessions && index < |sessions[t].costs|
      modifies this
      ensures Snapshot() == ChunkTurn(old(Snapshot()), t, index, inputs)
    {
      hide Fail, Count;
      if inputs.bodyThrows {
        FailSession(t, inputs.owned(2), inputs.removed);
        return;
      }
      AppendChunk(t, index);
      CountChunk(t, index, inputs);
    }

    method RunCallback(id: nat, inputs: Inputs)
      requires Invariant(Snapshot()) && id in pending && pending[id].token in sessions
      modifies this
      ensures Snapshot() == Turn(old(Snapshot()), Run(id), inputs) && Invariant(Snapshot())
    {
      TurnKeeps(Snapshot(), Run(id), inputs);
      hide Invariant, Fail, Continue, ChunkTurn;
      var callback := pending[id];
      var t := callback.token;
      sessions := sessions[t := sessions[t].(scheduled := None)];
      pending := pending - {id};
      var active := IsActive(t, inputs.owned(0));
      if !active {
        return;
      }
      if callback.draw {
        if inputs.bodyThrows {
          FailSession(t, inputs.owned(1), inputs.removed);
          return;
        }
        active := IsActive(t, inputs.owned(1));
        if active {
          ScheduleChunk(t, callback.next, inputs);
        }
      } else {
        active := IsActive(t, inputs.owned(1));
        if active && callback.next < |sessions[t].costs| {
          RunChunk(t, callback.next, inputs);
        }
      }
    }
  }
}
