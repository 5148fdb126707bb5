/** What each turn of a render coordinator does (frontend/topology-renderer.js:466-562, 587-657, 912-933), as a table of causes
    apart from the turns themselves: what is drawn, announced and scheduled, and that nothing else changes. */
module RenderDecisions {
  import opened Text
  import opened RenderCoordinator

  // ----- What one turn does for its session -----

  /** The session afterwards, its root's new contents, the notes, and the callback it schedules. */
  datatype Deed = Deed(session: Session, pieces: Option<seq<Piece>>, notes: seq<Note>, next: Option<Callback>)

  datatype Row = Row(cause: bool, deed: Deed)

  function FirstOf(rows: seq<Row>, otherwise: Deed): Deed {
    if rows == [] then otherwise else if rows[0].cause then rows[0].deed else FirstOf(rows[1..], otherwise)
  }

  /** The session may act: it is its coordinator's, of this generation, not aborted, it owns its root, and the request is still owned. */
  predicate May(w: World, t: Token, s: Session, owned: bool) {
    && s.coordinator in w.coordinators && w.coordinators[s.coordinator] == Coordinator(s.generation, Some(t))
    && !s.aborted && s.root in w.rootOwner && w.rootOwner[s.root] == t && owned
  }

  /** The world after a deed of session t; everything of other sessions stays. */
  function After(w: World, t: Token, d: Deed): World {
    var s := if d.next.Some? then d.session.(scheduled := Some(w.nextCallback)) else d.session;
    w.(sessions := w.sessions[t := s],
       content := if d.pieces.Some? then w.content[s.root := d.pieces.value] else w.content,
       pending := if d.next.Some? then w.pending[w.nextCallback := d.next.value] else w.pending,
       nextCallback := if d.next.Some? then w.nextCallback + 1 else w.nextCallback,
       log := w.log + d.notes)
  }

  /** A failure is announced, and leaves the root empty. */
  function Failing(t: Token, d: Deed): Deed {
    Deed(d.session.(aborted := true, finished := true), Some([]), d.notes + [Abort(t), Change(d.session.root, t, Some(t)), Emit(t, Failed)], None)
  }

  function Scheduling(d: Deed, callback: Callback): Deed { d.(next := Some(callback)) }

  /** The last chunk is drawn: the count that is announced is the total. */
  function Finishing(t: Token, d: Deed): Deed {
    d.(session := d.session.(finished := true), notes := d.notes + [Emit(t, RenderCoordinator.Phase.Ready(d.session.committed, Sum(d.session.costs)))])
  }

  /** What follows when the n-th chunk comes next: it is scheduled, or all are drawn. */
  function NextRows(w: World, t: Token, s: Session, n: nat, d: Deed, inputs: Inputs): seq<Row> {
    [Row(!May(w, t, s, inputs.owned(5)), d), Row(n >= |s.costs|, Finishing(t, d)),
     Row(inputs.scheduleThrows && May(w, t, s, inputs.owned(6)), Failing(t, d)), Row(inputs.scheduleThrows, d),
     Row(true, Scheduling(d, Callback(t, n, false)))]
  }

  /** A drawing frame between two chunks. */
  function DrawRows(w: World, t: Token, s: Session, n: nat, inputs: Inputs): seq<Row> {
    var idle := Deed(s, None, [], None);
    [Row(!May(w, t, s, inputs.owned(0)), idle), Row(inputs.bodyThrows && May(w, t, s, inputs.owned(1)), Failing(t, idle)),
     Row(inputs.bodyThrows, idle), Row(!May(w, t, s, inputs.owned(1)), idle)]
    + NextRows(w, t, s, n, idle, inputs)
  }

  /** The n-th chunk: it is appended once, in order, counted once it is organized, and followed by a drawing frame where one is planned. */
  function ChunkRows(w: World, t: Token, s: Session, n: nat, inputs: Inputs): seq<Row> {
    var idle := Deed(s, None, [], None);
    var inside := if s.root in w.content then w.content[s.root] else [];
    var appended := Deed(s.(done := s.done + 1), Some(inside + [Chunk(t, n)]), [Commit(t, n), Change(s.root, t, Some(t))], None);
    var counted := appended.(session := appended.session.(committed := s.committed + if n < |s.costs| then s.costs[n] else 0));
    var draws := n < |s.draws| && s.draws[n];
    [Row(!May(w, t, s, inputs.owned(0)) || !May(w, t, s, inputs.owned(1)) || n >= |s.costs|, idle),
     Row(inputs.bodyThrows && May(w, t, s, inputs.owned(2)), Failing(t, idle)), Row(inputs.bodyThrows, idle),
     Row(!May(w, t, s, inputs.owned(2)), appended),
     Row(inputs.organizeThrows && May(w, t, s, inputs.owned(3)), Failing(t, appended)), Row(inputs.organizeThrows, appended),
     Row(!May(w, t, s, inputs.owned(3)), counted),
     Row(draws && !May(w, t, s, inputs.owned(4)), counted),
     Row(draws && inputs.scheduleThrows && May(w, t, s, inputs.owned(6)), Failing(t, counted)), Row(draws && inputs.scheduleThrows, counted),
     Row(draws, Scheduling(counted, Callback(t, n + 1, true)))]
    + NextRows(w, t, s, n + 1, counted, inputs)
  }

  /** What a new session shows first; its root has just been emptied. */
  function StartRows(w: World, t: Token, s: Session, plan: Plan, inputs: Inputs): seq<Row> {
    var idle := Deed(s, None, [], None);
    var emptied := Change(s.root, t, Some(t));
    var failing := plan.Throws? && May(w, t, s, inputs.owned(1));
    [Row(failing, Failing(t, idle)), Row(plan.Throws? || !May(w, t, s, inputs.owned(1)), idle),
     Row(plan.Planned? && !plan.renderable, Deed(s.(finished := true), Some([]), [emptied, Emit(t, Unrenderable)], None)),
     Row(plan.Planned? && plan.empty, Deed(s.(finished := true, notice := true), Some([Notice(t)]), [emptied, Emit(t, Empty)], None))]
    + NextRows(w, t, s, 0, idle.(notes := [Emit(t, Rendering)]), inputs)
  }

  // ----- Cancelling and starting -----

  /** Cancelling takes the coordinator's session away, releases the root and the status it holds, and is announced when the session
      held both, had not been aborted and its request is still owned. */
  function Cancelling(w: World, c: nat, owned: bool, removed: bool): World {
    if c !in w.coordinators || w.coordinators[c].current.None? || w.coordinators[c].current.value !in w.sessions then w
    else
      var t := w.coordinators[c].current.value;
      var s := w.sessions[t];
      var holds, speaks := s.root in w.rootOwner && w.rootOwner[s.root] == t, s.status in w.statusOwner && w.statusOwner[s.status] == t;
      World(w.coordinators[c := w.coordinators[c].(current := None)], w.sessions[t := s.(aborted := true)],
            if holds then w.rootOwner - {s.root} else w.rootOwner, if speaks then w.statusOwner - {s.status} else w.statusOwner,
            if holds then w.content[s.root := []] else w.content,
            if s.scheduled.Some? && removed then w.pending - {s.scheduled.value} else w.pending, w.nextToken, w.nextCallback,
            w.log + [Abort(t)] + (if holds then [Change(s.root, t, Some(t))] else [])
            + (if holds && speaks && !s.aborted && owned then [Emit(t, Phase.Cancelled)] else []))
  }

  /** The coordinator's next generation. */
  function Advanced(w: World, c: nat): World {
    var now := if c in w.coordinators then w.coordinators[c] else Coordinator(0, None);
    w.(coordinators := w.coordinators[c := now.(generation := now.generation + 1)])
  }

  function Fresh(w: World, c: nat, root: nat, status: nat, plan: Plan): Session {
    Session(c, if c in w.coordinators then w.coordinators[c].generation else 0, root, status, if plan.Planned? then plan.costs else [],
            if plan.Planned? then plan.draws else [], false, false, 0, 0, false, None)
  }

  /** A new session takes its root, emptied, and its status, whoever held them. */
  function Taking(w: World, s: Session): World {
    var t, c := w.nextToken, s.coordinator;
    World(w.coordinators[c := Coordinator(s.generation, Some(t))], w.sessions[t := s], w.rootOwner[s.root := t], w.statusOwner[s.status := t],
          w.content[s.root := []], w.pending, t + 1, w.nextCallback, w.log + [Change(s.root, t, Some(t))])
  }

  /** The world after a turn. */
  function Told(w: World, e: Event, inputs: Inputs): World {
    match e
    case Cancel(c) => Cancelling(w, c, inputs.owned(0), inputs.removed)
    case Start(c, root, status, live, plan) =>
      var b := Advanced(Cancelling(w, c, inputs.owned(0), inputs.removed), c);
      if !live then b
      else
        var s := Fresh(b, c, root, status, plan);
        var o := Taking(b, s);
        After(o, b.nextToken, FirstOf(StartRows(o, b.nextToken, s, plan, inputs), Deed(s, None, [], None)))
    case Run(id) =>
      if id !in w.pending || w.pending[id].token !in w.sessions then w
      else
        var t, n := w.pending[id].token, w.pending[id].next;
        var a, s := w.(pending := w.pending - {id}), w.sessions[t].(scheduled := None);
        After(a, t, FirstOf(if w.pending[id].draw then DrawRows(a, t, s, n, inputs) else ChunkRows(a, t, s, n, inputs), Deed(s, None, [], None)))
  }

  // ----- The parts of a turn, as deeds -----

  /** A deed so far: nothing is scheduled, and the session is the one that acts. */
  ghost predicate Going(s: Session, d: Deed) {
    && d.next.None? && d.session.coordinator == s.coordinator && d.session.generation == s.generation && d.session.root == s.root
    && d.session.aborted == s.aborted && d.session.costs == s.costs && d.session.draws == s.draws && d.session.scheduled.None?
  }

  lemma {:induction false} FirstAt(rows: seq<Row>, k: nat, otherwise: Deed)
    requires k < |rows| && (forall j :: 0 <= j < k ==> !rows[j].cause) && rows[k].cause
    ensures FirstOf(rows, otherwise) == rows[k].deed
  {
    if 0 < k {
      FirstAt(rows[1..], k - 1, otherwise);
    }
  }

  lemma {:induction false} FirstAfter(front: seq<Row>, back: seq<Row>, otherwise: Deed)
    requires forall j :: 0 <= j < |front| ==> !front[j].cause
    ensures FirstOf(front + back, otherwise) == FirstOf(back, otherwise)
  {
    if front == [] {
      assert front + back == back;
    } else {
      assert (front + back)[1..] == front[1..] + back;
      FirstAfter(front[1..], back, otherwise);
    }
  }

  lemma ActiveIsMay(w: World, t: Token, s: Session, d: Deed, owned: bool)
    requires Going(s, d)
    ensures Active(After(w, t, d), t, owned) == May(w, t, s, owned)
  {
  }

  lemma FailTold(w: World, t: Token, s: Session, d: Deed, owned: bool, removed: bool)
    requires Going(s, d)
    ensures Fail(After(w, t, d), t, owned, removed) == After(w, t, if May(w, t, s, owned) then Failing(t, d) else d)
  {
    ActiveIsMay(w, t, s, d, owned);
    if May(w, t, s, owned) {
      var v, z := Fail(After(w, t, d), t, owned, removed), After(w, t, Failing(t, d));
      assert v.content == z.content;
      assert v.sessions == z.sessions;
      assert v.log == z.log;
    }
  }

  lemma ScheduleTold(w: World, t: Token, s: Session, d: Deed, n: nat, draw: bool, throws: bool, owned: bool, removed: bool)
    requires Going(s, d)
    ensures Schedule(After(w, t, d), Callback(t, n, draw), throws, owned, removed) ==
            After(w, t, if !throws then Scheduling(d, Callback(t, n, draw)) else if May(w, t, s, owned) then Failing(t, d) else d)
  {
    hide Fail, Failing;
    FailTold(w, t, s, d, owned, removed);
  }

  lemma FinishTold(w: World, t: Token, s: Session, d: Deed, owned: bool)
    requires Going(s, d)
    ensures RenderCoordinator.Finish(After(w, t, d), t, owned) == After(w, t, if May(w, t, s, owned) then Finishing(t, d) else d)
  {
    ActiveIsMay(w, t, s, d, owned);
  }

  lemma ContinueTold(w: World, t: Token, s: Session, d: Deed, n: nat, inputs: Inputs, otherwise: Deed)
    requires Going(s, d)
    ensures Continue(After(w, t, d), t, n, inputs) == After(w, t, FirstOf(NextRows(w, t, s, n, d, inputs), otherwise))
  {
    hide FirstOf, After, Schedule, RenderCoordinator.Finish, Failing, Finishing, Active, May;
    SessionAfter(w, t, d);
    ActiveIsMay(w, t, s, d, inputs.owned(5));
    FinishTold(w, t, s, d, inputs.owned(5));
    ScheduleTold(w, t, s, d, n, false, inputs.scheduleThrows, inputs.owned(6), inputs.removed);
    FirstAt(NextRows(w, t, s, n, d, inputs),
            if !May(w, t, s, inputs.owned(5)) then 0 else if n >= |s.costs| then 1
            else if inputs.scheduleThrows && May(w, t, s, inputs.owned(6)) then 2 else if inputs.scheduleThrows then 3 else 4, otherwise);
  }

  lemma SessionAfter(w: World, t: Token, d: Deed)
    requires d.next.None?
    ensures t in After(w, t, d).sessions && After(w, t, d).sessions[t] == d.session
  {
  }

  // ----- The turns -----

  predicate HoldsRoot(w: World, t: Token, s: Session) { s.root in w.rootOwner && w.rootOwner[s.root] == t }

  predicate HoldsStatus(w: World, t: Token, s: Session) { s.status in w.statusOwner && w.statusOwner[s.status] == t }

  lemma AbortTold(w: World, t: Token, removed: bool)
    requires t in w.sessions
    ensures var s := w.sessions[t];
            Aborted(w, t, removed) ==
              w.(sessions := w.sessions[t := s.(aborted := true)], log := w.log + [Abort(t)],
                 pending := if s.scheduled.Some? && removed then w.pending - {s.scheduled.value} else w.pending)
  {
  }

  lemma ReleaseTold(w: World, t: Token)
    requires t in w.sessions
    ensures var s := w.sessions[t];
            Release(w, t) ==
              w.(rootOwner := if HoldsRoot(w, t, s) then w.rootOwner - {s.root} else w.rootOwner,
                 statusOwner := if HoldsStatus(w, t, s) then w.statusOwner - {s.status} else w.statusOwner,
                 content := if HoldsRoot(w, t, s) then w.content[s.root := []] else w.content,
                 log := w.log + if HoldsRoot(w, t, s) then [Change(s.root, t, Some(t))] else [])
  {
    assert w.log + [] == w.log;
  }

  lemma CancelTold(w: World, c: nat, owned: bool, removed: bool)
    ensures CancelCurrent(w, c, owned, removed) == Cancelling(w, c, owned, removed)
  {
    if c in w.coordinators && w.coordinators[c].current.Some? && w.coordinators[c].current.value in w.sessions {
      hide Aborted, Release;
      var t := w.coordinators[c].current.value;
      var s := w.sessions[t];
      var b := w.(coordinators := w.coordinators[c := w.coordinators[c].(current := None)]);
      AbortTold(b, t, removed);
      var a := Aborted(b, t, removed);
      ReleaseTold(a, t);
      var log := (w.log + [Abort(t)]) + if HoldsRoot(w, t, s) then [Change(s.root, t, Some(t))] else [];
      assert log + [] == log;
    }
  }

  lemma IdleGoes(a: World, t: Token, s: Session)
    requires s.scheduled.None?
    ensures Going(s, Deed(s, None, [], None)) && After(a, t, Deed(s, None, [], None)) == a.(sessions := a.sessions[t := s])
  {
    assert a.log + [] == a.log;
  }

  lemma DrawTold(a: World, t: Token, s: Session, n: nat, inputs: Inputs)
    requires s.scheduled.None?
    ensures var b := a.(sessions := a.sessions[t := s]);
            After(a, t, FirstOf(DrawRows(a, t, s, n, inputs), Deed(s, None, [], None))) ==
              if !Active(b, t, inputs.owned(0)) then b
              else if inputs.bodyThrows then Fail(b, t, inputs.owned(1), inputs.removed)
              else if !Active(b, t, inputs.owned(1)) then b
              else Continue(b, t, n, inputs)
  {
    hide FirstOf, After, Fail, Continue, Failing, Active, May, NextRows;
    var idle := Deed(s, None, [], None);
    IdleGoes(a, t, s);
    ActiveIsMay(a, t, s, idle, inputs.owned(0));
    ActiveIsMay(a, t, s, idle, inputs.owned(1));
    FailTold(a, t, s, idle, inputs.owned(1), inputs.removed);
    ContinueTold(a, t, s, idle, n, inputs, idle);
    var rows, back := DrawRows(a, t, s, n, inputs), NextRows(a, t, s, n, idle, inputs);
    if !May(a, t, s, inputs.owned(0)) {
      FirstAt(rows, 0, idle);
    } else if inputs.bodyThrows {
      FirstAt(rows, if May(a, t, s, inputs.owned(1)) then 1 else 2, idle);
    } else if !May(a, t, s, inputs.owned(1)) {
      FirstAt(rows, 3, idle);
    } else {
      FirstAfter(rows[..4], back, idle);
      assert rows == rows[..4] + back;
    }
  }

  /** The deeds that a chunk adds up to. */
  function Appending(a: World, t: Token, s: Session, n: nat): Deed {
    var inside := if s.root in a.content then a.content[s.root] else [];
    Deed(s.(done := s.done + 1), Some(inside + [Chunk(t, n)]), [Commit(t, n), Change(s.root, t, Some(t))], None)
  }

  function Counting(d: Deed, s: Session, n: nat): Deed {
    d.(session := d.session.(committed := s.committed + if n < |s.costs| then s.costs[n] else 0))
  }

  lemma AppendTold(a: World, t: Token, s: Session, n: nat)
    requires s.scheduled.None? && s.root in a.rootOwner && a.rootOwner[s.root] == t
    ensures Append(a.(sessions := a.sessions[t := s]), t, n) == After(a, t, Appending(a, t, s, n)) && Going(s, Appending(a, t, s, n))
  {
    var b := a.(sessions := a.sessions[t := s]);
    assert b.log + [Commit(t, n)] + [Change(s.root, t, Some(t))] == a.log + [Commit(t, n), Change(s.root, t, Some(t))];
  }

  lemma CountingTold(a: World, t: Token, s: Session, n: nat)
    requires s.scheduled.None? && n < |s.costs|
    ensures var d := Appending(a, t, s, n);
            var v := After(a, t, d);
            && Put(v, t, v.sessions[t].(committed := v.sessions[t].committed + v.sessions[t].costs[n])) == After(a, t, Counting(d, s, n))
            && Going(s, Counting(d, s, n))
  {
  }

  lemma ThrowTold(a: World, t: Token, s: Session, n: nat, inputs: Inputs)
    requires s.scheduled.None? && n < |s.costs| && May(a, t, s, inputs.owned(0)) && May(a, t, s, inputs.owned(1)) && inputs.bodyThrows
    ensures After(a, t, FirstOf(ChunkRows(a, t, s, n, inputs), Deed(s, None, [], None))) ==
              Fail(a.(sessions := a.sessions[t := s]), t, inputs.owned(2), inputs.removed)
  {
    hide FirstOf, After, Fail, May, Failing, CountRows, ChunkRows, Going;
    var idle := Deed(s, None, [], None);
    IdleGoes(a, t, s);
    FailTold(a, t, s, idle, inputs.owned(2), inputs.removed);
    RowsAre(a, t, s, n, inputs);
    FirstAt(ChunkRows(a, t, s, n, inputs), if May(a, t, s, inputs.owned(2)) then 1 else 2, idle);
  }

  lemma ChunkTold(a: World, t: Token, s: Session, n: nat, inputs: Inputs)
    requires s.scheduled.None? && n < |s.costs| && May(a, t, s, inputs.owned(0)) && May(a, t, s, inputs.owned(1))
    ensures After(a, t, FirstOf(ChunkRows(a, t, s, n, inputs), Deed(s, None, [], None))) ==
              ChunkTurn(a.(sessions := a.sessions[t := s]), t, n, inputs)
  {
    hide FirstOf, After, Fail, Count, Append, May, ChunkRows;
    if inputs.bodyThrows {
      ThrowTold(a, t, s, n, inputs);
    } else {
      CountTold(a, t, s, n, inputs);
    }
  }

  /** The rows of a chunk that is appended. */
  function CountRows(a: World, t: Token, s: Session, n: nat, inputs: Inputs): seq<Row> {
    var appended := Appending(a, t, s, n);
    var counted := Counting(appended, s, n);
    var draws := n < |s.draws| && s.draws[n];
    [Row(!May(a, t, s, inputs.owned(2)), appended),
     Row(inputs.organizeThrows && May(a, t, s, inputs.owned(3)), Failing(t, appended)), Row(inputs.organizeThrows, appended),
     Row(!May(a, t, s, inputs.owned(3)), counted),
     Row(draws && !May(a, t, s, inputs.owned(4)), counted),
     Row(draws && inputs.scheduleThrows && May(a, t, s, inputs.owned(6)), Failing(t, counted)), Row(draws && inputs.scheduleThrows, counted),
     Row(draws, Scheduling(counted, Callback(t, n + 1, true)))]
    + NextRows(a, t, s, n + 1, counted, inputs)
  }

  lemma RowsAre(a: World, t: Token, s: Session, n: nat, inputs: Inputs)
    ensures var idle := Deed(s, None, [], None);
            ChunkRows(a, t, s, n, inputs) ==
              [Row(!May(a, t, s, inputs.owned(0)) || !May(a, t, s, inputs.owned(1)) || n >= |s.costs|, idle),
               Row(inputs.bodyThrows && May(a, t, s, inputs.owned(2)), Failing(t, idle)), Row(inputs.bodyThrows, idle)]
              + CountRows(a, t, s, n, inputs)
  {
    hide May, Failing, NextRows, Scheduling;
  }

  lemma CountTold(a: World, t: Token, s: Session, n: nat, inputs: Inputs)
    requires s.scheduled.None? && n < |s.costs| && May(a, t, s, inputs.owned(0)) && May(a, t, s, inputs.owned(1)) && !inputs.bodyThrows
    ensures After(a, t, FirstOf(ChunkRows(a, t, s, n, inputs), Deed(s, None, [], None))) ==
              Count(Append(a.(sessions := a.sessions[t := s]), t, n), t, n, inputs)
  {
    hide FirstOf, After, Fail, Continue, Append, Failing, Scheduling, Active, NextRows, Put, Appending, Counting, Going, CountRows, ChunkRows, Schedule;
    var idle, appended := Deed(s, None, [], None), Appending(a, t, s, n);
    var counted := Counting(appended, s, n);
    AppendTold(a, t, s, n);
    RowsAre(a, t, s, n, inputs);
    var front := ChunkRows(a, t, s, n, inputs)[..3];
    FirstAfter(front, CountRows(a, t, s, n, inputs), idle);
    CountingTold(a, t, s, n);
    AppendedSession(a, t, s, n);
    ActiveIsMay(a, t, s, appended, inputs.owned(2));
    ActiveIsMay(a, t, s, counted, inputs.owned(3));
    ActiveIsMay(a, t, s, counted, inputs.owned(4));
    FailTold(a, t, s, appended, inputs.owned(3), inputs.removed);
    ScheduleTold(a, t, s, counted, n + 1, true, inputs.scheduleThrows, inputs.owned(6), inputs.removed);
    ContinueTold(a, t, s, counted, n + 1, inputs, idle);
    CountRowsTold(a, t, s, n, inputs, idle);
  }

  lemma AppendedSession(a: World, t: Token, s: Session, n: nat)
    ensures var d := Appending(a, t, s, n);
            && t in After(a, t, d).sessions && After(a, t, d).sessions[t] == d.session
            && After(a, t, Counting(d, s, n)).sessions[t] == Counting(d, s, n).session
            && d.session.costs == s.costs && Counting(d, s, n).session.draws == s.draws && Counting(d, s, n).session.costs == s.costs
  {
  }

  lemma CountRowsTold(a: World, t: Token, s: Session, n: nat, inputs: Inputs, otherwise: Deed)
    ensures var appended := Appending(a, t, s, n);
            var counted := Counting(appended, s, n);
            FirstOf(CountRows(a, t, s, n, inputs), otherwise) ==
              if !May(a, t, s, inputs.owned(2)) then appended
              else if inputs.organizeThrows then (if May(a, t, s, inputs.owned(3)) then Failing(t, appended) else appended)
              else if !May(a, t, s, inputs.owned(3)) then counted
              else if n < |s.draws| && s.draws[n] then
                if !May(a, t, s, inputs.owned(4)) then counted
                else if !inputs.scheduleThrows then Scheduling(counted, Callback(t, n + 1, true))
                else if May(a, t, s, inputs.owned(6)) then Failing(t, counted) else counted
              else FirstOf(NextRows(a, t, s, n + 1, counted, inputs), otherwise)
  {
    hide FirstOf, May, Failing, Scheduling, Appending, Counting, NextRows;
    var rows := CountRows(a, t, s, n, inputs);
    var draws := n < |s.draws| && s.draws[n];
    if !May(a, t, s, inputs.owned(2)) {
      FirstAt(rows, 0, otherwise);
    } else if inputs.organizeThrows {
      FirstAt(rows, if May(a, t, s, inputs.owned(3)) then 1 else 2, otherwise);
    } else if !May(a, t, s, inputs.owned(3)) {
      FirstAt(rows, 3, otherwise);
    } else if draws {
      FirstAt(rows, if !May(a, t, s, inputs.owned(4)) then 4 else if !inputs.scheduleThrows then 7 else if May(a, t, s, inputs.owned(6)) then 5 else 6, otherwise);
    } else {
      var back := NextRows(a, t, s, n + 1, Counting(Appending(a, t, s, n), s, n), inputs);
      assert rows == rows[..8] + back;
      FirstAfter(rows[..8], back, otherwise);
    }
  }

  /** The rest of the turn of a callback that was taken off. */
  function RunsOn(b: World, t: Token, n: nat, draw: bool, inputs: Inputs): World
    requires t in b.sessions
  {
    if !Active(b, t, inputs.owned(0)) then b
    else if draw then
      if inputs.bodyThrows then Fail(b, t, inputs.owned(1), inputs.removed)
      else if !Active(b, t, inputs.owned(1)) then b
      else Continue(b, t, n, inputs)
    else if !Active(b, t, inputs.owned(1)) || n >= |b.sessions[t].costs| then b
    else ChunkTurn(b, t, n, inputs)
  }

  lemma RunSplits(w: World, id: nat, inputs: Inputs)
    requires id in w.pending && w.pending[id].token in w.sessions
    ensures var t, a := w.pending[id].token, w.(pending := w.pending - {id});
            RunTurn(w, id, inputs) == RunsOn(a.(sessions := a.sessions[t := w.sessions[t].(scheduled := None)]), t, w.pending[id].next, w.pending[id].draw, inputs)
  {
    hide Active, Fail, Continue, ChunkTurn;
    TakenOff(w, id);
  }

  lemma DrawRunsOn(a: World, t: Token, s: Session, n: nat, inputs: Inputs)
    requires s.scheduled.None?
    ensures After(a, t, FirstOf(DrawRows(a, t, s, n, inputs), Deed(s, None, [], None))) == RunsOn(a.(sessions := a.sessions[t := s]), t, n, true, inputs)
  {
    hide FirstOf, After, Fail, Continue, ChunkTurn, Active, May, DrawRows;
    DrawTold(a, t, s, n, inputs);
  }

  lemma ChunkRunsOn(a: World, t: Token, s: Session, n: nat, inputs: Inputs)
    requires s.scheduled.None?
    ensures After(a, t, FirstOf(ChunkRows(a, t, s, n, inputs), Deed(s, None, [], None))) == RunsOn(a.(sessions := a.sessions[t := s]), t, n, false, inputs)
  {
    hide FirstOf, After, Fail, Continue, ChunkTurn, Active, May, ChunkRows;
    var idle := Deed(s, None, [], None);
    IdleGoes(a, t, s);
    ActiveIsMay(a, t, s, idle, inputs.owned(0));
    ActiveIsMay(a, t, s, idle, inputs.owned(1));
    if !May(a, t, s, inputs.owned(0)) || !May(a, t, s, inputs.owned(1)) || n >= |s.costs| {
      ChunkStops(a, t, s, n, inputs);
    } else {
      ChunkTold(a, t, s, n, inputs);
    }
  }

  lemma NothingRuns(w: World, id: nat, inputs: Inputs)
    requires id !in w.pending || w.pending[id].token !in w.sessions
    ensures RunTurn(w, id, inputs) == w == Told(w, Run(id), inputs)
  {
  }

  lemma ToldRun(w: World, id: nat, inputs: Inputs)
    requires id in w.pending && w.pending[id].token in w.sessions
    ensures var t, n := w.pending[id].token, w.pending[id].next;
            var a, s := w.(pending := w.pending - {id}), w.sessions[t].(scheduled := None);
            Told(w, Run(id), inputs) ==
              After(a, t, FirstOf(if w.pending[id].draw then DrawRows(a, t, s, n, inputs) else ChunkRows(a, t, s, n, inputs), Deed(s, None, [], None)))
  {
    hide FirstOf, After, DrawRows, ChunkRows, Cancelling, Advanced, Fresh, Taking, StartRows;
  }

  /** A callback that is taken off. */
  lemma RunTold(w: World, id: nat, inputs: Inputs)
    ensures RunTurn(w, id, inputs) == Told(w, Run(id), inputs)
  {
    hide FirstOf, After, RunsOn, DrawRows, ChunkRows, Cancelling, Advanced, Fresh, Taking, StartRows, RunTurn, Told;
    if id in w.pending && w.pending[id].token in w.sessions {
      var t, n := w.pending[id].token, w.pending[id].next;
      var a, s := w.(pending := w.pending - {id}), w.sessions[t].(scheduled := None);
      RunSplits(w, id, inputs);
      ToldRun(w, id, inputs);
      if w.pending[id].draw {
        DrawRunsOn(a, t, s, n, inputs);
      } else {
        ChunkRunsOn(a, t, s, n, inputs);
      }
    } else {
      NothingRuns(w, id, inputs);
    }
  }

  lemma TakenOff(w: World, id: nat)
    requires id in w.pending && w.pending[id].token in w.sessions
    ensures var t := w.pending[id].token;
            var s := w.sessions[t].(scheduled := None);
            Put(w, t, s).(pending := w.pending - {id}) == w.(pending := w.pending - {id}).(sessions := w.sessions[t := s])
  {
  }

  lemma ChunkStops(a: World, t: Token, s: Session, n: nat, inputs: Inputs)
    requires !May(a, t, s, inputs.owned(0)) || !May(a, t, s, inputs.owned(1)) || n >= |s.costs|
    ensures FirstOf(ChunkRows(a, t, s, n, inputs), Deed(s, None, [], None)) == Deed(s, None, [], None)
  {
    hide FirstOf, May, Failing, CountRows, ChunkRows;
    RowsAre(a, t, s, n, inputs);
    FirstAt(ChunkRows(a, t, s, n, inputs), 0, Deed(s, None, [], None));
  }

  lemma OpenTold(b: World, c: nat, root: nat, status: nat, plan: Plan)
    ensures var s := Fresh(b, c, root, status, plan);
            && Opened(b, c, root, status, plan) == Taking(b, s) && s.scheduled.None? && Taking(b, s).sessions[b.nextToken] == s
  {
    var s := Fresh(b, c, root, status, plan);
    assert Opened(b, c, root, status, plan).sessions == Taking(b, s).sessions;
  }

  lemma StartRowsTold(o: World, t: Token, s: Session, plan: Plan, inputs: Inputs)
    ensures var idle := Deed(s, None, [], None);
            FirstOf(StartRows(o, t, s, plan, inputs), idle) ==
              if plan.Throws? then (if May(o, t, s, inputs.owned(1)) then Failing(t, idle) else idle)
              else if !May(o, t, s, inputs.owned(1)) then idle
              else if !plan.renderable then Deed(s.(finished := true), Some([]), [Change(s.root, t, Some(t)), Emit(t, Unrenderable)], None)
              else if plan.empty then
                Deed(s.(finished := true, notice := true), Some([Notice(t)]), [Change(s.root, t, Some(t)), Emit(t, Empty)], None)
              else FirstOf(NextRows(o, t, s, 0, idle.(notes := [Emit(t, Rendering)]), inputs), idle)
  {
    hide FirstOf, Failing, May, NextRows;
    var idle := Deed(s, None, [], None);
    var rows, back := StartRows(o, t, s, plan, inputs), NextRows(o, t, s, 0, idle.(notes := [Emit(t, Rendering)]), inputs);
    if plan.Throws? {
      FirstAt(rows, if May(o, t, s, inputs.owned(1)) then 0 else 1, idle);
    } else if !May(o, t, s, inputs.owned(1)) {
      FirstAt(rows, 1, idle);
    } else if !plan.renderable {
      FirstAt(rows, 2, idle);
    } else if plan.empty {
      FirstAt(rows, 3, idle);
    } else {
      assert rows == rows[..4] + back;
      FirstAfter(rows[..4], back, idle);
    }
  }

  lemma ShowTold(o: World, t: Token, s: Session, plan: Plan, inputs: Inputs)
    requires t in o.sessions && o.sessions[t] == s && s.scheduled.None? && s.root in o.rootOwner && o.rootOwner[s.root] == t
    ensures Show(o, t, plan, inputs) == After(o, t, FirstOf(StartRows(o, t, s, plan, inputs), Deed(s, None, [], None)))
  {
    hide FirstOf, Fail, Continue, Failing, Active, May, NextRows, After, StartRows;
    var idle := Deed(s, None, [], None);
    var begun := idle.(notes := [Emit(t, Rendering)]);
    IdleGoes(o, t, s);
    assert o.sessions[t := s] == o.sessions;
    ActiveIsMay(o, t, s, idle, inputs.owned(1));
    FailTold(o, t, s, idle, inputs.owned(1), inputs.removed);
    BegunTold(o, t, s);
    ContinueTold(o, t, s, begun, 0, inputs, idle);
    StartRowsTold(o, t, s, plan, inputs);
    if plan.Planned? && !plan.renderable {
      ShownTold(o, t, s, [], Unrenderable, false);
    } else if plan.Planned? && plan.empty {
      ShownTold(o, t, s, [Notice(t)], Empty, true);
    }
  }

  lemma BegunTold(o: World, t: Token, s: Session)
    requires t in o.sessions && o.sessions[t] == s && s.scheduled.None?
    ensures var begun := Deed(s, None, [Emit(t, Rendering)], None);
            Going(s, begun) && After(o, t, begun) == Say(o, Emit(t, Rendering))
  {
    assert o.sessions[t := s] == o.sessions;
  }

  lemma ShownTold(o: World, t: Token, s: Session, pieces: seq<Piece>, phase: RenderCoordinator.Phase, notice: bool)
    requires t in o.sessions && o.sessions[t] == s && s.root in o.rootOwner && o.rootOwner[s.root] == t
    ensures var f := Fill(o, t, pieces);
            var done := if notice then s.(finished := true, notice := true) else s.(finished := true);
            Say(Put(f, t, done), Emit(t, phase)) == After(o, t, Deed(done, Some(pieces), [Change(s.root, t, Some(t)), Emit(t, phase)], None))
  {
    assert o.log + [Change(s.root, t, Some(t))] + [Emit(t, phase)] == o.log + [Change(s.root, t, Some(t)), Emit(t, phase)];
  }

  lemma StartTold(w: World, e: Event, inputs: Inputs)
    requires e.Start?
    ensures StartTurn(w, e, inputs) == Told(w, e, inputs)
  {
    hide CancelCurrent, Cancelling, Show, FirstOf, StartRows, After;
    CancelTold(w, e.coordinator, inputs.owned(0), inputs.removed);
    var b := Next(w, e.coordinator, inputs);
    assert b == Advanced(Cancelling(w, e.coordinator, inputs.owned(0), inputs.removed), e.coordinator);
    if e.live {
      OpenTold(b, e.coordinator, e.root, e.status, e.plan);
      var s := Fresh(b, e.coordinator, e.root, e.status, e.plan);
      ShowTold(Taking(b, s), b.nextToken, s, e.plan, inputs);
    }
  }

  /** Every turn of every world is the one that the tables tell: who may act is decided at each look, a chunk is appended, organized,
      counted and followed by what comes next, and a start, a cancel or a failure touches no other session. */
  lemma TurnIsTold(w: World, e: Event, inputs: Inputs)
    ensures Turn(w, e, inputs) == Told(w, e, inputs)
  {
    hide StartTurn, RunTurn, CancelCurrent, Told;
    match e
    case Start(_, _, _, _, _) => StartTold(w, e, inputs);
    case Cancel(c) => StopTold(w, c, inputs);
    case Run(id) => RunTold(w, id, inputs);
  }

  lemma StopTold(w: World, c: nat, inputs: Inputs)
    ensures CancelCurrent(w, c, inputs.owned(0), inputs.removed) == Told(w, Cancel(c), inputs)
  {
    CancelTold(w, c, inputs.owned(0), inputs.removed);
  }
}
