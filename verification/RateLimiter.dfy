/** The per-client request limiter (backend/api/server.go:194-202, 592-614). Times are nanoseconds. */
module RateLimiter {
  import opened Sets

  const MINUTE := 60_000_000_000

  datatype Window = Window(started: int, count: nat)
  type Table = map<string, Window>
  datatype Answer = Answer(allowed: bool, wait: int)
  datatype Request = Request(client: string, now: int)

  function Purged(table: Table, now: int): Table {
    map key | key in table && now - table[key].started < MINUTE :: table[key]
  }

  function Step(table: Table, r: Request, limit: nat, bound: nat): (Table, Answer) {
    var kept := Purged(table, r.now);
    if r.client !in kept then
      if |kept| >= bound then (kept, Answer(false, MINUTE))
      else (kept[r.client := Window(r.now, 1)], Answer(true, 0))
    else
      var window := kept[r.client];
      if window.count >= limit then (kept, Answer(false, MINUTE - (r.now - window.started)))
      else (kept[r.client := Window(window.started, window.count + 1)], Answer(true, 0))
  }

  function After(requests: seq<Request>, limit: nat, bound: nat): Table {
    if requests == [] then map[]
    else Step(After(requests[..|requests| - 1], limit, bound), requests[|requests| - 1], limit, bound).0
  }

  function Answered(requests: seq<Request>, limit: nat, bound: nat): Answer
    requires requests != []
  {
    Step(After(requests[..|requests| - 1], limit, bound), requests[|requests| - 1], limit, bound).1
  }

  /** The requests of one client let through in the half-open interval. */
  function Admitted(requests: seq<Request>, limit: nat, bound: nat, client: string, from: int, to: int): nat {
    if requests == [] then 0
    else
      var last := requests[|requests| - 1];
      Admitted(requests[..|requests| - 1], limit, bound, client, from, to)
      + Counts(last, Answered(requests, limit, bound), client, from, to)
  }

  ghost predicate Ordered(requests: seq<Request>) {
    forall i, j :: 0 <= i < j < |requests| ==> requests[i].now <= requests[j].now
  }

  // ----- The table -----

  ghost predicate Sane(table: Table, now: int, limit: nat, bound: nat) {
    && |table| <= bound
    && forall key :: key in table ==> table[key].started <= now && 1 <= table[key].count <= limit
  }

  lemma PurgedSize(table: Table, now: int)
    ensures |Purged(table, now)| <= |table|
  {
    SubsetSize(Purged(table, now).Keys, table.Keys);
  }

  /** The table stays within its bound, and every refusal names a wait in (0, 60 s]. */
  lemma {:induction false} TableBounded(requests: seq<Request>, limit: nat, bound: nat)
    requires limit > 0 && Ordered(requests)
    ensures |After(requests, limit, bound)| <= bound
    ensures requests != [] ==> Sane(After(requests, limit, bound), requests[|requests| - 1].now, limit, bound)
    ensures requests != [] && !Answered(requests, limit, bound).allowed ==> 0 < Answered(requests, limit, bound).wait <= MINUTE
  {
    if requests != [] {
      TableBounded(requests[..|requests| - 1], limit, bound);
      PurgedSize(After(requests[..|requests| - 1], limit, bound), requests[|requests| - 1].now);
    }
  }

  // ----- The bound over whole runs -----

  /** A client's history from `from` on: it was admitted `admitted` times, by `earlier` full windows and
      one latest window, the first of which began at `first`. A first window that began before the
      interval spent its opening request there. */
  ghost predicate History(latest: Window, first: int, earlier: nat, admitted: nat, from: int, limit: nat) {
    && latest.count <= limit
    && admitted + (if first < from then 1 else 0) <= limit * earlier + latest.count
    && first + earlier * MINUTE <= latest.started
    && from - MINUTE < first
  }

  ghost predicate Explained(table: Table, client: string, now: int, admitted: nat, from: int, limit: nat,
                            latest: Window, first: int, earlier: nat) {
    admitted > 0 ==>
      && History(latest, first, earlier, admitted, from, limit) && latest.started <= now
      && (if client in table then table[client] == latest else now >= latest.started + MINUTE)
  }

  ghost predicate Bounded(table: Table, client: string, now: int, admitted: nat, from: int, limit: nat) {
    exists latest: Window, first: int, earlier: nat :: Explained(table, client, now, admitted, from, limit, latest, first, earlier)
  }

  function Counts(r: Request, answer: Answer, client: string, from: int, to: int): nat {
    if r.client == client && from <= r.now < to && answer.allowed then 1 else 0
  }

  lemma StepBounded(table: Table, r: Request, limit: nat, bound: nat, client: string, before: int, admitted: nat, from: int, to: int)
    requires limit > 0 && before <= r.now < to && Sane(table, before, limit, bound)
    requires Bounded(table, client, before, admitted, from, limit)
    ensures Bounded(Step(table, r, limit, bound).0, client, r.now,
                    admitted + Counts(r, Step(table, r, limit, bound).1, client, from, to), from, limit)
  {
    var latest: Window, first: int, earlier: nat :| Explained(table, client, before, admitted, from, limit, latest, first, earlier);
    var next := Step(table, r, limit, bound);
    var count := admitted + Counts(r, next.1, client, from, to);
    assert limit * 0 == 0;
    if count == admitted {
      // The latest window may have been purged or, for a request before the interval, have grown.
      var now := if client in next.0 then next.0[client] else latest;
      assert Explained(next.0, client, r.now, count, from, limit, now, first, earlier);
    } else if client !in Purged(table, r.now) {
      var newest := Window(r.now, 1);
      assert limit * (earlier + 1) == limit * earlier + limit;
      if admitted == 0 {
        assert Explained(next.0, client, r.now, count, from, limit, newest, r.now, 0);
      } else {
        assert Explained(next.0, client, r.now, count, from, limit, newest, first, earlier + 1);
      }
    } else if admitted == 0 {
      assert Explained(next.0, client, r.now, count, from, limit, next.0[client], next.0[client].started, 0);
    } else {
      assert Explained(next.0, client, r.now, count, from, limit, next.0[client], first, earlier);
    }
  }

  lemma {:induction false} RunBounded(requests: seq<Request>, limit: nat, bound: nat, client: string, from: int, to: int)
    requires limit > 0 && Ordered(requests) && requests != [] && requests[|requests| - 1].now < to
    ensures Bounded(After(requests, limit, bound), client, requests[|requests| - 1].now,
                    Admitted(requests, limit, bound, client, from, to), from, limit)
  {
    var front, last := requests[..|requests| - 1], requests[|requests| - 1];
    var before := if front == [] then last.now else front[|front| - 1].now;
    if front == [] {
      assert Explained(map[], client, last.now, 0, from, limit, Window(0, 0), 0, 0);
    } else {
      RunBounded(front, limit, bound, client, from, to);
    }
    TableBounded(front, limit, bound);
    StepBounded(After(front, limit, bound), last, limit, bound, client, before,
                Admitted(front, limit, bound, client, from, to), from, to);
  }

  lemma FewWindows(latest: Window, first: int, earlier: nat, admitted: nat, from: int, limit: nat, k: nat)
    requires History(latest, first, earlier, admitted, from, limit) && latest.started < from + k * MINUTE && limit > 0
    ensures admitted < (k + 1) * limit
  {
    assert earlier <= k;
    assert (k + 1) * limit == limit * k + limit;
    if earlier == k {
      assert first < from;
    } else {
      Product(limit, earlier + 1, k);
      assert limit * (earlier + 1) == limit * earlier + limit;
    }
  }

  lemma Product(limit: nat, a: nat, b: nat)
    requires a <= b
    ensures limit * a <= limit * b
  {
  }

  /** With a clock that never goes back, any half-open interval of k minutes admits fewer than k + 1 times
      the limit from one client, whatever the other clients do. */
  lemma {:induction false} AdmittedBound(requests: seq<Request>, limit: nat, bound: nat, client: string, from: int, k: nat)
    requires limit > 0 && Ordered(requests)
    ensures Admitted(requests, limit, bound, client, from, from + k * MINUTE) < (k + 1) * limit
  {
    var to := from + k * MINUTE;
    if requests != [] {
      if requests[|requests| - 1].now >= to {
        AdmittedBound(requests[..|requests| - 1], limit, bound, client, from, k);
      } else {
        RunBounded(requests, limit, bound, client, from, to);
        var n := Admitted(requests, limit, bound, client, from, to);
        var latest: Window, first: int, earlier: nat :|
          Explained(After(requests, limit, bound), client, requests[|requests| - 1].now, n, from, limit, latest, first, earlier);
        if n > 0 {
          FewWindows(latest, first, earlier, n, from, limit, k);
        }
      }
    }
  }

  /** The bound is met: with two requests a minute, three get through in the minute from zero. */
  lemma BoundIsMet(client: string)
    ensures var requests := [Request(client, -1), Request(client, 0), Request(client, MINUTE - 1), Request(client, MINUTE - 1)];
            Ordered(requests) && Admitted(requests, 2, 1, client, 0, 0 + 1 * MINUTE) == (1 + 1) * 2 - 1
  {
    var a, b, c := Request(client, -1), Request(client, 0), Request(client, MINUTE - 1);
    assert [a][..0] == [] && [a, b][..1] == [a] && [a, b, c][..2] == [a, b] && [a, b, c, c][..3] == [a, b, c];
    assert After([a], 2, 1) == map[client := Window(-1, 1)];
    assert After([a, b], 2, 1) == map[client := Window(-1, 2)];
    assert Purged(After([a, b], 2, 1), MINUTE - 1) == map[];
    assert After([a, b, c], 2, 1) == map[client := Window(MINUTE - 1, 1)];
    assert Admitted([a], 2, 1, client, 0, MINUTE) == 0;
    assert Admitted([a, b], 2, 1, client, 0, MINUTE) == 1;
    assert Admitted([a, b, c], 2, 1, client, 0, MINUTE) == 2;
  }

  /** A client refused for its own window is let through once it has waited, if nobody came in between. */
  lemma WaitIsEnough(table: Table, r: Request, limit: nat, bound: nat)
    requires Sane(table, r.now, limit, bound) && limit > 0
    requires r.client in Purged(table, r.now) && !Step(table, r, limit, bound).1.allowed
    ensures var (kept, answer) := Step(table, r, limit, bound);
            Step(kept, Request(r.client, r.now + answer.wait), limit, bound).1.allowed
  {
    var kept := Purged(table, r.now);
    var later := Purged(kept, r.now + (MINUTE - (r.now - kept[r.client].started)));
    PurgedSize(table, r.now);
    SubsetSize(later.Keys, kept.Keys - {r.client});
  }

  // ----- What a window counts -----

  predicate Young(table: Table, key: string, now: int) { key in table && now - table[key].started < MINUTE }

  /** A later end of the interval counts no more, and an interval after the last request counts nothing. */
  lemma {:induction false} AdmittedUntil(requests: seq<Request>, limit: nat, bound: nat, client: string, from: int, to: int, later: int)
    requires Ordered(requests) && to <= later && (requests != [] ==> requests[|requests| - 1].now < to)
    ensures Admitted(requests, limit, bound, client, from, to) == Admitted(requests, limit, bound, client, from, later)
  {
    hide Step, After;
    if requests != [] {
      var front := requests[..|requests| - 1];
      assert front != [] ==> front[|front| - 1] == requests[|requests| - 2];
      AdmittedUntil(front, limit, bound, client, from, to, later);
    }
  }

  /** A client that was let through in this instant has a young window. */
  lemma {:induction false} Lingers(requests: seq<Request>, limit: nat, bound: nat, client: string, now: int)
    requires limit > 0 && Ordered(requests) && (requests != [] ==> requests[|requests| - 1].now <= now)
    requires Admitted(requests, limit, bound, client, now, now + 1) > 0
    ensures Young(After(requests, limit, bound), client, now)
  {
    var front, last := requests[..|requests| - 1], requests[|requests| - 1];
    assert front != [] ==> front[|front| - 1] == requests[|requests| - 2];
    if Admitted(front, limit, bound, client, now, now + 1) > 0 {
      Lingers(front, limit, bound, client, now);
      Instant(front, limit, bound, client, now);
    }
  }

  /** Something was let through in the interval only if the last request was not before it. */
  lemma {:induction false} Instant(requests: seq<Request>, limit: nat, bound: nat, client: string, from: int)
    requires Ordered(requests) && Admitted(requests, limit, bound, client, from, from + 1) > 0
    ensures requests != [] && requests[|requests| - 1].now >= from
  {
    hide Step, After;
    var front, last := requests[..|requests| - 1], requests[|requests| - 1];
    if Admitted(front, limit, bound, client, from, from + 1) > 0 {
      Instant(front, limit, bound, client, from);
      assert front[|front| - 1] == requests[|requests| - 2];
    }
  }

  ghost predicate WindowIsTold(requests: seq<Request>, limit: nat, bound: nat, client: string) {
    var table := After(requests, limit, bound);
    client in table ==>
      && requests != []
      && var now := requests[|requests| - 1].now;
         Young(table, client, now) && table[client].started <= now
         && 1 <= table[client].count == Admitted(requests, limit, bound, client, table[client].started, now + 1) <= limit
  }

  lemma LastRequest(requests: seq<Request>, limit: nat, bound: nat, client: string, from: int, to: int)
    requires requests != []
    ensures var front, last := requests[..|requests| - 1], requests[|requests| - 1];
            var (table, answer) := Step(After(front, limit, bound), last, limit, bound);
            && After(requests, limit, bound) == table
            && Admitted(requests, limit, bound, client, from, to) == Admitted(front, limit, bound, client, from, to) + Counts(last, answer, client, from, to)
  {
    hide Step, Counts;
  }

  lemma NothingYet(limit: nat, bound: nat)
    ensures After([], limit, bound) == map[]
  {
  }

  /** Over every run, a client's window is younger than a minute and counts exactly the client's requests let
      through since it began. */
  lemma {:induction false} WindowsCountAdmitted(requests: seq<Request>, limit: nat, bound: nat, client: string)
    requires limit > 0 && Ordered(requests)
    ensures WindowIsTold(requests, limit, bound, client)
  {
    hide After, Admitted;
    if requests == [] {
      NothingYet(limit, bound);
    } else {
      var front, last := requests[..|requests| - 1], requests[|requests| - 1];
      assert front != [] ==> front[|front| - 1] == requests[|requests| - 2];
      WindowsCountAdmitted(front, limit, bound, client);
      var before, after := After(front, limit, bound), After(requests, limit, bound);
      LastRequest(requests, limit, bound, client, if client in after then after[client].started else 0, last.now + 1);
      if Young(before, client, last.now) {
        AdmittedUntil(front, limit, bound, client, before[client].started, front[|front| - 1].now + 1, last.now + 1);
      } else if Admitted(front, limit, bound, client, last.now, last.now + 1) > 0 {
        Lingers(front, limit, bound, client, last.now);
      }
    }
  }

  lemma FrontOrdered(front: seq<Request>, r: Request)
    requires Ordered(front + [r])
    ensures Ordered(front) && (front != [] ==> front[|front| - 1].now <= r.now)
  {
    var all := front + [r];
    assert all[|front|] == r && forall i :: 0 <= i < |front| ==> front[i] == all[i];
  }

  /** Over every run, a request is refused exactly when its client already had its limit in its current window or,
      without one, when as many other clients as there is room for had one; a refusal names when the window ends. */
  lemma RefusedExactly(front: seq<Request>, r: Request, limit: nat, bound: nat)
    requires limit > 0 && Ordered(front + [r])
    ensures var table, answer := After(front, limit, bound), Answered(front + [r], limit, bound);
            if Young(table, r.client, r.now) then
              var started := table[r.client].started;
              && (answer.allowed <==> Admitted(front, limit, bound, r.client, started, r.now + 1) < limit)
              && (!answer.allowed ==> r.now + answer.wait == started + MINUTE)
            else
              && (answer.allowed <==> |set key | key in table && Young(table, key, r.now)| < bound)
              && (!answer.allowed ==> answer.wait == MINUTE)
  {
    hide After, Admitted;
    var table := After(front, limit, bound);
    assert (front + [r])[..|front|] == front && (front + [r])[|front|] == r;
    assert (set key | key in table && Young(table, key, r.now)) == Purged(table, r.now).Keys;
    if Young(table, r.client, r.now) {
      FrontOrdered(front, r);
      WindowsCountAdmitted(front, limit, bound, r.client);
      AdmittedUntil(front, limit, bound, r.client, table[r.client].started, front[|front| - 1].now + 1, r.now + 1);
    }
  }

  /** A request changes no window but its own client's, and that only when it is let through: young windows stay
      as they were and the others are dropped. */
  lemma OthersKeepTheirWindows(table: Table, r: Request, limit: nat, bound: nat, key: string)
    ensures var (after, answer) := Step(table, r, limit, bound);
            if key == r.client && answer.allowed then
              key in after && after[key] == if Young(table, key, r.now) then Window(table[key].started, table[key].count + 1) else Window(r.now, 1)
            else
              (key in after <==> Young(table, key, r.now)) && (key in after ==> after[key] == table[key])
  {
    assert Young(table, key, r.now) <==> key in Purged(table, r.now);
  }

  class Limiter {
    const rateLimit: nat
    const maxRateClients: nat
    var clients: Table

    constructor (rateLimit: nat, maxRateClients: nat)
      ensures this.rateLimit == rateLimit && this.maxRateClients == maxRateClients && clients == map[]
    {
      this.rateLimit := rateLimit;
      this.maxRateClients := maxRateClients;
      clients := map[];
    }

    method AllowClient(client: string, now: int) returns (allowed: bool, wait: int)
      modifies this
      ensures (clients, Answer(allowed, wait)) == Step(old(clients), Request(client, now), rateLimit, maxRateClients)
    {
      ghost var before := clients;
      var keys := clients.Keys;
      while keys != {}
        invariant keys <= before.Keys
        invariant clients == map key | key in before && (key in keys || now - before[key].started < MINUTE) :: before[key]
        decreases keys
      {
        var key :| key in keys;
        if now - clients[key].started >= MINUTE {
          clients := clients - {key};
        }
        keys := keys - {key};
      }
      assert clients == Purged(before, now);
      if client !in clients {
        if |clients| >= maxRateClients {
          return false, MINUTE;
        }
        clients := clients[client := Window(now, 1)];
        return true, 0;
      }
      var window := clients[client];
      if window.count >= rateLimit {
        return false, MINUTE - (now - window.started);
      }
      clients := clients[client := Window(window.started, window.count + 1)];
      return true, 0;
    }
  }
}
