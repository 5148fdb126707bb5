/** The fair order of the routes (frontend/topology-model.js:478-497): by result and attempt, ties in their given order, then in rounds
    that take one route of each result, results in ascending order. */
module DomOrder {
  import opened Presentation
  import opened DomPlan

  // ----- Sorting -----

  ghost predicate NoIndexTwice(p: seq<nat>) { forall i, j :: 0 <= i < j < |p| ==> p[i] != p[j] }

  /** sorted holds routes[p[0]], routes[p[1]], …: every route once, none after a later one, and ties as they were. */
  ghost predicate Stable(sorted: seq<Route>, routes: seq<Route>, p: seq<nat>) {
    && |sorted| == |routes| == |p| && NoIndexTwice(p)
    && (forall i :: 0 <= i < |p| ==> p[i] < |routes| && sorted[i] == routes[p[i]])
    && forall i, j :: 0 <= i < j < |p| ==> Placed(sorted[i], sorted[j], p[i], p[j])
  }

  /** a may stand before b. */
  predicate Placed(a: Route, b: Route, i: nat, j: nat) {
    a.result < b.result || (a.result == b.result && (a.attempt < b.attempt || (a.attempt == b.attempt && i < j)))
  }

  lemma {:induction false} InsertPlaces(sorted: seq<Route>, p: seq<nat>, n: nat, r: Route) returns (q: seq<nat>)
    requires |sorted| == |p| && NoIndexTwice(p) && (forall i :: 0 <= i < |p| ==> p[i] < n)
    requires forall i, j :: 0 <= i < j < |p| ==> Placed(sorted[i], sorted[j], p[i], p[j])
    ensures |q| == |Insert(sorted, r)| == |p| + 1 && NoIndexTwice(q) && n in q && (forall k :: k in q <==> k in p || k == n)
    ensures forall i :: 0 <= i < |q| ==> if q[i] == n then Insert(sorted, r)[i] == r else exists k :: 0 <= k < |p| && p[k] == q[i] && Insert(sorted, r)[i] == sorted[k]
    ensures forall i, j :: 0 <= i < j < |q| ==> Placed(Insert(sorted, r)[i], Insert(sorted, r)[j], q[i], q[j])
    decreases |sorted|
  {
    if sorted == [] || !Earlier(r, sorted[|sorted| - 1]) {
      q := p + [n];
      forall i, j | 0 <= i < j < |q| ensures Placed(Insert(sorted, r)[i], Insert(sorted, r)[j], q[i], q[j]) {
        if j == |p| && i < |p| - 1 {
          assert Placed(sorted[i], sorted[|p| - 1], p[i], p[|p| - 1]);
        }
      }
    } else {
      var m := |sorted| - 1;
      var front := InsertPlaces(sorted[..m], p[..m], n, r);
      q := front + [p[m]];
      forall i, j | 0 <= i < j < |q| ensures Placed(Insert(sorted, r)[i], Insert(sorted, r)[j], q[i], q[j]) {
        if j == m + 1 && q[i] != n {
          var k :| 0 <= k < m && p[..m][k] == q[i] && Insert(sorted[..m], r)[i] == sorted[..m][k];
          assert Placed(sorted[k], sorted[m], p[k], p[m]);
        }
      }
      forall i | 0 <= i < |q| && q[i] != n ensures exists k :: 0 <= k < |p| && p[k] == q[i] && Insert(sorted, r)[i] == sorted[k] {
        if i < |front| {
          var k :| 0 <= k < m && p[..m][k] == front[i] && Insert(sorted[..m], r)[i] == sorted[..m][k];
          assert p[k] == q[i] && Insert(sorted, r)[i] == sorted[k];
        }
      }
    }
  }

  /** Sorting keeps every route once, in order of result and attempt, ties as they were. */
  lemma {:induction false} SortedIsStable(routes: seq<Route>) returns (p: seq<nat>)
    ensures Stable(Sorted(routes), routes, p)
    decreases |routes|
  {
    hide Insert;
    if routes == [] {
      p := [];
    } else {
      var n := |routes| - 1;
      var front, last := routes[..n], routes[n];
      var before := SortedIsStable(front);
      p := InsertPlaces(Sorted(front), before, n, last);
      forall i | 0 <= i < |p| ensures p[i] < |routes| && Sorted(routes)[i] == routes[p[i]] {
        if p[i] != n {
          var k :| 0 <= k < |before| && before[k] == p[i] && Insert(Sorted(front), last)[i] == Sorted(front)[k];
          assert front[before[k]] == routes[p[i]];
        }
      }
    }
  }

  // ----- Groups -----

  /** Each group holds the routes of one result, and neighbouring groups differ. */
  ghost predicate ByResult(groups: seq<seq<Route>>) {
    && (forall g :: 0 <= g < |groups| ==> groups[g] != [])
    && (forall g, k :: 0 <= g < |groups| && 0 <= k < |groups[g]| ==> groups[g][k].result == groups[g][0].result)
    && forall g :: 0 < g < |groups| ==> groups[g - 1][0].result != groups[g][0].result
  }

  lemma {:induction false} RunsAreByResult(sorted: seq<Route>)
    ensures ByResult(Runs(sorted)) && Everyone(Runs(sorted)) == sorted
    decreases |sorted|
  {
    if sorted != [] {
      var rest: seq<seq<Route>> := Runs(sorted[1..]);
      RunsAreByResult(sorted[1..]);
      if rest != [] && rest[0][0].result == sorted[0].result {
        RunJoins(rest, sorted[0]);
      } else {
        RunStarts(rest, sorted[0]);
      }
    }
  }

  lemma RunJoins(rest: seq<seq<Route>>, r: Route)
    requires ByResult(rest) && rest != [] && rest[0][0].result == r.result
    ensures ByResult([[r] + rest[0]] + rest[1..])
  {
    var now: seq<seq<Route>> := [[r] + rest[0]] + rest[1..];
    forall g, k | 0 <= g < |now| && 0 <= k < |now[g]| ensures now[g][k].result == now[g][0].result {
      if g == 0 && k > 0 {
        assert now[0][k] == rest[0][k - 1];
      }
    }
    forall g | 0 < g < |now| ensures now[g - 1][0].result != now[g][0].result {
      assert now[g] == rest[g] && (g > 1 ==> now[g - 1] == rest[g - 1]);
    }
  }

  lemma RunStarts(rest: seq<seq<Route>>, r: Route)
    requires ByResult(rest) && (rest != [] ==> rest[0][0].result != r.result)
    ensures ByResult([[r]] + rest)
  {
    var now: seq<seq<Route>> := [[r]] + rest;
    forall g | 0 < g < |now| ensures now[g - 1][0].result != now[g][0].result {
      assert now[g] == rest[g - 1] && (g > 1 ==> now[g - 1] == rest[g - 2]);
    }
  }

  // ----- Rounds -----

  /** The k-th route of group g comes before the l-th of group f. */
  predicate Sooner(a: (nat, nat), b: (nat, nat)) { a.0 < b.0 || (a.0 == b.0 && a.1 < b.1) }

  /** order takes the routes round by round, at[i] = (round, group); those of the rounds from `from` on. */
  ghost predicate InRounds(order: seq<Route>, groups: seq<seq<Route>>, at: seq<(nat, nat)>, from: nat) {
    && |order| == |at|
    && (forall i :: 0 <= i < |at| ==> from <= at[i].0 && at[i].1 < |groups| && at[i].0 < |groups[at[i].1]| && order[i] == groups[at[i].1][at[i].0])
    && (forall i, j :: 0 <= i < j < |at| ==> Sooner(at[i], at[j]))
    && forall g, k: nat :: 0 <= g < |groups| && from <= k < |groups[g]| ==> (k, g) in at
  }

  /** One round takes one route of each of the first n groups that has one left. */
  ghost predicate OneRound(column: seq<Route>, groups: seq<seq<Route>>, k: nat, of: seq<nat>, n: nat) {
    && n <= |groups| && |column| == |of|
    && (forall i :: 0 <= i < |of| ==> of[i] < n && k < |groups[of[i]]| && column[i] == groups[of[i]][k])
    && (forall i, j :: 0 <= i < j < |of| ==> of[i] < of[j])
    && forall g: nat :: g < n && k < |groups[g]| ==> g in of
  }

  lemma OneMoreGroup(column: seq<Route>, groups: seq<seq<Route>>, k: nat, of: seq<nat>, n: nat)
    requires OneRound(column, groups, k, of, n) && n < |groups|
    ensures k >= |groups[n]| ==> OneRound(column, groups, k, of, n + 1)
    ensures k < |groups[n]| ==> OneRound(column + [groups[n][k]], groups, k, of + [n], n + 1)
  {
    if k < |groups[n]| {
      assert (of + [n])[|of|] == n;
    }
  }

  lemma {:induction false} ColumnIsARound(groups: seq<seq<Route>>, k: nat, n: nat) returns (of: seq<nat>)
    requires n <= |groups|
    ensures OneRound(Column(groups[..n], k), groups, k, of, n)
  {
    if n == 0 {
      of := [];
    } else {
      hide Column, OneRound;
      var before := ColumnIsARound(groups, k, n - 1);
      ColumnMore(groups, n - 1, k);
      OneMoreGroup(Column(groups[..n - 1], k), groups, k, before, n - 1);
      of := if k < |groups[n - 1]| then before + [n - 1] else before;
      assert Column(groups[..n - 1], k) + [] == Column(groups[..n - 1], k);
    }
  }

  function InRound(k: nat, of: seq<nat>): (r: seq<(nat, nat)>)
    ensures |r| == |of| && forall i :: 0 <= i < |r| ==> r[i] == (k, of[i])
  {
    seq(|of|, i requires 0 <= i < |of| => (k, of[i]))
  }

  lemma {:induction false} RoundsFrom(groups: seq<seq<Route>>, k: nat) returns (at: seq<(nat, nat)>)
    ensures InRounds(Rounds(Drop(groups, k)), groups, at, k)
    decreases |Everyone(Drop(groups, k))|
  {
    hide Rounds, Drop, Column, Everyone, InRounds, OneRound;
    RoundSplit(groups, k);
    var of := ColumnIsARound(groups, k, |groups|);
    assert groups[..|groups|] == groups;
    if Column(groups, k) == [] {
      at := [];
      NoMoreRounds(groups, k, of);
    } else {
      var later := RoundsFrom(groups, k + 1);
      at := InRound(k, of) + later;
      RoundThenRounds(Column(groups, k), Rounds(Drop(groups, k + 1)), groups, k, of, later);
    }
  }

  lemma NoMoreRounds(groups: seq<seq<Route>>, k: nat, of: seq<nat>)
    requires OneRound([], groups, k, of, |groups|)
    ensures InRounds([], groups, [], k)
  {
    assert of == [];
  }

  lemma RoundAscends(column: seq<Route>, rest: seq<Route>, groups: seq<seq<Route>>, k: nat, of: seq<nat>, later: seq<(nat, nat)>)
    requires OneRound(column, groups, k, of, |groups|) && InRounds(rest, groups, later, k + 1)
    ensures forall i, j :: 0 <= i < j < |of| + |later| ==> Sooner((InRound(k, of) + later)[i], (InRound(k, of) + later)[j])
  {
    var at := InRound(k, of) + later;
    forall i, j | 0 <= i < j < |at| ensures Sooner(at[i], at[j]) {
      if i >= |of| {
        assert at[i] == later[i - |of|] && at[j] == later[j - |of|];
      } else if j >= |of| {
        assert at[j] == later[j - |of|];
      }
    }
  }

  lemma RoundThenRounds(column: seq<Route>, rest: seq<Route>, groups: seq<seq<Route>>, k: nat, of: seq<nat>, later: seq<(nat, nat)>)
    requires OneRound(column, groups, k, of, |groups|) && InRounds(rest, groups, later, k + 1)
    ensures InRounds(column + rest, groups, InRound(k, of) + later, k)
  {
    var all, at := column + rest, InRound(k, of) + later;
    forall i | 0 <= i < |at|
      ensures k <= at[i].0 && at[i].1 < |groups| && at[i].0 < |groups[at[i].1]| && all[i] == groups[at[i].1][at[i].0]
    {
      if i >= |of| {
        assert at[i] == later[i - |of|] && all[i] == rest[i - |of|];
      }
    }
    RoundAscends(column, rest, groups, k, of, later);
    forall g, l: nat | 0 <= g < |groups| && k <= l < |groups[g]| ensures (l, g) in at {
      RoundHas(groups, k, of, later, column, rest, g, l);
    }
    hide OneRound;
  }

  lemma RoundHas(groups: seq<seq<Route>>, k: nat, of: seq<nat>, later: seq<(nat, nat)>, column: seq<Route>, rest: seq<Route>, g: nat, l: nat)
    requires OneRound(column, groups, k, of, |groups|) && InRounds(rest, groups, later, k + 1)
    requires g < |groups| && k <= l < |groups[g]|
    ensures (l, g) in InRound(k, of) + later
  {
    if l == k {
      assert g in of;
      var i :| 0 <= i < |of| && of[i] == g;
      assert InRound(k, of)[i] == (l, g);
    } else {
      assert (l, g) in later;
    }
  }

  /** The fair order: the routes sorted, grouped by result, and taken round after round. */
  lemma FairOrderIsTold(routes: seq<Route>) returns (p: seq<nat>, at: seq<(nat, nat)>)
    ensures var sorted := Sorted(routes);
            var groups := Runs(sorted);
            && Stable(sorted, routes, p) && Everyone(groups) == sorted && ByResult(groups) && InRounds(Rounds(groups), groups, at, 0)
  {
    hide Sorted, Runs, Rounds, Stable, ByResult, InRounds, Everyone;
    p := SortedIsStable(routes);
    RunsAreByResult(Sorted(routes));
    DropNothing(Runs(Sorted(routes)));
    at := RoundsFrom(Runs(Sorted(routes)), 0);
  }
}
