/** Lists without repetition in the order of first arrival. */
module Arrivals {
  ghost predicate NoRepeats<T>(s: seq<T>) { forall i, j :: 0 <= i < j < |s| ==> s[i] != s[j] }

  /** a arrives before b ever does. */
  ghost predicate ArrivesFirst<T>(a: T, b: T, stream: seq<T>) {
    exists m :: 0 <= m < |stream| && stream[m] == a && b !in stream[..m]
  }

  /** Everything that arrived, each once, in the order of its first arrival. */
  ghost predicate InOrderOfArrival<T(!new)>(order: seq<T>, stream: seq<T>) {
    && NoRepeats(order) && (forall x :: x in order <==> x in stream)
    && forall i, j :: 0 <= i < j < |order| ==> ArrivesFirst(order[i], order[j], stream)
  }

  lemma OneMoreArrival<T(!new)>(order: seq<T>, stream: seq<T>, x: T)
    requires InOrderOfArrival(order, stream)
    ensures InOrderOfArrival(if x in order then order else order + [x], stream + [x])
  {
    var now, more := if x in order then order else order + [x], stream + [x];
    assert more[|stream|] == x;
    forall y ensures y in now <==> y in more {
    }
    forall i, j | 0 <= i < j < |now| ensures ArrivesFirst(now[i], now[j], more) {
      if j < |order| {
        assert ArrivesFirst(order[i], order[j], stream);
        var m :| 0 <= m < |stream| && stream[m] == order[i] && order[j] !in stream[..m];
        assert more[..m] == stream[..m] && more[m] == stream[m];
      } else {
        assert order[i] in order;
        var m :| 0 <= m < |stream| && stream[m] == order[i];
        assert more[..m] == stream[..m] && more[m] == stream[m];
      }
    }
  }

  lemma NoArrivals<T(!new)>()
    ensures InOrderOfArrival<T>([], [])
  {
  }
}
