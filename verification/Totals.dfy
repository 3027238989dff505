/** Sums over the stream table, which connection flow control is counted in. */
module Totals {
  import opened Managers

  ghost predicate Distinct(order: seq<nat>) {
    forall i, j :: 0 <= i < j < |order| ==> order[i] != order[j]
  }

  lemma {:induction false} TotalSame(order: seq<nat>, a: map<nat, nat>, b: map<nat, nat>)
    requires forall id :: id in order ==> Get(a, id) == Get(b, id)
    ensures Total(order, a) == Total(order, b)
    decreases |order|
  {
    if order != [] {
      TotalSame(order[..|order| - 1], a, b);
    }
  }

  /** Changing one entry changes the total by the difference. */
  lemma {:induction false} TotalUpdate(order: seq<nat>, a: map<nat, nat>, id: nat, v: nat)
    requires Distinct(order) && id in order
    ensures Total(order, a[id := v]) == Total(order, a) - Get(a, id) + v
    decreases |order|
  {
    var n := |order| - 1;
    if order[n] == id {
      TotalSame(order[..n], a, a[id := v]);
    } else {
      TotalUpdate(order[..n], a, id, v);
    }
  }

  lemma TotalAppend(order: seq<nat>, a: map<nat, nat>, id: nat)
    ensures Total(order + [id], a) == Total(order, a) + Get(a, id)
  {
    assert (order + [id])[..|order|] == order;
  }

  /** The order without one entry. */
  ghost function Without(order: seq<nat>, id: nat): seq<nat>
    requires id in order
  {
    if order[|order| - 1] == id then order[..|order| - 1]
    else Without(order[..|order| - 1], id) + [order[|order| - 1]]
  }

  lemma DistinctSnoc(order: seq<nat>, id: nat)
    requires Distinct(order) && id !in order
    ensures Distinct(order + [id])
  {
  }

  lemma {:induction false} WithoutTotal(order: seq<nat>, id: nat, a: map<nat, nat>)
    requires id in order && Distinct(order)
    ensures Total(order, a) == Total(Without(order, id), a) + Get(a, id)
    ensures Distinct(Without(order, id))
    ensures forall x :: x in Without(order, id) <==> x in order && x != id
    decreases |order|
  {
    var n := |order| - 1;
    assert order == order[..n] + [order[n]];
    if order[n] != id {
      WithoutTotal(order[..n], id, a);
      TotalAppend(Without(order[..n], id), a, order[n]);
      DistinctSnoc(Without(order[..n], id), order[n]);
    }
  }

  /** A pointwise smaller table has a smaller total, when every entry that counts
      is listed in the larger one. */
  lemma {:induction false} TotalLe(small: seq<nat>, a: map<nat, nat>, large: seq<nat>, b: map<nat, nat>)
    requires Distinct(small) && Distinct(large)
    requires forall id: nat :: id in small ==> Get(a, id) <= Get(b, id) && (Get(a, id) > 0 ==> id in large)
    ensures Total(small, a) <= Total(large, b)
    decreases |small|
  {
    if small != [] {
      var n := |small| - 1;
      var id := small[n];
      assert small == small[..n] + [id];
      if Get(a, id) == 0 {
        TotalLe(small[..n], a, large, b);
      } else {
        WithoutTotal(large, id, b);
        TotalLe(small[..n], a, Without(large, id), b);
      }
    }
  }

  lemma {:induction false} TotalMonotone(order: seq<nat>, a: map<nat, nat>, b: map<nat, nat>)
    requires forall id: nat :: id in order ==> Get(a, id) <= Get(b, id)
    ensures Total(order, a) <= Total(order, b)
    decreases |order|
  {
    if order != [] { TotalMonotone(order[..|order| - 1], a, b); }
  }
}
