/** Merged, sorted, half-open integer ranges (src/dsquic/streams.py, class RangeSet).

    The source keeps a list of pairs and rebuilds it on every `add`.  A list in
    the form the class maintains is the only such list for the integers it
    covers (`NormalIsCanonical`), so the list refines a set of integers. */
module RangeSets {
  import opened Numbers

  datatype Range = Range(start: int, end: int)

  /** Non-empty ranges, in order, with a gap between neighbours. */
  ghost predicate Normal(rs: seq<Range>) {
    && (forall k :: 0 <= k < |rs| ==> rs[k].start < rs[k].end)
    && (forall j, k :: 0 <= j < k < |rs| ==> rs[j].end < rs[k].start)
  }

  /** The denotation: which integers a list covers. */
  ghost predicate Has(rs: seq<Range>, x: int) {
    exists k :: 0 <= k < |rs| && rs[k].start <= x < rs[k].end
  }

  // ---------------------------------------------------------------- add

  /** Reference form of `add`: walk the sorted list once, absorbing what touches. */
  function Insert(rs: seq<Range>, start: int, end: int): (r: seq<Range>) {
    if start >= end then rs else Absorb(rs, start, end)
  }

  function Absorb(rs: seq<Range>, start: int, end: int): (r: seq<Range>) {
    if rs == [] then [Range(start, end)]
    else if rs[0].end < start then [rs[0]] + Absorb(rs[1..], start, end)
    else if end < rs[0].start then [Range(start, end)] + rs
    else Absorb(rs[1..], Min(start, rs[0].start), Max(end, rs[0].end))
  }

  lemma HasSplit(r: Range, rs: seq<Range>, x: int)
    ensures Has([r] + rs, x) <==> (r.start <= x < r.end || Has(rs, x))
  {
    var all := [r] + rs;
    if r.start <= x < r.end {
      assert all[0] == r;
    }
    if Has(rs, x) {
      var k :| 0 <= k < |rs| && rs[k].start <= x < rs[k].end;
      assert all[k + 1] == rs[k];
    }
  }

  lemma HasTail(rs: seq<Range>, x: int)
    requires rs != []
    ensures Has(rs, x) <==> (rs[0].start <= x < rs[0].end || Has(rs[1..], x))
  {
    HasSplit(rs[0], rs[1..], x);
    assert [rs[0]] + rs[1..] == rs;
  }

  lemma NormalTail(rs: seq<Range>)
    requires Normal(rs) && rs != []
    ensures Normal(rs[1..])
    ensures forall x :: Has(rs[1..], x) ==> rs[0].end < x
  {
  }

  lemma {:induction false} AbsorbDenotes(rs: seq<Range>, start: int, end: int, x: int)
    requires Normal(rs) && start < end
    ensures Has(Absorb(rs, start, end), x) <==> Has(rs, x) || start <= x < end
    decreases |rs|
  {
    hide Has;
    if rs == [] {
      HasSplit(Range(start, end), [], x);
      assert [Range(start, end)] + [] == [Range(start, end)];
      HasNone(x);
    } else {
      HasTail(rs, x);
      NormalTail(rs);
      if rs[0].end < start {
        AbsorbDenotes(rs[1..], start, end, x);
        HasSplit(rs[0], Absorb(rs[1..], start, end), x);
      } else if end < rs[0].start {
        HasSplit(Range(start, end), rs, x);
      } else {
        AbsorbDenotes(rs[1..], Min(start, rs[0].start), Max(end, rs[0].end), x);
      }
    }
  }

  lemma HasNone(x: int)
    ensures !Has([], x)
  {
  }

  lemma {:induction false} AbsorbKeepsNormal(rs: seq<Range>, start: int, end: int)
    requires Normal(rs) && start < end
    ensures Normal(Absorb(rs, start, end))
    ensures Absorb(rs, start, end) != []
    ensures var low := Absorb(rs, start, end)[0].start; low >= start || (rs != [] && low >= rs[0].start)
    decreases |rs|
  {
    if rs != [] {
      NormalTail(rs);
      if rs[0].end < start {
        AbsorbKeepsNormal(rs[1..], start, end);
        NormalCons(rs[0], Absorb(rs[1..], start, end));
      } else if end < rs[0].start {
        NormalCons(Range(start, end), rs);
      } else {
        AbsorbKeepsNormal(rs[1..], Min(start, rs[0].start), Max(end, rs[0].end));
      }
    }
  }

  lemma NormalCons(r: Range, rs: seq<Range>)
    requires Normal(rs) && r.start < r.end && (rs != [] ==> r.end < rs[0].start)
    ensures Normal([r] + rs)
  {
    forall j, k | 0 <= j < k < |[r] + rs| ensures ([r] + rs)[j].end < ([r] + rs)[k].start {
      if j == 0 && k > 1 { assert rs[0].start < rs[0].end < rs[k - 1].start; }
    }
  }

  /** `add` denotes exact union and keeps the list sorted, disjoint and
      non-adjacent, for every argument including the empty range. */
  lemma InsertIsUnion(rs: seq<Range>, start: int, end: int)
    requires Normal(rs)
    ensures Normal(Insert(rs, start, end))
    ensures forall x :: Has(Insert(rs, start, end), x) <==> Has(rs, x) || start <= x < end
  {
    if start < end {
      AbsorbKeepsNormal(rs, start, end);
      forall x ensures Has(Absorb(rs, start, end), x) <==> Has(rs, x) || start <= x < end {
        AbsorbDenotes(rs, start, end, x);
      }
    }
  }

  // ------------------------------------------------------- canonical form

  lemma FirstIsLeast(rs: seq<Range>, x: int)
    requires Normal(rs) && rs != [] && Has(rs, x)
    ensures Has(rs, rs[0].start) && rs[0].start <= x
  {
    var k :| 0 <= k < |rs| && rs[k].start <= x < rs[k].end;
    assert rs[0].start < rs[0].end;
    assert k > 0 ==> rs[0].end < rs[k].start;
  }

  lemma FirstRunIsMaximal(rs: seq<Range>)
    requires Normal(rs) && rs != []
    ensures !Has(rs, rs[0].end)
    ensures forall x :: rs[0].start <= x < rs[0].end ==> Has(rs, x)
    ensures Has(rs, rs[0].start)
  {
  }

  /** Two lists in normal form that cover the same integers are equal. */
  lemma {:induction false} NormalIsCanonical(a: seq<Range>, b: seq<Range>)
    requires Normal(a) && Normal(b)
    requires forall x :: Has(a, x) <==> Has(b, x)
    ensures a == b
    decreases |a|
  {
    if a == [] || b == [] {
      if a != [] { FirstRunIsMaximal(a); }
      if b != [] { FirstRunIsMaximal(b); }
      return;
    }
    FirstRunIsMaximal(a);
    FirstRunIsMaximal(b);
    FirstIsLeast(a, b[0].start);
    FirstIsLeast(b, a[0].start);
    assert a[0].start == b[0].start;
    assert !Has(b, a[0].end) && !Has(a, b[0].end);
    assert a[0] == b[0];
    NormalTail(a);
    NormalTail(b);
    forall x ensures Has(a[1..], x) <==> Has(b[1..], x) {
      HasTail(a, x);
      HasTail(b, x);
    }
    NormalIsCanonical(a[1..], b[1..]);
    assert a == [a[0]] + a[1..] && b == [b[0]] + b[1..];
  }

  // ------------------------------------------------- contiguous coverage

  /** The end of unbroken coverage beginning at `start` (`contiguous_from`). */
  function ContiguousFrom(rs: seq<Range>, start: int): (r: int)
    ensures start <= r
  {
    if rs == [] then start
    else if rs[0].start <= start < rs[0].end then rs[0].end
    else ContiguousFrom(rs[1..], start)
  }

  /** `contiguous_from` is the end of the maximal covered run: everything from
      `start` up to it is covered and it is not. */
  lemma {:induction false} ContiguousIsMaximalRun(rs: seq<Range>, start: int)
    requires Normal(rs)
    ensures forall x :: start <= x < ContiguousFrom(rs, start) ==> Has(rs, x)
    ensures !Has(rs, ContiguousFrom(rs, start))
    decreases |rs|
  {
    if rs != [] {
      NormalTail(rs);
      if rs[0].start <= start < rs[0].end {
        FirstRunIsMaximal(rs);
      } else {
        ContiguousIsMaximalRun(rs[1..], start);
        assert start < ContiguousFrom(rs[1..], start) ==> Has(rs[1..], start);
        forall x ensures Has(rs, x) <==> (rs[0].start <= x < rs[0].end || Has(rs[1..], x)) {
          HasTail(rs, x);
        }
      }
    }
  }

  function Covers(rs: seq<Range>, start: int, end: int): bool {
    ContiguousFrom(rs, start) >= end
  }

  /** `covers` tests exactly whether every integer of the range is present. */
  lemma CoversIsInclusion(rs: seq<Range>, start: int, end: int)
    requires Normal(rs)
    ensures Covers(rs, start, end) <==> (forall x :: start <= x < end ==> Has(rs, x))
  {
    ContiguousIsMaximalRun(rs, start);
  }

  // ----------------------------------------------- the mutable container

  predicate Before(a: Range, b: Range) {
    a.start < b.start || (a.start == b.start && a.end <= b.end)
  }

  /** Python's list sort on pairs, as an insertion sort. */
  function Sorted(rs: seq<Range>): (r: seq<Range>) {
    if rs == [] then [] else Place(Sorted(rs[..|rs| - 1]), rs[|rs| - 1])
  }

  function Place(rs: seq<Range>, r: Range): (s: seq<Range>) {
    if rs == [] then [r]
    else if Before(rs[0], r) then [rs[0]] + Place(rs[1..], r)
    else [r] + rs
  }

  lemma {:induction false} PlaceLast(rs: seq<Range>, r: Range)
    requires forall k :: 0 <= k < |rs| ==> Before(rs[k], r)
    ensures Place(rs, r) == rs + [r]
    decreases |rs|
  {
    if rs != [] {
      PlaceLast(rs[1..], r);
      assert rs + [r] == [rs[0]] + (rs[1..] + [r]);
    }
  }

  lemma {:induction false} SortedOfNormal(rs: seq<Range>)
    requires Normal(rs)
    ensures Sorted(rs) == rs
    decreases |rs|
  {
    if rs != [] {
      var n := |rs| - 1;
      SortedOfNormal(rs[..n]);
      PlaceLast(rs[..n], rs[n]);
      assert rs == rs[..n] + [rs[n]];
    }
  }

  ghost predicate Apart(a: Range, start: int, end: int) {
    a.end < start || end < a.start
  }

  lemma {:induction false} PlaceDenotes(rs: seq<Range>, r: Range, x: int)
    ensures Has(Place(rs, r), x) <==> Has(rs, x) || r.start <= x < r.end
    decreases |rs|
  {
    hide Has;
    if rs == [] {
      assert [r] + rs == [r];
      HasSplit(r, rs, x);
    } else if Before(rs[0], r) {
      PlaceDenotes(rs[1..], r, x);
      HasTail(rs, x);
      HasSplit(rs[0], Place(rs[1..], r), x);
    } else {
      HasSplit(r, rs, x);
    }
  }

  lemma {:induction false} PlaceKeepsNormal(rs: seq<Range>, r: Range)
    requires Normal(rs) && r.start < r.end
    requires forall k :: 0 <= k < |rs| ==> Apart(rs[k], r.start, r.end)
    ensures Normal(Place(rs, r))
    ensures Place(rs, r) != [] && (Place(rs, r)[0] == r || (rs != [] && Place(rs, r)[0] == rs[0]))
    decreases |rs|
  {
    if rs != [] {
      NormalTail(rs);
      assert Apart(rs[0], r.start, r.end);
      if Before(rs[0], r) {
        PlaceKeepsNormal(rs[1..], r);
        NormalCons(rs[0], Place(rs[1..], r));
      } else {
        NormalCons(r, rs);
      }
    }
  }

  /** The loop of `add` between what it has seen and what is left: `merged` holds
      the ranges apart from the growing range [lo, hi), and together they cover
      what was seen. */
  ghost predicate Merging(seen: seq<Range>, left: seq<Range>, start: int, end: int,
                          merged: seq<Range>, lo: int, hi: int) {
    && lo <= start < end <= hi
    && Normal(left) && Normal(merged)
    && (forall k :: 0 <= k < |merged| ==> Apart(merged[k], lo, hi))
    && (forall k, m :: 0 <= k < |merged| && 0 <= m < |left| ==> merged[k].end < left[m].start)
    && (forall x :: Has(seen, x) || start <= x < end <==> Has(merged, x) || lo <= x < hi)
  }

  lemma MergeStep(seen: seq<Range>, r: Range, left: seq<Range>, start: int, end: int,
                  merged: seq<Range>, lo: int, hi: int)
    requires Merging(seen, [r] + left, start, end, merged, lo, hi)
    ensures if r.end < lo || hi < r.start
            then Merging(seen + [r], left, start, end, merged + [r], lo, hi)
            else Merging(seen + [r], left, start, end, merged, Min(lo, r.start), Max(hi, r.end))
  {
    hide Has;
    var all := [r] + left;
    NormalTail(all);
    assert all[1..] == left;
    assert all[0] == r && forall m :: 0 <= m < |left| ==> all[m + 1] == left[m];
    forall x ensures Has(seen + [r], x) <==> Has(seen, x) || r.start <= x < r.end {
      HasAppend(seen, r, x);
    }
    forall x ensures Has(merged + [r], x) <==> Has(merged, x) || r.start <= x < r.end {
      HasAppend(merged, r, x);
    }
    forall k | 0 <= k < |merged| ensures merged[k].end < r.start {
      assert merged[k].end < all[0].start;
    }
    forall k, m | 0 <= k < |merged| && 0 <= m < |left| ensures merged[k].end < left[m].start {
      assert merged[k].end < all[m + 1].start;
    }
  }

  class RangeSet {
    var ranges: seq<Range>

    ghost predicate Valid()
      reads this
    {
      Normal(ranges)
    }

    constructor ()
      ensures Valid() && ranges == []
    {
      ranges := [];
    }

    /** Union with [start, end).  The source scans the list, keeps what is apart
        from the growing range, appends the range and sorts. */
    method Add(start: int, end: int)
      requires Valid()
      modifies this
      ensures Valid()
      ensures ranges == Insert(old(ranges), start, end)
      ensures forall x :: Has(ranges, x) <==> Has(old(ranges), x) || start <= x < end
    {
      InsertIsUnion(ranges, start, end);
      if start >= end {
        return;
      }
      var lo, hi := start, end;
      var merged: seq<Range> := [];
      var i := 0;
      assert ranges[i..] == ranges;
      while i < |ranges|
        invariant 0 <= i <= |ranges| && ranges == old(ranges)
        invariant Merging(ranges[..i], ranges[i..], start, end, merged, lo, hi)
      {
        var r := ranges[i];
        assert [r] + ranges[i + 1..] == ranges[i..] && ranges[..i] + [r] == ranges[..i + 1];
        MergeStep(ranges[..i], r, ranges[i + 1..], start, end, merged, lo, hi);
        if r.end < lo || hi < r.start {
          merged := merged + [r];
        } else {
          lo := Min(lo, r.start);
          hi := Max(hi, r.end);
        }
        i := i + 1;
      }
      assert ranges[..i] == ranges;
      var last := Range(lo, hi);
      SortedOfNormal(merged);
      assert (merged + [last])[..|merged|] == merged;
      PlaceKeepsNormal(merged, last);
      forall x ensures Has(Place(merged, last), x) <==> Has(merged, x) || lo <= x < hi {
        PlaceDenotes(merged, last, x);
      }
      ranges := Sorted(merged + [last]);
      NormalIsCanonical(ranges, Insert(old(ranges), start, end));
    }

    method ContiguousEnd(start: int) returns (r: int)
      requires Valid()
      ensures r == ContiguousFrom(ranges, start)
    {
      var i := 0;
      while i < |ranges|
        invariant 0 <= i <= |ranges|
        invariant ContiguousFrom(ranges[i..], start) == ContiguousFrom(ranges, start)
      {
        if ranges[i].start <= start < ranges[i].end {
          return ranges[i].end;
        }
        assert ranges[i..][1..] == ranges[i + 1..];
        i := i + 1;
      }
      return start;
    }
  }

  lemma HasAppend(rs: seq<Range>, r: Range, x: int)
    ensures Has(rs + [r], x) <==> Has(rs, x) || r.start <= x < r.end
  {
    var all := rs + [r];
    assert all[|rs|] == r;
    if Has(rs, x) {
      var k :| 0 <= k < |rs| && rs[k].start <= x < rs[k].end;
      assert all[k] == rs[k];
    }
  }
}
