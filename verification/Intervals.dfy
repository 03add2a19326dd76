/** Sets of points kept as sorted lists of closed intervals (`UnionIntervals`, `IntervalsContain`). */
module Intervals {

  datatype Interval = Interval(first: real, second: real)

  predicate IsValid(i: Interval) { i.first <= i.second }

  predicate IntervalContains(a: Interval, b: Interval) { a.first <= b.first && b.second <= a.second }

  /** The list order: by start, then by end. */
  predicate NotAfter(a: Interval, b: Interval) { a.first < b.first || (a.first == b.first && a.second <= b.second) }

  predicate AreValidIntervals(s: seq<Interval>) {
    && (forall i :: 0 <= i < |s| ==> IsValid(s[i]))
    && (forall i :: 0 < i < |s| ==> NotAfter(s[i - 1], s[i]))
  }

  /** Sorted with a gap between neighbours: the form `UnionIntervals` builds. */
  predicate Canonical(s: seq<Interval>) {
    && (forall i :: 0 <= i < |s| ==> IsValid(s[i]))
    && (forall i, j :: 0 <= i < j < |s| ==> s[i].second < s[j].first)
  }

  /** Starts and ends in order, which is what the searches need; intervals may touch or overlap. */
  predicate Ordered(s: seq<Interval>) {
    && (forall i :: 0 <= i < |s| ==> IsValid(s[i]))
    && (forall i, j :: 0 <= i < j < |s| ==> s[i].first <= s[j].first && s[i].second <= s[j].second)
  }

  predicate In(i: Interval, x: real) { i.first <= x <= i.second }

  /** The points a list denotes. */
  predicate Covers(s: seq<Interval>, x: real) { exists i :: 0 <= i < |s| && In(s[i], x) }

  function Min(a: real, b: real): real { if a <= b then a else b }

  function Max(a: real, b: real): real { if a <= b then b else a }

  /** The pairwise form of the list order, as far as the starts go. */
  predicate StartsInOrder(s: seq<Interval>) { forall i, j :: 0 <= i < j < |s| ==> s[i].first <= s[j].first }

  lemma {:induction false} ValidStarts(s: seq<Interval>)
    requires AreValidIntervals(s)
    ensures StartsInOrder(s)
  {
    if |s| > 1 {
      var n := |s| - 1;
      ValidStarts(s[..n]);
      assert NotAfter(s[n - 1], s[n]);
    }
  }

  /** What `lower_bound` demands of a list for one bound: the intervals that end before it come first. */
  predicate Partitioned(s: seq<Interval>, x: real) {
    forall i, j :: 0 <= i < j < |s| && s[j].second < x ==> s[i].second < x
  }

  /** A valid list can be searched for every bound if and only if its ends are in order too. */
  lemma SearchCondition(s: seq<Interval>)
    requires AreValidIntervals(s)
    ensures Ordered(s) <==> forall x :: Partitioned(s, x)
  {
    ValidStarts(s);
    if forall x :: Partitioned(s, x) {
      forall i, j | 0 <= i < j < |s| ensures s[i].second <= s[j].second { assert Partitioned(s, s[i].second); }
    }
  }

  // ---------- the two binary searches ----------

  /** `lower_bound` on the ends: the first interval that does not end before x. */
  method LowerBound(s: seq<Interval>, x: real) returns (i: nat)
    requires Partitioned(s, x)
    ensures i <= |s|
    ensures forall k :: 0 <= k < i ==> s[k].second < x
    ensures forall k :: i <= k < |s| ==> x <= s[k].second
  {
    i := 0;
    var hi: nat := |s|;
    while i < hi
      invariant 0 <= i <= hi <= |s|
      invariant forall k :: 0 <= k < i ==> s[k].second < x
      invariant forall k :: hi <= k < |s| ==> x <= s[k].second
    {
      var mid := (i + hi) / 2;
      if s[mid].second < x { i := mid + 1; } else { hi := mid; }
    }
  }

  /** `upper_bound` on the starts, from position `from` on: the first interval that starts after x. */
  method UpperBound(s: seq<Interval>, from: nat, x: real) returns (j: nat)
    requires StartsInOrder(s) && from <= |s|
    ensures from <= j <= |s|
    ensures forall k :: from <= k < j ==> s[k].first <= x
    ensures forall k :: j <= k < |s| ==> x < s[k].first
  {
    j := from;
    var hi: nat := |s|;
    while j < hi
      invariant from <= j <= hi <= |s|
      invariant forall k :: from <= k < j ==> s[k].first <= x
      invariant forall k :: hi <= k < |s| ==> x < s[k].first
    {
      var mid := (j + hi) / 2;
      if s[mid].first <= x { j := mid + 1; } else { hi := mid; }
    }
  }

  // ---------- union ----------

  /** Replaces the intervals from i up to j by the one that spans them and the new one. */
  function Merged(s: seq<Interval>, i: nat, j: nat, added: Interval): seq<Interval>
    requires i < j <= |s|
  {
    s[..i] + [Interval(Min(s[i].first, added.first), Max(s[j - 1].second, added.second))] + s[j..]
  }

  lemma CoversConcat(a: seq<Interval>, b: seq<Interval>, x: real)
    ensures Covers(a + b, x) <==> Covers(a, x) || Covers(b, x)
  {
    if Covers(a, x) {
      var i :| 0 <= i < |a| && In(a[i], x);
      assert In((a + b)[i], x);
    }
    if Covers(b, x) {
      var i :| 0 <= i < |b| && In(b[i], x);
      assert In((a + b)[|a| + i], x);
    }
  }

  lemma CoversOne(i: Interval, x: real)
    ensures Covers([i], x) <==> In(i, x)
  {
    assert [i][0] == i;
  }

  /** A list cut in two, with one interval between the parts. */
  lemma CoversAround(a: seq<Interval>, i: Interval, b: seq<Interval>, x: real)
    ensures Covers(a + [i] + b, x) <==> Covers(a, x) || In(i, x) || Covers(b, x)
  {
    CoversConcat(a + [i], b, x);
    CoversConcat(a, [i], x);
    CoversOne(i, x);
  }

  lemma CoversSplit(s: seq<Interval>, i: nat, x: real)
    requires i <= |s|
    ensures Covers(s, x) <==> Covers(s[..i], x) || Covers(s[i..], x)
  {
    assert s == s[..i] + s[i..];
    CoversConcat(s[..i], s[i..], x);
  }

  /** The new interval fits between the intervals before i and those from i on. */
  predicate Fits(s: seq<Interval>, i: nat, added: Interval) {
    && i <= |s|
    && (forall k :: 0 <= k < i ==> s[k].second < added.first)
    && (forall k :: i <= k < |s| ==> added.second < s[k].first)
  }

  function Inserted(s: seq<Interval>, i: nat, added: Interval): seq<Interval>
    requires i <= |s|
  {
    s[..i] + [added] + s[i..]
  }

  lemma InsertedCovers(s: seq<Interval>, i: nat, added: Interval)
    requires i <= |s|
    ensures forall x :: Covers(Inserted(s, i, added), x) <==> Covers(s, x) || In(added, x)
  {
    forall x ensures Covers(Inserted(s, i, added), x) <==> Covers(s, x) || In(added, x) {
      CoversAround(s[..i], added, s[i..], x);
      CoversSplit(s, i, x);
    }
  }

  lemma InsertedAt(s: seq<Interval>, i: nat, added: Interval)
    requires i <= |s|
    ensures var r := Inserted(s, i, added);
            && |r| == |s| + 1 && r[i] == added
            && (forall k :: 0 <= k < i ==> r[k] == s[k]) && (forall k :: i < k < |r| ==> r[k] == s[k - 1])
  {
  }

  lemma InsertedIsValid(s: seq<Interval>, i: nat, added: Interval)
    requires AreValidIntervals(s) && IsValid(added) && Fits(s, i, added)
    ensures AreValidIntervals(Inserted(s, i, added))
  {
    InsertedAt(s, i, added);
    var r := Inserted(s, i, added);
    forall k | 0 < k < |r| ensures NotAfter(r[k - 1], r[k]) {
      if k < i { assert NotAfter(s[k - 1], s[k]); } else if k > i + 1 { assert NotAfter(s[k - 2], s[k - 1]); }
      if k == i { assert IsValid(s[k - 1]); }
    }
  }

  lemma InsertedIsOrdered(s: seq<Interval>, i: nat, added: Interval)
    requires Ordered(s) && IsValid(added) && Fits(s, i, added)
    ensures Ordered(Inserted(s, i, added))
  {
    InsertedAt(s, i, added);
  }

  lemma InsertedIsCanonical(s: seq<Interval>, i: nat, added: Interval)
    requires Canonical(s) && IsValid(added) && Fits(s, i, added)
    ensures Canonical(Inserted(s, i, added))
  {
    InsertedAt(s, i, added);
  }

  /** Everything between positions i and j touches the new interval. */
  predicate Touching(s: seq<Interval>, i: nat, j: nat, added: Interval) {
    && i < j <= |s|
    && (forall k :: 0 <= k < i ==> s[k].second < added.first)
    && (forall k :: i <= k < j ==> added.first <= s[k].second && s[k].first <= added.second)
    && (forall k :: j <= k < |s| ==> added.second < s[k].first)
  }

  lemma MergedAt(s: seq<Interval>, i: nat, j: nat, added: Interval)
    requires i < j <= |s|
    ensures var r := Merged(s, i, j, added);
            && |r| == i + 1 + (|s| - j)
            && r[i] == Interval(Min(s[i].first, added.first), Max(s[j - 1].second, added.second))
            && (forall k :: 0 <= k < i ==> r[k] == s[k])
            && (forall k :: i < k < |r| ==> r[k] == s[k - i - 1 + j])
  {
  }

  lemma MergedIsOrdered(s: seq<Interval>, i: nat, j: nat, added: Interval)
    requires Ordered(s) && IsValid(added) && Touching(s, i, j, added)
    ensures Ordered(Merged(s, i, j, added))
  {
    var r := Merged(s, i, j, added);
    MergedAt(s, i, j, added);
    forall k | 0 <= k < i ensures r[k].first <= r[i].first && r[k].second <= r[i].second { assert IsValid(s[k]); }
    forall k | i < k < |r| ensures r[i].first <= r[k].first && r[i].second <= r[k].second {
      assert IsValid(s[k - i - 1 + j]);
    }
  }

  lemma MergedIsCanonical(s: seq<Interval>, i: nat, j: nat, added: Interval)
    requires Canonical(s) && IsValid(added) && Touching(s, i, j, added)
    ensures Canonical(Merged(s, i, j, added))
  {
    MergedAt(s, i, j, added);
  }

  lemma MergedIsValid(s: seq<Interval>, i: nat, j: nat, added: Interval)
    requires AreValidIntervals(s) && IsValid(added) && Touching(s, i, j, added)
    ensures AreValidIntervals(Merged(s, i, j, added))
  {
    MergedAt(s, i, j, added);
    ValidStarts(s);
    var r := Merged(s, i, j, added);
    forall k | 0 < k < |r| ensures NotAfter(r[k - 1], r[k]) {
      if k < i {
        assert NotAfter(s[k - 1], s[k]);
      } else if k > i + 1 {
        assert NotAfter(s[k - i - 2 + j], s[k - i - 1 + j]);
      } else if k == i {
        assert IsValid(s[k - 1]);
      }
    }
  }

  // Which points a merge keeps.

  /** The largest end. */
  function TopEnd(s: seq<Interval>): (top: real)
    requires s != []
    ensures (forall k :: 0 <= k < |s| ==> s[k].second <= top) && exists k :: 0 <= k < |s| && s[k].second == top
  {
    if |s| == 1 then s[0].second else Max(s[0].second, TopEnd(s[1..]))
  }

  /** Walking the list from a point on gets to the top without a gap. */
  predicate Reaches(s: seq<Interval>, from: real, top: real) {
    top <= from || (s != [] && s[0].first <= from && Reaches(s[1..], Max(from, s[0].second), top))
  }

  lemma {:induction false} ReachesIff(s: seq<Interval>, from: real, top: real)
    requires StartsInOrder(s)
    ensures Reaches(s, from, top) <==> forall x :: from < x <= top ==> Covers(s, x)
  {
    if from < top {
      if s == [] || from < s[0].first {
        var x := if s == [] then top else Min(top, (from + s[0].first) / 2.0);
        assert from < x <= top && !Covers(s, x);
      } else {
        var next := Max(from, s[0].second);
        ReachesIff(s[1..], next, top);
        forall x ensures Covers(s, x) <==> In(s[0], x) || Covers(s[1..], x) {
          CoversSplit(s, 1, x);
          assert s[..1] == [s[0]];
          CoversOne(s[0], x);
        }
      }
    }
  }

  /** A merge gains no point, and loses only what touching intervals cover behind the end of the span. */
  lemma MergedCovers(s: seq<Interval>, i: nat, j: nat, added: Interval, x: real)
    requires StartsInOrder(s) && IsValid(added) && Touching(s, i, j, added)
    ensures var end := Max(s[j - 1].second, added.second);
            Covers(Merged(s, i, j, added), x) <==>
            (Covers(s, x) || In(added, x)) && (end < x <= TopEnd(s[i..j]) ==> Covers(s[j..], x))
  {
    var span := Interval(Min(s[i].first, added.first), Max(s[j - 1].second, added.second));
    var mid := s[i..j];
    CoversAround(s[..i], span, s[j..], x);
    CoversSplit(s, i, x);
    CoversSplit(s[i..], j - i, x);
    assert s[i..][..j - i] == mid && s[i..][j - i..] == s[j..];
    assert forall k :: 0 <= k < |mid| ==> mid[k] == s[i + k];
    assert In(span, x) <==> x <= span.second && (Covers(mid, x) || In(added, x)) by {
      if In(span, x) && !In(added, x) {
        if x < added.first { assert In(mid[0], x); } else { assert In(mid[j - 1 - i], x); }
      }
    }
    if span.second < x <= TopEnd(mid) {
      var k :| 0 <= k < |mid| && mid[k].second == TopEnd(mid);
      assert In(mid[k], x);
    }
  }

  /** The end of the span, and from there on the points that may be lost. */
  predicate MergeReaches(s: seq<Interval>, i: nat, j: nat, added: Interval)
    requires i < j <= |s|
  {
    Reaches(s[j..], Max(s[j - 1].second, added.second), TopEnd(s[i..j]))
  }

  /** A merge is exact if and only if the rest of the list reaches as far as what was merged did. */
  lemma MergeCondition(s: seq<Interval>, i: nat, j: nat, added: Interval)
    requires AreValidIntervals(s) && IsValid(added) && Touching(s, i, j, added)
    ensures (forall x :: Covers(Merged(s, i, j, added), x) <==> Covers(s, x) || In(added, x)) <==>
            MergeReaches(s, i, j, added)
  {
    ValidStarts(s);
    var end, top := Max(s[j - 1].second, added.second), TopEnd(s[i..j]);
    ReachesIff(s[j..], end, top);
    forall x
      ensures Covers(Merged(s, i, j, added), x) <==>
              (Covers(s, x) || In(added, x)) && (end < x <= top ==> Covers(s[j..], x))
      ensures end < x <= top ==> Covers(s, x)
    {
      MergedCovers(s, i, j, added, x);
      if end < x <= top {
        var k :| 0 <= k < |s[i..j]| && s[i..j][k].second == top;
        assert In(s[i + k], x);
      }
    }
  }

  // ---------- one form for each set of points ----------

  lemma FirstPoint(a: seq<Interval>, b: seq<Interval>)
    requires Canonical(a) && Canonical(b) && a != []
    requires forall x :: Covers(a, x) <==> Covers(b, x)
    ensures b != [] && b[0].first <= a[0].first
  {
    assert In(a[0], a[0].first) && Covers(a, a[0].first);
    var i :| 0 <= i < |b| && In(b[i], a[0].first);
  }

  /** Between an end and a later bound, a dense order has a point the list does not cover. */
  lemma GapPoint(b: seq<Interval>, bound: real) returns (x: real)
    requires Canonical(b) && b != [] && b[0].second < bound
    ensures b[0].second < x < bound && !Covers(b, x)
  {
    var limit := if |b| > 1 then Min(b[1].first, bound) else bound;
    x := (b[0].second + limit) / 2.0;
    assert forall k :: 1 <= k < |b| ==> b[1].first <= b[k].first;
  }

  lemma EndsDiffer(a: seq<Interval>, b: seq<Interval>)
    requires Canonical(a) && Canonical(b) && a != [] && b != []
    requires a[0].first == b[0].first && b[0].second < a[0].second
    ensures exists x :: Covers(a, x) && !Covers(b, x)
  {
    var x := GapPoint(b, a[0].second);
    assert In(a[0], x);
  }

  lemma CoversTail(a: seq<Interval>, x: real)
    requires Canonical(a) && a != []
    ensures Covers(a[1..], x) <==> Covers(a, x) && a[0].second < x
  {
    CoversSplit(a, 1, x);
    assert a[..1] == [a[0]];
    CoversOne(a[0], x);
    if Covers(a[1..], x) {
      var i :| 0 <= i < |a[1..]| && In(a[1..][i], x);
      assert a[0].second < a[i + 1].first;
    }
  }

  /** Over a dense order, two canonical lists with the same points are the same list. */
  lemma {:induction false} UniqueForm(a: seq<Interval>, b: seq<Interval>)
    requires Canonical(a) && Canonical(b)
    requires forall x :: Covers(a, x) <==> Covers(b, x)
    ensures a == b
  {
    if a == [] {
      if b != [] { FirstPoint(b, a); }
    } else {
      FirstPoint(a, b);
      FirstPoint(b, a);
      if a[0].second < b[0].second { EndsDiffer(b, a); }
      if b[0].second < a[0].second { EndsDiffer(a, b); }
      forall x ensures Covers(a[1..], x) <==> Covers(b[1..], x) {
        CoversTail(a, x);
        CoversTail(b, x);
      }
      UniqueForm(a[1..], b[1..]);
      assert a == [a[0]] + a[1..] && b == [b[0]] + b[1..];
    }
  }

  // ---------- the simple form ----------

  /** Union by one walk over the list: pass what ends before, absorb what touches, stop at a gap. */
  function Union(s: seq<Interval>, added: Interval): seq<Interval> {
    if s == [] then [added]
    else if s[0].second < added.first then [s[0]] + Union(s[1..], added)
    else if added.second < s[0].first then [added] + s
    else Union(s[1..], Interval(Min(s[0].first, added.first), Max(s[0].second, added.second)))
  }

  lemma {:induction false} UnionCovers(s: seq<Interval>, added: Interval, x: real)
    requires IsValid(added) && forall i :: 0 <= i < |s| ==> IsValid(s[i])
    ensures Covers(Union(s, added), x) <==> Covers(s, x) || In(added, x)
    decreases |s|
  {
    CoversOne(added, x);
    if s != [] {
      var tail := s[1..];
      assert s == [s[0]] + tail;
      CoversConcat([s[0]], tail, x);
      CoversOne(s[0], x);
      if s[0].second < added.first {
        UnionCovers(tail, added, x);
        CoversConcat([s[0]], Union(tail, added), x);
      } else if added.second < s[0].first {
        CoversConcat([added], s, x);
      } else {
        UnionCovers(tail, Interval(Min(s[0].first, added.first), Max(s[0].second, added.second)), x);
      }
    }
  }

  lemma {:induction false} UnionIsCanonical(s: seq<Interval>, added: Interval)
    requires Canonical(s) && IsValid(added)
    ensures Canonical(Union(s, added))
    ensures forall k :: 0 <= k < |Union(s, added)| ==>
              Min(if s == [] then added.first else s[0].first, added.first) <= Union(s, added)[k].first
    decreases |s|
  {
    if s != [] {
      if s[0].second < added.first {
        UnionIsCanonical(s[1..], added);
      } else if added.second >= s[0].first {
        UnionIsCanonical(s[1..], Interval(Min(s[0].first, added.first), Max(s[0].second, added.second)));
      }
    }
  }

  lemma UnionIsExact(s: seq<Interval>, added: Interval)
    requires Canonical(s) && IsValid(added)
    ensures Canonical(Union(s, added))
    ensures forall x :: Covers(Union(s, added), x) <==> Covers(s, x) || In(added, x)
  {
    UnionIsCanonical(s, added);
    forall x ensures Covers(Union(s, added), x) <==> Covers(s, x) || In(added, x) { UnionCovers(s, added, x); }
  }

  /** Whatever is canonical and covers the right points is the union. */
  lemma IsTheUnion(s: seq<Interval>, added: Interval, r: seq<Interval>)
    requires Canonical(s) && IsValid(added) && Canonical(r)
    requires forall x :: Covers(r, x) <==> Covers(s, x) || In(added, x)
    ensures r == Union(s, added)
  {
    UnionIsExact(s, added);
    UniqueForm(r, Union(s, added));
  }

  /** What the source merges: the touching intervals, unless the first contains the new one. */
  ghost predicate KeepsPoints(s: seq<Interval>, added: Interval) {
    forall i: nat, j: nat :: Touching(s, i, j, added) && !IntervalContains(s[i], added) ==> MergeReaches(s, i, j, added)
  }

  lemma OrderedKeepsPoints(s: seq<Interval>, added: Interval)
    requires Ordered(s)
    ensures KeepsPoints(s, added)
  {
    forall i: nat, j: nat | Touching(s, i, j, added) ensures MergeReaches(s, i, j, added) {
      var k :| 0 <= k < |s[i..j]| && s[i..j][k].second == TopEnd(s[i..j]);
      assert s[i..j][k] == s[i + k] && s[i + k].second <= s[j - 1].second;
    }
  }

  lemma TouchingIsUnique(s: seq<Interval>, i: nat, j: nat, k: nat, m: nat, added: Interval)
    requires Touching(s, i, j, added) && Touching(s, k, m, added)
    ensures i == k && j == m
  {
    assert added.first <= s[i].second && added.first <= s[k].second;
    assert (j < |s| ==> added.second < s[j].first) && (m < |s| ==> added.second < s[m].first);
  }

  /** The merged list is another one: it is shorter, or its span is wider. */
  lemma MergedDiffers(s: seq<Interval>, i: nat, j: nat, added: Interval)
    requires i < j <= |s| && !IntervalContains(s[i], added)
    ensures Merged(s, i, j, added) != s
  {
    if j == i + 1 { assert Merged(s, i, j, added)[i] != s[i]; }
  }

  /**
   * On every valid list that can be searched for the new start: the result is valid, the report says whether
   * the list changed, and no point is gained. Points are kept under an exact condition on the list, which holds
   * whenever the ends are in order. On a canonical list it is the simple union.
   */
  method UnionIntervals(s: seq<Interval>, added: Interval) returns (r: seq<Interval>, changed: bool)
    requires AreValidIntervals(s) && IsValid(added) && Partitioned(s, added.first)
    ensures AreValidIntervals(r) && (changed <==> r != s)
    ensures forall x :: Covers(r, x) ==> Covers(s, x) || In(added, x)
    ensures (forall x :: Covers(r, x) <==> Covers(s, x) || In(added, x)) <==> KeepsPoints(s, added)
    ensures Ordered(s) ==> Ordered(r) && forall x :: Covers(r, x) <==> Covers(s, x) || In(added, x)
    ensures Canonical(s) ==> Canonical(r) && r == Union(s, added)
  {
    ValidStarts(s);
    if Ordered(s) { OrderedKeepsPoints(s, added); }
    var i := LowerBound(s, added.first);
    if i == |s| || added.second < s[i].first {
      r, changed := Inserted(s, i, added), true;
      InsertedCovers(s, i, added);
      InsertedIsValid(s, i, added);
      if Ordered(s) { InsertedIsOrdered(s, i, added); }
      if Canonical(s) { InsertedIsCanonical(s, i, added); }
      NothingTouches(s, i, added);
    } else if s[i].first <= added.first && added.second <= s[i].second {
      r, changed := s, false;
      assert forall x :: In(added, x) ==> In(s[i], x);
      ContainedKeeps(s, i, added);
    } else {
      var j := UpperBound(s, i, added.second);
      r, changed := MergeAt(s, i, j, added);
    }
    if Canonical(s) { IsTheUnion(s, added, r); }
  }

  lemma NothingTouches(s: seq<Interval>, i: nat, added: Interval)
    requires Fits(s, i, added)
    ensures KeepsPoints(s, added)
  {
    forall k: nat, m: nat ensures !Touching(s, k, m, added) {
      if k < m <= |s| { assert s[k].second < added.first || added.second < s[k].first; }
    }
  }

  lemma ContainedKeeps(s: seq<Interval>, i: nat, added: Interval)
    requires i < |s| && IntervalContains(s[i], added) && IsValid(added)
    requires forall k :: 0 <= k < i ==> s[k].second < added.first
    ensures KeepsPoints(s, added)
  {
    forall k: nat, m: nat | Touching(s, k, m, added) ensures k == i {
      assert added.first <= s[k].second && added.first <= s[i].second;
    }
  }

  /** The update of the first touching interval and the removal of the others. */
  method MergeAt(s: seq<Interval>, i: nat, j: nat, added: Interval) returns (r: seq<Interval>, changed: bool)
    requires AreValidIntervals(s) && IsValid(added) && Touching(s, i, j, added) && !IntervalContains(s[i], added)
    ensures AreValidIntervals(r) && changed && r != s
    ensures forall x :: Covers(r, x) ==> Covers(s, x) || In(added, x)
    ensures (forall x :: Covers(r, x) <==> Covers(s, x) || In(added, x)) <==> KeepsPoints(s, added)
    ensures Ordered(s) ==> Ordered(r)
    ensures Canonical(s) ==> Canonical(r)
  {
    r, changed := Merged(s, i, j, added), true;
    MergedDiffers(s, i, j, added);
    MergedIsValid(s, i, j, added);
    if Ordered(s) { MergedIsOrdered(s, i, j, added); }
    if Canonical(s) { MergedIsCanonical(s, i, j, added); }
    MergeCondition(s, i, j, added);
    forall x ensures Covers(r, x) ==> Covers(s, x) || In(added, x) {
      ValidStarts(s);
      MergedCovers(s, i, j, added, x);
    }
    forall k: nat, m: nat | Touching(s, k, m, added) ensures k == i && m == j {
      TouchingIsUnique(s, i, j, k, m, added);
    }
  }

  const NESTED := [Interval(0.0, 10.0), Interval(1.0, 2.0)]

  lemma NestedMerge()
    ensures var added := Interval(-1.0, 1.0);
            Touching(NESTED, 0, 2, added) && Covers(NESTED, 5.0) && !Covers(Merged(NESTED, 0, 2, added), 5.0)
  {
    assert In(NESTED[0], 5.0);
    assert Merged(NESTED, 0, 2, Interval(-1.0, 1.0)) == [Interval(-1.0, 2.0)];
  }

  /** A valid list whose ends are not in order: the span stops at the last end, and points behind it are lost. */
  lemma NestedLoses()
    ensures var added := Interval(-1.0, 1.0);
            && AreValidIntervals(NESTED) && Partitioned(NESTED, added.first) && !KeepsPoints(NESTED, added)
            && Touching(NESTED, 0, 2, added) && Covers(NESTED, 5.0) && !Covers(Merged(NESTED, 0, 2, added), 5.0)
  {
    var added := Interval(-1.0, 1.0);
    NestedMerge();
    MergeCondition(NESTED, 0, 2, added);
    assert !MergeReaches(NESTED, 0, 2, added) && !IntervalContains(NESTED[0], added);
  }

  /** A change means the new interval had a point the list did not cover. */
  lemma ChangeAddsPoints(s: seq<Interval>, added: Interval)
    requires Canonical(s) && IsValid(added)
    ensures Union(s, added) != s <==> exists x :: In(added, x) && !Covers(s, x)
  {
    UnionIsExact(s, added);
    if forall x :: In(added, x) ==> Covers(s, x) { UniqueForm(Union(s, added), s); }
  }

  // ---------- lookup ----------

  /** The interval the search ends at contains the query. */
  ghost predicate Found(s: seq<Interval>, query: Interval) {
    exists i :: 0 <= i < |s| && FirstEndingAt(s, query.first, i) && IntervalContains(s[i], query)
  }

  predicate FirstEndingAt(s: seq<Interval>, x: real, i: nat) {
    i < |s| && x <= s[i].second && forall k :: 0 <= k < i ==> s[k].second < x
  }

  ghost predicate Covered(s: seq<Interval>, query: Interval) { forall x :: In(query, x) ==> Covers(s, x) }

  /** Neighbours have a gap between them, or end together. */
  predicate Separate(s: seq<Interval>) {
    forall i :: 0 < i < |s| ==> s[i - 1].second < s[i].first || s[i - 1].second == s[i].second
  }

  /**
   * On every valid list that can be searched for the query's start: what is found is covered. What is covered is
   * found if neighbours are separate, as in every canonical list.
   */
  method IntervalsContain(s: seq<Interval>, query: Interval) returns (r: bool)
    requires AreValidIntervals(s) && IsValid(query) && Partitioned(s, query.first)
    ensures r <==> Found(s, query)
    ensures r ==> Covered(s, query)
    ensures (Ordered(s) && Separate(s)) || Canonical(s) ==> (r <==> Covered(s, query))
  {
    var i := LowerBound(s, query.first);
    if i == |s| {
      assert In(query, query.first) && !Covers(s, query.first);
      return false;
    }
    r := IntervalContains(s[i], query);
    assert FirstEndingAt(s, query.first, i);
    if r {
      forall x | In(query, x) ensures Covers(s, x) { assert In(s[i], x); }
    } else if (Ordered(s) && Separate(s)) || Canonical(s) {
      NotContained(s, i, query);
    }
  }

  /** Just behind the end of a separate interval there is a point that is not covered. */
  lemma PointBehind(s: seq<Interval>, i: nat, bound: real) returns (x: real)
    requires Ordered(s) && Separate(s) && i < |s| && s[i].second < bound
    ensures s[i].second < x <= bound && !Covers(s, x)
  {
    var j := i + 1;
    while j < |s| && s[j].second == s[i].second
      invariant i < j <= |s| && forall k :: i <= k < j ==> s[k].second == s[i].second
    {
      j := j + 1;
    }
    x := if j == |s| then bound else (s[i].second + Min(s[j].first, bound)) / 2.0;
    if j < |s| { assert s[j - 1].second < s[j].first; }
    forall k | 0 <= k < |s| ensures !In(s[k], x) {
      if k < i { assert s[k].second <= s[i].second; }
      if j < k { assert s[j].first <= s[k].first; }
    }
  }

  lemma NotContained(s: seq<Interval>, i: nat, query: Interval)
    requires Ordered(s) && Separate(s) && IsValid(query) && FirstEndingAt(s, query.first, i)
    requires !IntervalContains(s[i], query)
    ensures exists x :: In(query, x) && !Covers(s, x)
  {
    if query.first < s[i].first {
      assert In(query, query.first) && !Covers(s, query.first);
    } else {
      var x := PointBehind(s, i, query.second);
      assert In(query, x) && !Covers(s, x);
    }
  }

  lemma FoundIsCovered(s: seq<Interval>, query: Interval)
    requires Ordered(s) && Separate(s) && IsValid(query)
    ensures Found(s, query) <==> Covered(s, query)
  {
    if Found(s, query) {
      var i :| 0 <= i < |s| && FirstEndingAt(s, query.first, i) && IntervalContains(s[i], query);
      forall x | In(query, x) ensures Covers(s, x) { assert In(s[i], x); }
    } else if Covered(s, query) {
      assert In(query, query.first);
      var k :| 0 <= k < |s| && In(s[k], query.first);
      var i := FirstEnding(s, query.first, k);
      NotContained(s, i, query);
    }
  }

  lemma {:induction false} FirstEnding(s: seq<Interval>, x: real, k: nat) returns (i: nat)
    requires k < |s| && x <= s[k].second
    ensures FirstEndingAt(s, x, i)
    decreases k
  {
    i := k;
    if j :| 0 <= j < k && x <= s[j].second { i := FirstEnding(s, x, j); }
  }

  /** The condition is exact: lookup answers every query right if and only if neighbours are separate. */
  lemma LookupCondition(s: seq<Interval>)
    requires Ordered(s)
    ensures (forall query :: IsValid(query) ==> (Found(s, query) <==> Covered(s, query))) <==> Separate(s)
  {
    if Separate(s) {
      forall query | IsValid(query) ensures Found(s, query) <==> Covered(s, query) { FoundIsCovered(s, query); }
    } else {
      var i :| 0 < i < |s| && s[i].first <= s[i - 1].second && s[i - 1].second != s[i].second;
      var query := Interval(s[i - 1].second, s[i].second);
      forall x | In(query, x) ensures Covers(s, x) { assert In(s[i], x); }
      assert Covered(s, query) && IsValid(query);
      forall k | 0 <= k < |s| && FirstEndingAt(s, query.first, k) ensures !IntervalContains(s[k], query) {
        assert k <= i - 1;
      }
    }
  }

  /** Two intervals that touch cover their union together, and neither is found to contain it. */
  lemma TouchingMissed()
    ensures var s, query := [Interval(0.0, 1.0), Interval(1.0, 2.0)], Interval(0.0, 2.0);
            Ordered(s) && Covered(s, query) && !Found(s, query)
  {
    var s, query := [Interval(0.0, 1.0), Interval(1.0, 2.0)], Interval(0.0, 2.0);
    forall x | In(query, x) ensures Covers(s, x) { assert In(s[if x <= 1.0 then 0 else 1], x); }
  }

  // ---------- any sequence of unions ----------

  function UnionAll(added: seq<Interval>): seq<Interval> {
    if added == [] then [] else Union(UnionAll(added[..|added| - 1]), added[|added| - 1])
  }

  /** The list built from empty denotes exactly the points of everything added. */
  lemma {:induction false} UnionAllIsExact(added: seq<Interval>)
    requires forall i :: 0 <= i < |added| ==> IsValid(added[i])
    ensures Canonical(UnionAll(added))
    ensures forall x :: Covers(UnionAll(added), x) <==> Covers(added, x)
  {
    if added != [] {
      var before, last := added[..|added| - 1], added[|added| - 1];
      UnionAllIsExact(before);
      UnionIsExact(UnionAll(before), last);
      forall x ensures Covers(added, x) <==> Covers(before, x) || In(last, x) {
        assert added == before + [last];
        CoversConcat(before, [last], x);
        CoversOne(last, x);
      }
    }
  }

  /** Insertion order does not matter: only the points that were added do. */
  lemma OrderDoesNotMatter(a: seq<Interval>, b: seq<Interval>)
    requires forall i :: 0 <= i < |a| ==> IsValid(a[i])
    requires forall i :: 0 <= i < |b| ==> IsValid(b[i])
    requires multiset(a) == multiset(b) || forall x :: Covers(a, x) <==> Covers(b, x)
    ensures UnionAll(a) == UnionAll(b)
  {
    UnionAllIsExact(a);
    UnionAllIsExact(b);
    if multiset(a) == multiset(b) {
      forall x ensures Covers(a, x) <==> Covers(b, x) {
        SamePoints(a, b, x);
        SamePoints(b, a, x);
      }
    }
    UniqueForm(UnionAll(a), UnionAll(b));
  }

  lemma SamePoints(a: seq<Interval>, b: seq<Interval>, x: real)
    requires multiset(a) == multiset(b)
    ensures Covers(a, x) ==> Covers(b, x)
  {
    if Covers(a, x) {
      var i :| 0 <= i < |a| && In(a[i], x);
      assert a[i] in multiset(b);
      var j :| 0 <= j < |b| && b[j] == a[i];
    }
  }

  /** Lookup after any sequence of unions: contained exactly when everything added covers the interval. */
  method ContainsAfter(added: seq<Interval>, query: Interval) returns (r: bool)
    requires IsValid(query) && forall i :: 0 <= i < |added| ==> IsValid(added[i])
    ensures r <==> forall x :: In(query, x) ==> Covers(added, x)
  {
    var s: seq<Interval> := [];
    var i := 0;
    while i < |added|
      invariant 0 <= i <= |added| && Canonical(s) && s == UnionAll(added[..i])
    {
      assert added[..i + 1][..i] == added[..i];
      var changed;
      s, changed := UnionIntervals(s, added[i]);
      i := i + 1;
    }
    assert added[..|added|] == added;
    UnionAllIsExact(added);
    r := IntervalsContain(s, query);
  }
}
