/** Order statistics of a buffer of market caps: the quantile over its positive members
    and the count of members in a band. Both depend on the multiset of values only. */
module OrderStatistics {

  /** math.Round: half away from zero. */
  function RoundHalfAway(x: real): int {
    if 0.0 <= x then (x + 0.5).Floor else -((-x + 0.5).Floor)
  }

  function Keep(values: seq<real>, p: real -> bool): seq<real> {
    if values == [] then []
    else
      var n := |values| - 1;
      Keep(values[..n], p) + (if p(values[n]) then [values[n]] else [])
  }

  predicate Positive(x: real) {
    0.0 < x
  }

  predicate Ascending(s: seq<real>) {
    forall i, j :: 0 <= i < j < |s| ==> s[i] <= s[j]
  }

  lemma BoundedByMembers(t: seq<real>, u: seq<real>, y: real)
    requires forall x :: x in multiset(t) ==> x <= y || x in multiset(u)
    requires forall i :: 0 <= i < |u| ==> u[i] <= y
    ensures forall i :: 0 <= i < |t| ==> t[i] <= y
  {
    forall i | 0 <= i < |t| ensures t[i] <= y {
      assert t[i] in multiset(t);
      if t[i] in multiset(u) { assert t[i] in u; }
    }
  }

  lemma AscendingSnoc(s: seq<real>, y: real)
    requires Ascending(s) && forall i :: 0 <= i < |s| ==> s[i] <= y
    ensures Ascending(s + [y])
  {
  }

  lemma InsertMembers(init: seq<real>, last: real, x: real, t: seq<real>)
    requires multiset(t) == multiset(init) + multiset{x}
    ensures multiset(t + [last]) == multiset(init + [last]) + multiset{x}
  {
  }

  function Insert(x: real, s: seq<real>): (r: seq<real>)
    requires Ascending(s)
    ensures Ascending(r) && multiset(r) == multiset(s) + multiset{x}
  {
    if s == [] then [x]
    else
      var n := |s| - 1;
      if s[n] <= x then
        AscendingSnoc(s, x);
        s + [x]
      else
        var init := s[..n];
        var t := Insert(x, init);
        BoundedByMembers(t, init, s[n]);
        AscendingSnoc(t, s[n]);
        InsertMembers(init, s[n], x, t);
        assert s == init + [s[n]];
        t + [s[n]]
  }

  /** sort.Float64s on finite values. */
  function Sorted(s: seq<real>): (r: seq<real>)
    ensures Ascending(r) && multiset(r) == multiset(s) && |r| == |s|
  {
    if s == [] then []
    else
      var n := |s| - 1;
      assert s == s[..n] + [s[n]];
      var r := Insert(s[n], Sorted(s[..n]));
      assert |multiset(r)| == |r|;
      r
  }

  /** The index quantileNonZero reads in n sorted values, without its two clamps. */
  function QuantileIndex(q: real, n: nat): int
    requires 0 < n
  {
    RoundHalfAway(q * (n - 1) as real)
  }

  /** Rounding is to a nearest integer; halves go away from zero on either side. */
  lemma RoundsHalfAway(x: real, k: nat)
    ensures -0.5 <= RoundHalfAway(x) as real - x <= 0.5
    ensures RoundHalfAway(-x) == -RoundHalfAway(x)
    ensures RoundHalfAway(k as real + 0.5) == k + 1
  {
    var a := if 0.0 <= x then x else -x;
    assert (a + 0.5).Floor as real <= a + 0.5 < (a + 0.5).Floor as real + 1.0;
    if x == 0.0 { assert (-x + 0.5).Floor == 0; }
  }

  /** The index is the position q of the way from the first value to the last, rounded. */
  lemma IndexNearPosition(q: real, n: nat)
    requires 0 < n
    ensures -0.5 <= QuantileIndex(q, n) as real - q * (n - 1) as real <= 0.5
  {
    RoundsHalfAway(q * (n - 1) as real, 0);
  }

  /** Neither clamp of the index can be reached once q is clamped to [0, 1]. */
  lemma QuantileIndexInRange(q: real, n: nat)
    requires 0.0 <= q <= 1.0 && 0 < n
    ensures 0 <= QuantileIndex(q, n) < n
  {
    var top := (n - 1) as real;
    assert 0.0 <= q * top <= top;
  }

  function Clamp01(q: real): real {
    if q < 0.0 then 0.0 else if 1.0 < q then 1.0 else q
  }

  /** The quantile of the positive members; 0 when there is none. */
  function Quantile(values: seq<real>, q: real): real {
    var s := Sorted(Keep(values, Positive));
    if s == [] then 0.0
    else
      QuantileIndexInRange(Clamp01(q), |s|);
      s[QuantileIndex(Clamp01(q), |s|)]
  }

  predicate InBand(x: real, support: real) {
    0.0 < x && support <= x <= support + support * 0.03
  }

  /** How many members lie at most 3% above the support level. */
  function BandCount(values: seq<real>, support: real): nat {
    |Keep(values, x => InBand(x, support))|
  }

  // ----- what Keep keeps -----

  lemma CountSnoc(values: seq<real>, v: real, x: real)
    ensures multiset(values + [v])[x] == multiset(values)[x] + if x == v then 1 else 0
  {
  }

  lemma {:induction false} KeepCounts(values: seq<real>, p: real -> bool, x: real)
    ensures multiset(Keep(values, p))[x] == if p(x) then multiset(values)[x] else 0
  {
    if values != [] {
      var n := |values| - 1;
      var rest, v := values[..n], values[n];
      KeepCounts(rest, p, x);
      CountSnoc(rest, v, x);
      CountSnoc(Keep(rest, p), v, x);
      assert values == rest + [v];
    }
  }

  lemma KeepByMultiset(a: seq<real>, b: seq<real>, p: real -> bool)
    requires multiset(Keep(a, Positive)) == multiset(Keep(b, Positive))
    requires forall x :: p(x) ==> Positive(x)
    ensures multiset(Keep(a, p)) == multiset(Keep(b, p))
    ensures |Keep(a, p)| == |Keep(b, p)|
  {
    forall x ensures multiset(Keep(a, p))[x] == multiset(Keep(b, p))[x] {
      KeepCounts(a, p, x);
      KeepCounts(b, p, x);
      KeepCounts(a, Positive, x);
      KeepCounts(b, Positive, x);
    }
    assert |multiset(Keep(a, p))| == |Keep(a, p)| && |multiset(Keep(b, p))| == |Keep(b, p)|;
  }

  lemma {:induction false} KeepOfConcat(a: seq<real>, b: seq<real>, p: real -> bool)
    ensures Keep(a + b, p) == Keep(a, p) + Keep(b, p)
  {
    if b == [] {
      assert a + b == a;
    } else {
      var n := |b| - 1;
      assert (a + b)[..|a| + n] == a + b[..n];
      KeepOfConcat(a, b[..n], p);
    }
  }

  lemma {:induction false} KeepAll(values: seq<real>, p: real -> bool)
    requires forall i :: 0 <= i < |values| ==> p(values[i])
    ensures Keep(values, p) == values
  {
    if values != [] {
      var n := |values| - 1;
      var rest := values[..n];
      assert forall i :: 0 <= i < n ==> rest[i] == values[i];
      KeepAll(rest, p);
      assert values == rest + [values[n]];
    }
  }

  lemma {:induction false} KeepBounds(values: seq<real>, p: real -> bool)
    ensures |Keep(values, p)| <= |values|
    ensures |Keep(values, p)| == |values| ==> forall x :: x in values ==> p(x)
    ensures forall x :: x in Keep(values, p) <==> x in values && p(x)
  {
    if values != [] {
      var n := |values| - 1;
      KeepBounds(values[..n], p);
      assert values == values[..n] + [values[n]];
    }
  }

  // ----- sorted sequences -----

  lemma LastIsLargest(a: seq<real>, x: real)
    requires Ascending(a) && x in multiset(a)
    ensures x <= a[|a| - 1]
  {
    var i :| 0 <= i < |a| && a[i] == x;
  }

  lemma CancelLast(a: seq<real>, b: seq<real>, x: real)
    requires multiset(a + [x]) == multiset(b + [x])
    ensures multiset(a) == multiset(b)
  {
    assert multiset(a) == multiset(a + [x]) - multiset{x};
    assert multiset(b) == multiset(b + [x]) - multiset{x};
  }

  lemma LastsAgree(a: seq<real>, b: seq<real>)
    requires Ascending(a) && Ascending(b) && multiset(a) == multiset(b)
    ensures |a| == |b|
    ensures a != [] ==> a[|a| - 1] == b[|b| - 1]
  {
    assert |multiset(a)| == |a| && |multiset(b)| == |b|;
    if a != [] {
      var x, y := a[|a| - 1], b[|b| - 1];
      assert x in multiset(a) && y in multiset(b);
      LastIsLargest(a, y);
      LastIsLargest(b, x);
    }
  }

  lemma {:induction false} SortedUnique(a: seq<real>, b: seq<real>)
    requires Ascending(a) && Ascending(b) && multiset(a) == multiset(b)
    ensures a == b
    decreases |a|
  {
    LastsAgree(a, b);
    if a != [] {
      var n := |a| - 1;
      var a', b' := a[..n], b[..n];
      assert a == a' + [a[n]] && b == b' + [a[n]];
      CancelLast(a', b', a[n]);
      SortedUnique(a', b');
    }
  }

  /** The support level and the band count do not see the rotation of the ring, nor its
      empty slots. */
  lemma StatisticsByMultiset(a: seq<real>, b: seq<real>, q: real, support: real)
    requires multiset(Keep(a, Positive)) == multiset(Keep(b, Positive))
    ensures Quantile(a, q) == Quantile(b, q)
    ensures BandCount(a, support) == BandCount(b, support)
  {
    SortedUnique(Sorted(Keep(a, Positive)), Sorted(Keep(b, Positive)));
    KeepByMultiset(a, b, x => InBand(x, support));
  }

  lemma {:induction false} CountAtLeast(s: seq<real>, part: seq<real>, rest: seq<real>, p: real -> bool)
    requires multiset(s) == multiset(part) + multiset(rest)
    requires forall i :: 0 <= i < |part| ==> p(part[i])
    ensures |part| <= |Keep(s, p)|
  {
    KeepAll(part, p);
    KeepOfConcat(part, rest, p);
    forall x ensures multiset(Keep(s, p))[x] == multiset(Keep(part + rest, p))[x] {
      KeepCounts(s, p, x);
      KeepCounts(part + rest, p, x);
    }
    assert multiset(Keep(s, p)) == multiset(Keep(part + rest, p));
    assert |multiset(Keep(s, p))| == |Keep(s, p)|;
    assert |multiset(Keep(part + rest, p))| == |Keep(part + rest, p)|;
  }

  lemma RankOfMember(kept: seq<real>, s: seq<real>, k: nat)
    requires Ascending(s) && multiset(s) == multiset(kept) && k < |s|
    ensures k + 1 <= |Keep(kept, x => x <= s[k])|
    ensures |s| - k <= |Keep(kept, x => s[k] <= x)|
  {
    var v := s[k];
    var low, high := s[..k + 1], s[k + 1..];
    assert s == low + high;
    CountAtLeast(kept, low, high, x => x <= v);
    var below, above := s[..k], s[k..];
    assert s == below + above;
    CountAtLeast(kept, above, below, x => v <= x);
  }

  /** The quantile is a true order statistic of the positive members: it is 0 exactly
      when there is none, and otherwise, at index k of n, at least k + 1 of them are not
      above it and at least n - k are not below it. */
  lemma QuantileIsOrderStatistic(values: seq<real>, q: real)
    ensures Quantile(values, q) == 0.0 <==> forall x :: x in values ==> x <= 0.0
    ensures Quantile(values, q) != 0.0 ==>
              var kept := Keep(values, Positive);
              var v := Quantile(values, q);
              && 0.0 < v && v in values && kept != []
              && var k := QuantileIndex(Clamp01(q), |kept|);
              && 0 <= k < |kept|
              && k + 1 <= |Keep(kept, x => x <= v)|
              && |kept| - k <= |Keep(kept, x => v <= x)|
  {
    var kept := Keep(values, Positive);
    var s := Sorted(kept);
    KeepBounds(values, Positive);
    if s == [] {
      forall x | x in values ensures x <= 0.0 {
        assert x !in kept;
      }
    } else {
      QuantileIndexInRange(Clamp01(q), |s|);
      var k := QuantileIndex(Clamp01(q), |s|);
      assert s[k] in multiset(s);
      assert s[k] in kept;
      RankOfMember(kept, s, k);
    }
  }

  /** How many of the values are not above v, and how many not below it. */
  function NotAbove(values: seq<real>, v: real): nat {
    |Keep(values, x => x <= v)|
  }

  function NotBelow(values: seq<real>, v: real): nat {
    |Keep(values, x => v <= x)|
  }

  /** Of n values at least q * (n - 1) + 1/2 are counted as not above, and at least
      (1 - q) * (n - 1) + 1/2 as not below. */
  predicate Ranked(q: real, n: nat, notAbove: nat, notBelow: nat) {
    && q * (n - 1) as real + 0.5 <= notAbove as real
    && (1.0 - q) * (n - 1) as real + 0.5 <= notBelow as real
  }

  lemma IndexRanks(q: real, n: nat, notAbove: nat, notBelow: nat)
    requires 0 < n && QuantileIndex(q, n) + 1 <= notAbove && n - QuantileIndex(q, n) <= notBelow
    ensures Ranked(q, n, notAbove, notBelow)
  {
    IndexNearPosition(q, n);
    var k, top := QuantileIndex(q, n), (n - 1) as real;
    assert (1.0 - q) * top == top - q * top;
    assert k as real + 1.0 <= notAbove as real && n as real - k as real <= notBelow as real;
  }

  lemma QuantileCounts(values: seq<real>, q: real)
    requires Keep(values, Positive) != []
    ensures var kept := Keep(values, Positive);
            var k := QuantileIndex(Clamp01(q), |kept|);
            k + 1 <= NotAbove(kept, Quantile(values, q)) && |kept| - k <= NotBelow(kept, Quantile(values, q))
  {
    QuantileIsMember(values, q);
    QuantileIsOrderStatistic(values, q);
  }

  /** What rank the quantile has among the positive members, in terms of q alone. */
  lemma QuantileRank(values: seq<real>, q: real)
    requires 0.0 <= q <= 1.0
    ensures var kept := Keep(values, Positive);
            var v := Quantile(values, q);
            if kept == [] then v == 0.0 else v in kept && Ranked(q, |kept|, NotAbove(kept, v), NotBelow(kept, v))
  {
    var kept := Keep(values, Positive);
    if kept != [] {
      var v := Quantile(values, q);
      QuantileIsMember(values, q);
      QuantileCounts(values, q);
      IndexRanks(q, |kept|, NotAbove(kept, v), NotBelow(kept, v));
    }
  }

  lemma QuantileIsMember(values: seq<real>, q: real)
    requires Keep(values, Positive) != []
    ensures Quantile(values, q) in Keep(values, Positive) && 0.0 < Quantile(values, q)
  {
    var kept := Keep(values, Positive);
    var s := Sorted(kept);
    KeepBounds(values, Positive);
    QuantileIndexInRange(Clamp01(q), |s|);
    var k := QuantileIndex(Clamp01(q), |s|);
    assert s[k] in multiset(s);
    assert s[k] in multiset(kept);
  }

  /** A q outside [0, 1] counts as the nearer end: the least or the largest positive member. */
  lemma QuantileEnds(values: seq<real>, q: real)
    requires Keep(values, Positive) != []
    ensures q <= 0.0 ==> forall x :: x in Keep(values, Positive) ==> Quantile(values, q) <= x
    ensures 1.0 <= q ==> forall x :: x in Keep(values, Positive) ==> x <= Quantile(values, q)
  {
    var kept := Keep(values, Positive);
    var s := Sorted(kept);
    EndsOfSorted(kept, s);
    IndexNearPosition(Clamp01(q), |s|);
  }

  lemma EndsOfSorted(kept: seq<real>, s: seq<real>)
    requires Ascending(s) && multiset(s) == multiset(kept) && s != []
    ensures forall x :: x in kept ==> s[0] <= x <= s[|s| - 1]
  {
    forall x | x in kept ensures s[0] <= x <= s[|s| - 1] {
      assert x in multiset(kept);
      assert x in multiset(s);
      var i :| 0 <= i < |s| && s[i] == x;
    }
  }

  /** Where the members that satisfy a predicate stand. */
  function Places(values: seq<real>, p: real -> bool): set<int> {
    set i | 0 <= i < |values| && p(values[i])
  }

  lemma {:induction false} KeepCountsPlaces(values: seq<real>, p: real -> bool)
    ensures |Keep(values, p)| == |Places(values, p)|
  {
    if values == [] {
      assert Places(values, p) == {};
    } else {
      var n := |values| - 1;
      KeepCountsPlaces(values[..n], p);
      assert Places(values, p) == Places(values[..n], p) + if p(values[n]) then {n} else {};
    }
  }

  /** The band count is the number of samples from the support level up to 3% above it. */
  lemma BandCountIsCardinality(values: seq<real>, support: real)
    requires 0.0 < support
    ensures BandCount(values, support)
         == |set i | 0 <= i < |values| && support <= values[i] <= 1.03 * support|
  {
    KeepCountsPlaces(values, x => InBand(x, support));
    assert Places(values, x => InBand(x, support))
        == set i | 0 <= i < |values| && support <= values[i] <= 1.03 * support;
  }

  /** The support level lies in its own band. */
  lemma SupportInBand(values: seq<real>, q: real)
    requires Quantile(values, q) != 0.0
    ensures 1 <= BandCount(values, Quantile(values, q)) <= |values|
  {
    var v := Quantile(values, q);
    QuantileIsOrderStatistic(values, q);
    assert InBand(v, v);
    KeepBounds(values, x => InBand(x, v));
    assert v in Keep(values, x => InBand(x, v));
  }
}
