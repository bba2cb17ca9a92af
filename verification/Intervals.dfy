/** Half-open time ranges: the SQL overlap test, and how many of them fit into a window. */
module Intervals {
  import opened Basics

  predicate Covers(start: Time, end: Time, t: Time) {
    start <= t < end
  }

  /** Postgres' `tstzrange(s1, e1, '[)') && tstzrange(s2, e2, '[)')`: the common part is not empty. */
  predicate RangesMeet(s1: Time, e1: Time, s2: Time, e2: Time) {
    (if s1 <= s2 then s2 else s1) < (if e1 <= e2 then e1 else e2)
  }

  /** The test of the conflict query, `NOT ($3 <= start_time OR $2 >= end_time)`. */
  predicate SqlOverlap(start: Time, end: Time, rowStart: Time, rowEnd: Time) {
    !(end <= rowStart || start >= rowEnd)
  }

  /** Three ways to say that two bookings need the spot at the same instant. */
  lemma SqlOverlapIsRangeOverlap(start: Time, end: Time, rowStart: Time, rowEnd: Time)
    requires start < end && rowStart < rowEnd
    ensures SqlOverlap(start, end, rowStart, rowEnd) <==> RangesMeet(start, end, rowStart, rowEnd)
    ensures RangesMeet(start, end, rowStart, rowEnd)
        <==> exists t :: Covers(start, end, t) && Covers(rowStart, rowEnd, t)
  {
    if SqlOverlap(start, end, rowStart, rowEnd) {
      var t := if start <= rowStart then rowStart else start;
      assert Covers(start, end, t) && Covers(rowStart, rowEnd, t);
    }
  }

  /** On an empty range the two tests part: the guard `end > start` of the validator is what makes them agree. */
  lemma EmptyRangeSplitsTheTests(at: Time, rowStart: Time, rowEnd: Time)
    requires rowStart < rowEnd
    ensures !RangesMeet(at, at, rowStart, rowEnd)
    ensures SqlOverlap(at, at, rowStart, rowEnd) <==> rowStart < at < rowEnd
  {
  }

  datatype Interval = Interval(start: Time, end: Time)

  ghost predicate PairwiseDisjoint<K>(ranges: map<K, Interval>) {
    forall i, j | i in ranges && j in ranges && i != j ::
      !RangesMeet(ranges[i].start, ranges[i].end, ranges[j].start, ranges[j].end)
  }

  ghost predicate Within<K>(ranges: map<K, Interval>, keys: set<K>, a: Time, b: Time)
    requires keys <= ranges.Keys
  {
    forall k | k in keys :: a <= ranges[k].start < ranges[k].end <= b
  }

  /** Added length of the ranges named by `keys`. */
  ghost function TotalLength<K>(ranges: map<K, Interval>, keys: set<K>): int
    requires keys <= ranges.Keys
    decreases |keys|
  {
    if keys == {} then 0 else
      var k :| k in keys;
      ranges[k].end - ranges[k].start + TotalLength(ranges, keys - {k})
  }

  /** The total does not depend on the order in which the keys are taken. */
  lemma {:induction false} TotalLengthWithout<K>(ranges: map<K, Interval>, keys: set<K>, k: K)
    requires keys <= ranges.Keys && k in keys
    ensures TotalLength(ranges, keys) == ranges[k].end - ranges[k].start + TotalLength(ranges, keys - {k})
    decreases |keys|
  {
    var first :| first in keys &&
      TotalLength(ranges, keys) == ranges[first].end - ranges[first].start + TotalLength(ranges, keys - {first});
    if first != k {
      TotalLengthWithout(ranges, keys - {first}, k);
      TotalLengthWithout(ranges, keys - {k}, first);
      assert keys - {first} - {k} == keys - {k} - {first};
    }
  }

  ghost predicate StartsLast<K>(ranges: map<K, Interval>, keys: set<K>, k: K)
    requires keys <= ranges.Keys
  {
    k in keys && forall j | j in keys :: ranges[j].start <= ranges[k].start
  }

  lemma {:induction false} LastStartExists<K>(ranges: map<K, Interval>, keys: set<K>)
    requires |keys| > 0 && keys <= ranges.Keys
    ensures exists k :: StartsLast(ranges, keys, k)
    decreases |keys|
  {
    var a :| a in keys;
    var rest := keys - {a};
    var k := a;
    if |rest| > 0 {
      LastStartExists(ranges, rest);
      var m :| StartsLast(ranges, rest, m);
      k := if ranges[a].start <= ranges[m].start then m else a;
    }
    forall j | j in keys ensures ranges[j].start <= ranges[k].start {
      assert j == a || j in rest;
    }
    assert StartsLast(ranges, keys, k);
  }

  /** Packing: pairwise disjoint ranges inside [a, b) cannot be longer than the window together. */
  lemma {:induction false} DisjointRangesFit<K>(ranges: map<K, Interval>, keys: set<K>, a: Time, b: Time)
    requires keys <= ranges.Keys && PairwiseDisjoint(ranges)
    requires a <= b && Within(ranges, keys, a, b)
    ensures TotalLength(ranges, keys) <= b - a
    decreases |keys|
  {
    if keys != {} {
      LastStartExists(ranges, keys);
      var k :| StartsLast(ranges, keys, k);
      var rest := keys - {k};
      forall j | j in rest
        ensures ranges[j].end <= ranges[k].start
      {
        SqlOverlapIsRangeOverlap(ranges[j].start, ranges[j].end, ranges[k].start, ranges[k].end);
      }
      DisjointRangesFit(ranges, rest, a, ranges[k].start);
      TotalLengthWithout(ranges, keys, k);
    }
  }
}
