/** Per-day bucketing as the views do it with a defaultdict: for each item,
    add its weight (a volume, or 1 to count it) to the bucket of its day.
    Days are day numbers, so ISO date strings compared with >= are compared
    here as numbers. */
module Buckets {

  /** The bucket of day d: the weights of the items that fall on d. */
  function DaySum<T>(s: seq<T>, day: T -> int, w: T -> int, d: int): int
  {
    if |s| == 0 then 0
    else DaySum(s[..|s| - 1], day, w, d) + (if day(s[|s| - 1]) == d then w(s[|s| - 1]) else 0)
  }

  /** The weights of the items whose day lies in [start, start + n). */
  function InRangeSum<T>(s: seq<T>, day: T -> int, w: T -> int, start: int, n: nat): int
  {
    if |s| == 0 then 0
    else InRangeSum(s[..|s| - 1], day, w, start, n)
         + (if start <= day(s[|s| - 1]) < start + n then w(s[|s| - 1]) else 0)
  }

  /** The buckets of the n consecutive days from start, added up. */
  function RangeSum<T>(s: seq<T>, day: T -> int, w: T -> int, start: int, n: nat): int
    decreases n
  {
    if n == 0 then 0 else DaySum(s, day, w, start) + RangeSum(s, day, w, start + 1, n - 1)
  }

  /** sum(xs). */
  function SeqSum(xs: seq<int>): int
  {
    if |xs| == 0 then 0 else xs[0] + SeqSum(xs[1..])
  }

  /** map.get(d, 0). */
  function Get(m: map<int, int>, d: int): int
  {
    if d in m then m[d] else 0
  }

  /** One more item adds its weight to the range total exactly when its
      day is in the range. */
  lemma {:induction false} RangeSumSnoc<T>(s: seq<T>, x: T, day: T -> int, w: T -> int, start: int, n: nat)
    ensures RangeSum(s + [x], day, w, start, n)
         == RangeSum(s, day, w, start, n) + (if start <= day(x) < start + n then w(x) else 0)
    decreases n
  {
    assert (s + [x])[..|s + [x]| - 1] == s;
    if n > 0 {
      RangeSumSnoc(s, x, day, w, start + 1, n - 1);
    }
  }

  /** Adding up the day buckets of a range gives the total of the items in
      the range: bucketing neither loses nor double-counts an item. */
  lemma {:induction false} RangeSumIsInRangeSum<T>(s: seq<T>, day: T -> int, w: T -> int, start: int, n: nat)
    ensures RangeSum(s, day, w, start, n) == InRangeSum(s, day, w, start, n)
    decreases |s|
  {
    if |s| == 0 {
      EmptyRangeSum(day, w, start, n);
    } else {
      var p := s[..|s| - 1];
      assert s == p + [s[|s| - 1]];
      RangeSumIsInRangeSum(p, day, w, start, n);
      RangeSumSnoc(p, s[|s| - 1], day, w, start, n);
    }
  }

  lemma {:induction false} EmptyRangeSum<T>(day: T -> int, w: T -> int, start: int, n: nat)
    ensures RangeSum([], day, w, start, n) == 0
    decreases n
  {
    if n > 0 {
      EmptyRangeSum(day, w, start + 1, n - 1);
    }
  }

  /** A series whose i-th entry is the bucket of day start + i adds up to
      the range total. */
  lemma {:induction false} SeriesSum<T>(xs: seq<int>, s: seq<T>, day: T -> int, w: T -> int, start: int)
    requires forall i :: 0 <= i < |xs| ==> xs[i] == DaySum(s, day, w, start + i)
    ensures SeqSum(xs) == InRangeSum(s, day, w, start, |xs|)
    decreases |xs|
  {
    SeriesSumRange(xs, s, day, w, start);
    RangeSumIsInRangeSum(s, day, w, start, |xs|);
  }

  lemma {:induction false} SeriesSumRange<T>(xs: seq<int>, s: seq<T>, day: T -> int, w: T -> int, start: int)
    requires forall i :: 0 <= i < |xs| ==> xs[i] == DaySum(s, day, w, start + i)
    ensures SeqSum(xs) == RangeSum(s, day, w, start, |xs|)
    decreases |xs|
  {
    if |xs| > 0 {
      assert forall i :: 0 <= i < |xs| - 1 ==> xs[1..][i] == xs[i + 1];
      SeriesSumRange(xs[1..], s, day, w, start + 1);
    }
  }

  /** [m.get(start + i, 0) for i in range(n)]. */
  method Series(m: map<int, int>, start: int, n: int) returns (vals: seq<int>)
    ensures |vals| == (if n > 0 then n else 0)
    ensures forall i :: 0 <= i < |vals| ==> vals[i] == Get(m, start + i)
  {
    vals := [];
    var i := 0;
    while i < n
      invariant 0 <= i && (n > 0 ==> i <= n) && (n <= 0 ==> i == 0)
      invariant |vals| == i
      invariant forall j :: 0 <= j < i ==> vals[j] == Get(m, start + j)
    {
      vals := vals + [Get(m, start + i)];
      i := i + 1;
    }
  }
}
