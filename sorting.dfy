/** Python's sorted(xs, key=k) and sorted(xs, key=k, reverse=True) on an
    integer key (timestamps), max(xs, key=k), and the list comprehensions
    that filter and count. Both sorts are stable, like Python's: items with
    equal keys keep their input order. */
module Sorting {

  ghost predicate SortedAsc<T>(s: seq<T>, key: T -> int)
  {
    forall i, j :: 0 <= i < j < |s| ==> key(s[i]) <= key(s[j])
  }

  ghost predicate SortedDesc<T>(s: seq<T>, key: T -> int)
  {
    forall i, j :: 0 <= i < j < |s| ==> key(s[i]) >= key(s[j])
  }

  /** No two different items share a key. */
  ghost predicate KeyInjective<T>(m: multiset<T>, key: T -> int)
  {
    forall x, y :: x in m && y in m && key(x) == key(y) ==> x == y
  }

  function InsertAsc<T>(x: T, s: seq<T>, key: T -> int): (r: seq<T>)
    requires SortedAsc(s, key)
    ensures SortedAsc(r, key)
    ensures multiset(r) == multiset(s) + multiset{x}
  {
    if |s| == 0 || key(x) <= key(s[0]) then
      PrependBoundAsc(x, s, key);
      [x] + s
    else
      TailSortedAsc(s, key);
      TailMultiset(s);
      var t := InsertAsc(x, s[1..], key);
      HeadBoundsAsc(x, s, t, key);
      ConsSortedAsc(s[0], t, key);
      var r := [s[0]] + t;
      assert multiset(r) == multiset{s[0]} + multiset(t);
      r
  }

  /** The head of a sorted s bounds every item of s[1..] with x added. */
  lemma HeadBoundsAsc<T>(x: T, s: seq<T>, t: seq<T>, key: T -> int)
    requires SortedAsc(s, key) && |s| > 0 && key(s[0]) <= key(x)
    requires multiset(t) == multiset(s[1..]) + multiset{x}
    ensures forall k :: 0 <= k < |t| ==> key(s[0]) <= key(t[k])
  {
    forall k | 0 <= k < |t| ensures key(s[0]) <= key(t[k]) {
      assert t[k] in multiset(t);
      if t[k] != x {
        assert t[k] in multiset(s[1..]);
        var j :| 0 <= j < |s[1..]| && s[1..][j] == t[k];
        assert s[1 + j] == t[k];
      }
    }
  }

  lemma PrependBoundAsc<T>(x: T, s: seq<T>, key: T -> int)
    requires SortedAsc(s, key) && (|s| == 0 || key(x) <= key(s[0]))
    ensures SortedAsc([x] + s, key)
  {
    forall k | 0 <= k < |s| ensures key(x) <= key(s[k]) {
      if k > 0 { assert key(s[0]) <= key(s[k]); }
    }
    ConsSortedAsc(x, s, key);
  }

  lemma ConsSortedAsc<T>(h: T, t: seq<T>, key: T -> int)
    requires SortedAsc(t, key)
    requires forall k :: 0 <= k < |t| ==> key(h) <= key(t[k])
    ensures SortedAsc([h] + t, key)
  {
    var r := [h] + t;
    forall i, j | 0 <= i < j < |r| ensures key(r[i]) <= key(r[j]) {
      assert r[j] == t[j - 1];
      if i > 0 { assert r[i] == t[i - 1]; }
    }
  }

  /** sorted(s, key=key). */
  function SortAsc<T>(s: seq<T>, key: T -> int): (r: seq<T>)
    ensures SortedAsc(r, key)
    ensures multiset(r) == multiset(s)
    ensures |r| == |s|
  {
    if |s| == 0 then []
    else
      assert s == [s[0]] + s[1..];
      InsertAsc(s[0], SortAsc(s[1..], key), key)
  }

  function InsertDesc<T>(x: T, s: seq<T>, key: T -> int): (r: seq<T>)
    requires SortedDesc(s, key)
    ensures SortedDesc(r, key)
    ensures multiset(r) == multiset(s) + multiset{x}
  {
    if |s| == 0 || key(x) >= key(s[0]) then
      PrependBoundDesc(x, s, key);
      [x] + s
    else
      TailSortedDesc(s, key);
      TailMultiset(s);
      var t := InsertDesc(x, s[1..], key);
      HeadBoundsDesc(x, s, t, key);
      ConsSortedDesc(s[0], t, key);
      var r := [s[0]] + t;
      assert multiset(r) == multiset{s[0]} + multiset(t);
      r
  }

  /** The head of a sorted s bounds every item of s[1..] with x added. */
  lemma HeadBoundsDesc<T>(x: T, s: seq<T>, t: seq<T>, key: T -> int)
    requires SortedDesc(s, key) && |s| > 0 && key(s[0]) >= key(x)
    requires multiset(t) == multiset(s[1..]) + multiset{x}
    ensures forall k :: 0 <= k < |t| ==> key(s[0]) >= key(t[k])
  {
    forall k | 0 <= k < |t| ensures key(s[0]) >= key(t[k]) {
      assert t[k] in multiset(t);
      if t[k] != x {
        assert t[k] in multiset(s[1..]);
        var j :| 0 <= j < |s[1..]| && s[1..][j] == t[k];
        assert s[1 + j] == t[k];
      }
    }
  }

  lemma PrependBoundDesc<T>(x: T, s: seq<T>, key: T -> int)
    requires SortedDesc(s, key) && (|s| == 0 || key(x) >= key(s[0]))
    ensures SortedDesc([x] + s, key)
  {
    forall k | 0 <= k < |s| ensures key(x) >= key(s[k]) {
      if k > 0 { assert key(s[0]) >= key(s[k]); }
    }
    ConsSortedDesc(x, s, key);
  }

  lemma ConsSortedDesc<T>(h: T, t: seq<T>, key: T -> int)
    requires SortedDesc(t, key)
    requires forall k :: 0 <= k < |t| ==> key(h) >= key(t[k])
    ensures SortedDesc([h] + t, key)
  {
    var r := [h] + t;
    forall i, j | 0 <= i < j < |r| ensures key(r[i]) >= key(r[j]) {
      assert r[j] == t[j - 1];
      if i > 0 { assert r[i] == t[i - 1]; }
    }
  }

  /** sorted(s, key=key, reverse=True). */
  function SortDesc<T>(s: seq<T>, key: T -> int): (r: seq<T>)
    ensures SortedDesc(r, key)
    ensures multiset(r) == multiset(s)
    ensures |r| == |s|
  {
    if |s| == 0 then []
    else
      assert s == [s[0]] + s[1..];
      InsertDesc(s[0], SortDesc(s[1..], key), key)
  }

  /** max(s, key=key): the position of the first item with the largest key. */
  function ArgMax<T>(s: seq<T>, key: T -> int): (k: nat)
    requires |s| > 0
    ensures k < |s|
    ensures forall j :: 0 <= j < |s| ==> key(s[j]) <= key(s[k])
    ensures forall j :: 0 <= j < k ==> key(s[j]) < key(s[k])
  {
    if |s| == 1 then 0
    else
      var k := 1 + ArgMax(s[1..], key);
      assert forall j :: 1 <= j < |s| ==> s[j] == s[1..][j - 1];
      if key(s[0]) >= key(s[k]) then 0 else k
  }

  /** The first item of the newest-first order is the first item with the
      largest key: sorted(s, reverse=True)[0] and max(s) pick the same one. */
  lemma {:induction false} SortDescHeadIsArgMax<T>(s: seq<T>, key: T -> int)
    requires |s| > 0
    ensures SortDesc(s, key)[0] == s[ArgMax(s, key)]
  {
    var t := SortDesc(s[1..], key);
    assert SortDesc(s, key) == InsertDesc(s[0], t, key);
    InsertDescHead(s[0], t, key);
    if |s| > 1 {
      SortDescHeadIsArgMax(s[1..], key);
      var k := 1 + ArgMax(s[1..], key);
      assert t[0] == s[k];
    }
  }

  /** Inserting in front of a newest-first list puts x first exactly when
      it is at least as new as the head. */
  lemma InsertDescHead<T>(x: T, t: seq<T>, key: T -> int)
    requires SortedDesc(t, key)
    ensures InsertDesc(x, t, key)[0] == if |t| == 0 || key(x) >= key(t[0]) then x else t[0]
  {
  }

  /** sorted(s, key=key, reverse=True)[:n]: the n newest items, newest
      first; every item left out is no newer than the last one kept. */
  function Newest<T>(s: seq<T>, key: T -> int, n: nat): (r: seq<T>)
    ensures |r| == if |s| < n then |s| else n
    ensures SortedDesc(r, key)
    ensures forall k :: 0 <= k < |r| ==> r[k] in s
    ensures |r| > 0 ==> forall j :: 0 <= j < |s| && s[j] !in r ==> key(s[j]) <= key(r[|r| - 1])
  {
    var m := if |s| < n then |s| else n;
    SortedPrefixItems(s, key, m);
    LeftOutIsOlder(s, key, m);
    SortDesc(s, key)[..m]
  }

  /** The items Newest keeps come from s, each at most as often as it
      occurs there: it drops items and never repeats one. */
  lemma NewestSubMultiset<T>(s: seq<T>, key: T -> int, n: nat)
    ensures multiset(Newest(s, key, n)) <= multiset(s)
  {
    var m := if |s| < n then |s| else n;
    var sorted := SortDesc(s, key);
    assert Newest(s, key, n) == sorted[..m];
    PrefixSubMultiset(sorted, m);
  }

  /** A prefix holds no item more often than the whole list. */
  lemma PrefixSubMultiset<T>(a: seq<T>, m: nat)
    requires m <= |a|
    ensures multiset(a[..m]) <= multiset(a)
  {
    assert a == a[..m] + a[m..];
  }

  lemma SortedPrefixItems<T>(s: seq<T>, key: T -> int, m: nat)
    requires m <= |s|
    ensures forall k :: 0 <= k < m ==> SortDesc(s, key)[..m][k] in s
  {
    var sorted := SortDesc(s, key);
    forall k | 0 <= k < m ensures sorted[..m][k] in s {
      assert sorted[..m][k] == sorted[k] && sorted[k] in multiset(sorted);
    }
  }

  lemma LeftOutIsOlder<T>(s: seq<T>, key: T -> int, m: nat)
    requires m <= |s|
    ensures m > 0 ==> forall j :: 0 <= j < |s| && s[j] !in SortDesc(s, key)[..m] ==> key(s[j]) <= key(SortDesc(s, key)[m - 1])
  {
    var sorted := SortDesc(s, key);
    forall j | 0 <= j < |s| && s[j] !in sorted[..m] && m > 0
      ensures key(s[j]) <= key(sorted[m - 1])
    {
      assert s[j] in multiset(s);
      assert s[j] in multiset(sorted);
      var i :| 0 <= i < |sorted| && sorted[i] == s[j];
      assert i >= m;
    }
  }

  /** Two orderings of the same items by a key that tells them apart are
      the same list. */
  lemma {:induction false} SortedAscUnique<T>(a: seq<T>, b: seq<T>, key: T -> int)
    requires SortedAsc(a, key) && SortedAsc(b, key)
    requires multiset(a) == multiset(b)
    requires KeyInjective(multiset(a), key)
    ensures a == b
  {
    if |a| == 0 {
      assert |multiset(b)| == 0;
    } else {
      SameHeads(a, b, key);
      SameTails(a, b, key);
      SortedAscUnique(a[1..], b[1..], key);
      SameHeadSameTail(a, b);
    }
  }

  lemma SameHeadSameTail<T>(a: seq<T>, b: seq<T>)
    requires |a| > 0 && |b| > 0 && a[0] == b[0] && a[1..] == b[1..]
    ensures a == b
  {
    assert a == [a[0]] + a[1..];
    assert b == [b[0]] + b[1..];
  }

  lemma SameHeads<T>(a: seq<T>, b: seq<T>, key: T -> int)
    requires SortedAsc(a, key) && SortedAsc(b, key)
    requires multiset(a) == multiset(b) && |a| > 0
    requires KeyInjective(multiset(a), key)
    ensures |b| > 0 && a[0] == b[0]
  {
    assert a[0] in multiset(a);
    HeadIsLeast(a, b[0], key);
    HeadIsLeast(b, a[0], key);
  }

  lemma SameTails<T>(a: seq<T>, b: seq<T>, key: T -> int)
    requires SortedAsc(a, key) && SortedAsc(b, key)
    requires multiset(a) == multiset(b) && |a| > 0 && |b| > 0 && a[0] == b[0]
    requires KeyInjective(multiset(a), key)
    ensures SortedAsc(a[1..], key) && SortedAsc(b[1..], key)
    ensures multiset(a[1..]) == multiset(b[1..])
    ensures KeyInjective(multiset(a[1..]), key)
  {
    TailSortedAsc(a, key);
    TailSortedAsc(b, key);
    TailMultiset(a);
    TailMultiset(b);
    assert multiset(a[1..]) == multiset(a) - multiset{a[0]};
    InjectiveOnSmaller(multiset(a), multiset(a[1..]), key);
  }

  lemma TailSortedAsc<T>(a: seq<T>, key: T -> int)
    requires SortedAsc(a, key) && |a| > 0
    ensures SortedAsc(a[1..], key)
  {
    forall i, j | 0 <= i < j < |a[1..]| ensures key(a[1..][i]) <= key(a[1..][j]) {
      assert a[1..][i] == a[i + 1] && a[1..][j] == a[j + 1];
    }
  }

  lemma TailSortedDesc<T>(a: seq<T>, key: T -> int)
    requires SortedDesc(a, key) && |a| > 0
    ensures SortedDesc(a[1..], key)
  {
    forall i, j | 0 <= i < j < |a[1..]| ensures key(a[1..][i]) >= key(a[1..][j]) {
      assert a[1..][i] == a[i + 1] && a[1..][j] == a[j + 1];
    }
  }

  lemma TailMultiset<T>(a: seq<T>)
    requires |a| > 0
    ensures multiset(a) == multiset{a[0]} + multiset(a[1..])
  {
    assert a == [a[0]] + a[1..];
  }

  lemma InjectiveOnSmaller<T>(m: multiset<T>, m': multiset<T>, key: T -> int)
    requires KeyInjective(m, key) && m' <= m
    ensures KeyInjective(m', key)
  {
  }

  /** In an ascending list, the head's key is the least key. */
  lemma HeadIsLeast<T>(a: seq<T>, x: T, key: T -> int)
    requires SortedAsc(a, key) && x in multiset(a)
    ensures |a| > 0 && key(a[0]) <= key(x)
  {
    assert x in a;
    var j :| 0 <= j < |a| && a[j] == x;
  }

  /** Sorting by a key that tells the items apart does not depend on the
      input order. */
  lemma SortAscIgnoresInputOrder<T>(s: seq<T>, t: seq<T>, key: T -> int)
    requires multiset(s) == multiset(t)
    requires KeyInjective(multiset(s), key)
    ensures SortAsc(s, key) == SortAsc(t, key)
  {
    SortedAscUnique(SortAsc(s, key), SortAsc(t, key), key);
  }

  /** Sorting keeps the same items. */
  lemma SortAscSameItems<T>(s: seq<T>, key: T -> int)
    ensures forall x :: x in SortAsc(s, key) <==> x in s
  {
    var r := SortAsc(s, key);
    forall x
      ensures x in r <==> x in s
    {
      assert x in r <==> x in multiset(r);
      assert x in s <==> x in multiset(s);
    }
  }

  /** [f(x) for x in s]. */
  function MapSeq<A, B>(s: seq<A>, f: A -> B): (r: seq<B>)
    ensures |r| == |s|
    ensures forall k :: 0 <= k < |s| ==> r[k] == f(s[k])
  {
    if |s| == 0 then [] else MapSeq(s[..|s| - 1], f) + [f(s[|s| - 1])]
  }

  /** Mapping one more item appends its image. */
  lemma MapSeqSnoc<A, B>(s: seq<A>, f: A -> B, i: nat)
    requires i < |s|
    ensures MapSeq(s[..i + 1], f) == MapSeq(s[..i], f) + [f(s[i])]
  {
    assert s[..i + 1][..i] == s[..i];
  }

  /** [x for x in s if p(x)]. */
  function Filter<T>(s: seq<T>, p: T -> bool): (r: seq<T>)
    ensures |r| <= |s|
    ensures forall k :: 0 <= k < |r| ==> p(r[k])
    ensures forall k :: 0 <= k < |r| ==> r[k] in s
    ensures forall k :: 0 <= k < |s| && p(s[k]) ==> s[k] in r
  {
    if |s| == 0 then []
    else if p(s[0]) then [s[0]] + Filter(s[1..], p)
    else Filter(s[1..], p)
  }

  /** Filtering keeps a newest-first order. */
  lemma {:induction false} FilterSortedDesc<T>(s: seq<T>, p: T -> bool, key: T -> int)
    requires SortedDesc(s, key)
    ensures SortedDesc(Filter(s, p), key)
  {
    if |s| > 0 {
      var t := s[1..];
      TailSortedDesc(s, key);
      FilterSortedDesc(t, p, key);
      if p(s[0]) {
        var r := Filter(t, p);
        forall k | 0 <= k < |r| ensures key(s[0]) >= key(r[k]) {
          HeadBoundsMember(s, r[k], key);
        }
        ConsSortedDesc(s[0], r, key);
      }
    }
  }

  lemma HeadBoundsMember<T>(s: seq<T>, x: T, key: T -> int)
    requires SortedDesc(s, key) && |s| > 0 && x in s[1..]
    ensures key(s[0]) >= key(x)
  {
    var m :| 0 <= m < |s[1..]| && s[1..][m] == x;
    assert s[m + 1] == x;
  }

  /** sum(1 for x in s if p(x)). */
  function Count<T>(s: seq<T>, p: T -> bool): (n: nat)
    ensures n <= |s|
  {
    if |s| == 0 then 0 else (if p(s[0]) then 1 else 0) + Count(s[1..], p)
  }

  lemma {:induction false} CountIsFilterLength<T>(s: seq<T>, p: T -> bool)
    ensures Count(s, p) == |Filter(s, p)|
  {
    if |s| > 0 { CountIsFilterLength(s[1..], p); }
  }

  /** Counting what satisfies p and what does not accounts for every item. */
  lemma {:induction false} CountComplement<T>(s: seq<T>, p: T -> bool, q: T -> bool)
    requires forall x :: q(x) == !p(x)
    ensures Count(s, p) + Count(s, q) == |s|
  {
    if |s| > 0 { CountComplement(s[1..], p, q); }
  }

  lemma {:induction false} CountAppend<T>(s: seq<T>, t: seq<T>, p: T -> bool)
    ensures Count(s + t, p) == Count(s, p) + Count(t, p)
  {
    if |s| > 0 {
      assert (s + t)[1..] == s[1..] + t;
      CountAppend(s[1..], t, p);
    } else {
      assert s + t == t;
    }
  }

  /** Counting does not depend on the order of the items. */
  lemma {:induction false} CountPermutation<T>(a: seq<T>, b: seq<T>, p: T -> bool)
    requires multiset(a) == multiset(b)
    ensures Count(a, p) == Count(b, p)
    decreases |a|
  {
    if |a| == 0 {
      assert |b| == |multiset(b)| == 0;
    } else {
      var x := a[0];
      assert x in multiset(b);
      var i :| 0 <= i < |b| && b[i] == x;
      var rest := b[..i] + b[i + 1..];
      RemoveAtMultiset(b, i);
      CountRemoveAt(b, i, p);
      TailMultiset(a);
      assert multiset(a[1..]) == multiset(a) - multiset{x};
      CountPermutation(a[1..], rest, p);
    }
  }

  lemma RemoveAtMultiset<T>(b: seq<T>, i: nat)
    requires i < |b|
    ensures multiset(b[..i] + b[i + 1..]) == multiset(b) - multiset{b[i]}
  {
    SplitAt(b, i);
  }

  lemma SplitAt<T>(b: seq<T>, i: nat)
    requires i < |b|
    ensures b == b[..i] + ([b[i]] + b[i + 1..])
  {
    assert b[i..] == [b[i]] + b[i + 1..];
    assert b == b[..i] + b[i..];
  }

  lemma CountRemoveAt<T>(b: seq<T>, i: nat, p: T -> bool)
    requires i < |b|
    ensures Count(b, p) == (if p(b[i]) then 1 else 0) + Count(b[..i] + b[i + 1..], p)
  {
    var left, x, right := b[..i], b[i], b[i + 1..];
    SplitAt(b, i);
    CountAppend(left, [x] + right, p);
    CountAppend([x], right, p);
    CountAppend(left, right, p);
    assert [x][1..] == [];
    assert Count([x], p) == (if p(x) then 1 else 0);
  }

  /** Every item is counted when all satisfy the predicate. */
  lemma {:induction false} CountAll<T>(s: seq<T>, p: T -> bool)
    requires forall k :: 0 <= k < |s| ==> p(s[k])
    ensures Count(s, p) == |s|
  {
    if |s| > 0 {
      assert forall k :: 0 <= k < |s| - 1 ==> s[1..][k] == s[k + 1];
      CountAll(s[1..], p);
    }
  }

  /** Items that satisfy at most one of two predicates are counted at most
      once between them. */
  lemma {:induction false} CountDisjoint<T>(s: seq<T>, p: T -> bool, q: T -> bool)
    requires forall x :: !(p(x) && q(x))
    ensures Count(s, p) + Count(s, q) <= |s|
  {
    if |s| > 0 { CountDisjoint(s[1..], p, q); }
  }

  /** Nothing is counted exactly when no item satisfies the predicate. */
  lemma {:induction false} CountZeroIff<T>(s: seq<T>, p: T -> bool)
    ensures Count(s, p) == 0 <==> forall k :: 0 <= k < |s| ==> !p(s[k])
  {
    if |s| > 0 {
      CountZeroIff(s[1..], p);
      assert forall k :: 1 <= k < |s| ==> s[k] == s[1..][k - 1];
    }
  }

  lemma {:induction false} FilterAppend<T>(s: seq<T>, t: seq<T>, p: T -> bool)
    ensures Filter(s + t, p) == Filter(s, p) + Filter(t, p)
  {
    if |s| > 0 {
      assert (s + t)[1..] == s[1..] + t;
      FilterAppend(s[1..], t, p);
    } else {
      assert s + t == t;
    }
  }
}
