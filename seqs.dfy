/**
 * The array operations the application uses on fetched rows: `filter`,
 * a numeric `reduce`, a `sort` with a descending numeric comparator, and
 * `slice(0, n)`.
 */
module Seqs {

  /** `s.filter(keep)`. */
  function Filter<T(==)>(s: seq<T>, keep: T -> bool): (r: seq<T>)
    ensures |r| <= |s|
    ensures forall i :: 0 <= i < |r| ==> r[i] in s && keep(r[i])
    ensures forall i :: 0 <= i < |s| && keep(s[i]) ==> s[i] in r
  {
    if s == [] then [] else (if keep(s[0]) then [s[0]] else []) + Filter(s[1..], keep)
  }

  /** `a` is `b` with some elements left out and the rest in their original order. */
  predicate IsSubseq<T(==)>(a: seq<T>, b: seq<T>)
    decreases |b|
  {
    if a == [] then true
    else if b == [] then false
    else if a[0] == b[0] then IsSubseq(a[1..], b[1..])
    else IsSubseq(a, b[1..])
  }

  lemma {:induction false} SubseqDropHead<T>(a: seq<T>, b: seq<T>)
    requires a != [] && IsSubseq(a, b)
    ensures IsSubseq(a[1..], b)
    decreases |b|
  {
    var rest := a[1..];
    if a[0] == b[0] {
      if rest != [] && rest[0] == b[0] {
        SubseqDropHead(rest, b[1..]);
        assert rest[1..] == a[2..];
      }
    } else {
      SubseqDropHead(a, b[1..]);
      if rest != [] && rest[0] == b[0] {
        SubseqDropHead(rest, b[1..]);
      }
    }
  }

  /** What `filter` returns is an order-preserving subsequence of its input. */
  lemma {:induction false} FilterIsSubseq<T>(s: seq<T>, keep: T -> bool)
    ensures IsSubseq(Filter(s, keep), s)
  {
    if s != [] {
      FilterIsSubseq(s[1..], keep);
      var rest := Filter(s[1..], keep);
      if keep(s[0]) {
        assert Filter(s, keep) == [s[0]] + rest;
        assert ([s[0]] + rest)[1..] == rest;
      } else {
        assert Filter(s, keep) == rest;
      }
    }
  }

  /** Filtering a concatenation filters each part. */
  lemma {:induction false} FilterAppend<T>(s: seq<T>, t: seq<T>, keep: T -> bool)
    ensures Filter(s + t, keep) == Filter(s, keep) + Filter(t, keep)
  {
    if s == [] {
      assert s + t == t;
    } else {
      assert (s + t)[0] == s[0];
      assert (s + t)[1..] == s[1..] + t;
      FilterAppend(s[1..], t, keep);
    }
  }

  /** Filtering with a predicate that holds everywhere returns the input. */
  lemma {:induction false} FilterAll<T>(s: seq<T>, keep: T -> bool)
    requires forall x :: x in s ==> keep(x)
    ensures Filter(s, keep) == s
  {
    if s != [] {
      FilterAll(s[1..], keep);
    }
  }

  /** A numeric `reduce((sum, x) => sum + f(x), 0)`. */
  function SumBy<T>(s: seq<T>, f: T -> real): real {
    if s == [] then 0.0 else f(s[0]) + SumBy(s[1..], f)
  }

  lemma {:induction false} SumByAppend<T>(s: seq<T>, t: seq<T>, f: T -> real)
    ensures SumBy(s + t, f) == SumBy(s, f) + SumBy(t, f)
  {
    if s == [] {
      assert s + t == t;
    } else {
      assert (s + t)[0] == s[0];
      assert (s + t)[1..] == s[1..] + t;
      SumByAppend(s[1..], t, f);
    }
  }

  /** With non-negative terms, a filtered sum never exceeds the full one, and a looser filter never sums less. */
  lemma {:induction false} SumByFilterMonotone<T>(s: seq<T>, f: T -> real, narrow: T -> bool, wide: T -> bool)
    requires forall x :: x in s ==> f(x) >= 0.0
    requires forall x :: x in s && narrow(x) ==> wide(x)
    ensures SumBy(Filter(s, narrow), f) <= SumBy(Filter(s, wide), f)
  {
    if s != [] {
      SumByFilterMonotone(s[1..], f, narrow, wide);
      var n := if narrow(s[0]) then [s[0]] else [];
      var w := if wide(s[0]) then [s[0]] else [];
      SumByAppend(n, Filter(s[1..], narrow), f);
      SumByAppend(w, Filter(s[1..], wide), f);
    }
  }

  /** With a looser filter, no fewer elements are kept. */
  lemma {:induction false} FilterLengthMonotone<T>(s: seq<T>, narrow: T -> bool, wide: T -> bool)
    requires forall x :: x in s && narrow(x) ==> wide(x)
    ensures |Filter(s, narrow)| <= |Filter(s, wide)|
  {
    if s != [] {
      FilterLengthMonotone(s[1..], narrow, wide);
    }
  }

  /** An integer `reduce((sum, x) => sum + f(x), 0)`. */
  function SumIntBy<T>(s: seq<T>, f: T -> int): int {
    if s == [] then 0 else f(s[0]) + SumIntBy(s[1..], f)
  }

  lemma {:induction false} SumIntByAppend<T>(s: seq<T>, t: seq<T>, f: T -> int)
    ensures SumIntBy(s + t, f) == SumIntBy(s, f) + SumIntBy(t, f)
  {
    if s == [] {
      assert s + t == t;
    } else {
      assert (s + t)[0] == s[0];
      assert (s + t)[1..] == s[1..] + t;
      SumIntByAppend(s[1..], t, f);
    }
  }

  /** Non-increasing by `key`, as `sort((a, b) => key(b) - key(a))` leaves an array. */
  predicate SortedDesc<T>(s: seq<T>, key: T -> int) {
    forall i, j :: 0 <= i < j < |s| ==> key(s[i]) >= key(s[j])
  }

  /** Puts `x` in front of the first element whose key is not larger. */
  function InsertDesc<T>(x: T, s: seq<T>, key: T -> int): seq<T> {
    if s == [] || key(s[0]) <= key(x) then [x] + s else [s[0]] + InsertDesc(x, s[1..], key)
  }

  /** Insertion sort by descending key. */
  function SortDesc<T>(s: seq<T>, key: T -> int): seq<T> {
    if s == [] then [] else InsertDesc(s[0], SortDesc(s[1..], key), key)
  }

  /** Inserting adds exactly one element. */
  lemma {:induction false} InsertDescPerm<T>(x: T, s: seq<T>, key: T -> int)
    ensures multiset(InsertDesc(x, s, key)) == multiset(s) + multiset{x}
  {
    if !(s == [] || key(s[0]) <= key(x)) {
      InsertDescPerm(x, s[1..], key);
      assert s == [s[0]] + s[1..];
    }
  }

  /** Inserting below a bound keeps every key below it. */
  lemma {:induction false} InsertDescBound<T>(x: T, s: seq<T>, key: T -> int, b: int)
    requires key(x) <= b
    requires forall i :: 0 <= i < |s| ==> key(s[i]) <= b
    ensures forall i :: 0 <= i < |InsertDesc(x, s, key)| ==> key(InsertDesc(x, s, key)[i]) <= b
  {
    var r := InsertDesc(x, s, key);
    if s == [] || key(s[0]) <= key(x) {
      assert forall i :: 0 < i < |r| ==> r[i] == s[i - 1];
    } else {
      InsertDescBound(x, s[1..], key, b);
      assert forall i :: 0 < i < |r| ==> r[i] == InsertDesc(x, s[1..], key)[i - 1];
    }
  }

  /** Inserting into a sorted sequence keeps it sorted. */
  lemma {:induction false} InsertDescSorted<T>(x: T, s: seq<T>, key: T -> int)
    requires SortedDesc(s, key)
    ensures SortedDesc(InsertDesc(x, s, key), key)
  {
    var r := InsertDesc(x, s, key);
    if s == [] || key(s[0]) <= key(x) {
      forall i, j | 0 <= i < j < |r| ensures key(r[i]) >= key(r[j]) {
        assert r[j] == s[j - 1];
        if i > 0 {
          assert r[i] == s[i - 1];
        } else {
          assert key(s[0]) >= key(s[j - 1]);
        }
      }
    } else {
      var rest := InsertDesc(x, s[1..], key);
      InsertDescSorted(x, s[1..], key);
      InsertDescBound(x, s[1..], key, key(s[0]));
      forall i, j | 0 <= i < j < |r| ensures key(r[i]) >= key(r[j]) {
        assert r[j] == rest[j - 1];
        if i > 0 {
          assert r[i] == rest[i - 1];
        }
      }
    }
  }

  /** The sort returns a permutation of its input, in non-increasing key order. */
  lemma {:induction false} SortDescCorrect<T>(s: seq<T>, key: T -> int)
    ensures multiset(SortDesc(s, key)) == multiset(s)
    ensures SortedDesc(SortDesc(s, key), key)
  {
    if s != [] {
      SortDescCorrect(s[1..], key);
      InsertDescPerm(s[0], SortDesc(s[1..], key), key);
      InsertDescSorted(s[0], SortDesc(s[1..], key), key);
      assert s == [s[0]] + s[1..];
      assert multiset(s) == multiset{s[0]} + multiset(s[1..]);
    }
  }

  /** `s.slice(0, n)`. */
  function Take<T>(s: seq<T>, n: nat): (r: seq<T>)
    ensures |r| == if |s| <= n then |s| else n
    ensures r == s[..|r|]
  {
    if |s| <= n then s else s[..n]
  }

  /** A prefix of a sorted sequence is sorted. */
  lemma TakeSorted<T>(s: seq<T>, n: nat, key: T -> int)
    requires SortedDesc(s, key)
    ensures SortedDesc(Take(s, n), key)
  {
  }

  /**
   * The first `n` after a descending sort are the top `n`: each comes from the
   * input, and anything of the input left out has a key no larger than every
   * one kept (and is only left out when `n` elements were kept).
   */
  lemma TopOfSorted<T>(s: seq<T>, key: T -> int, n: nat)
    ensures var top := Take(SortDesc(s, key), n);
      && SortedDesc(top, key)
      && (|top| == if |s| <= n then |s| else n)
      && (forall i :: 0 <= i < |top| ==> top[i] in s)
      && (forall x :: x in s && x !in top ==> |top| == n && forall i :: 0 <= i < |top| ==> key(top[i]) >= key(x))
  {
    var sorted := SortDesc(s, key);
    SortDescCorrect(s, key);
    TakeSorted(sorted, n, key);
    var top := Take(sorted, n);
    assert |sorted| == |multiset(sorted)| == |multiset(s)| == |s|;
    forall i | 0 <= i < |top| ensures top[i] in s {
      assert top[i] == sorted[i];
      assert sorted[i] in multiset(sorted);
    }
    forall x | x in s && x !in top ensures |top| == n && forall i :: 0 <= i < |top| ==> key(top[i]) >= key(x) {
      assert x in multiset(s);
      assert x in sorted;
      forall m | 0 <= m < |top| ensures sorted[m] != x {
        assert top[m] == sorted[m];
      }
      var k :| 0 <= k < |sorted| && sorted[k] == x;
      assert k >= |top|;
      forall i | 0 <= i < |top| ensures key(top[i]) >= key(x) {
        assert top[i] == sorted[i];
      }
    }
  }

  /** No element occurs twice. */
  predicate NoDup<T(==)>(s: seq<T>) {
    forall i, j :: 0 <= i < j < |s| ==> s[i] != s[j]
  }

  /** Without duplicates, every element is counted at most once. */
  lemma {:induction false} NoDupCount<T>(s: seq<T>, x: T)
    requires NoDup(s)
    ensures multiset(s)[x] <= 1
  {
    if s != [] {
      assert s == [s[0]] + s[1..];
      assert NoDup(s[1..]);
      NoDupCount(s[1..], x);
      if x == s[0] {
        assert x !in s[1..];
      }
    }
  }

  /** A rearrangement of a sequence without duplicates has none either. */
  lemma NoDupPerm<T>(a: seq<T>, b: seq<T>)
    requires multiset(a) == multiset(b) && NoDup(b)
    ensures NoDup(a)
  {
    forall i, j | 0 <= i < j < |a| ensures a[i] != a[j] {
      if a[i] == a[j] {
        var x := a[i];
        assert a == a[..j] + a[j..];
        assert x in a[..j] && x in a[j..];
        assert multiset(a)[x] == multiset(a[..j])[x] + multiset(a[j..])[x];
        NoDupCount(b, x);
        assert false;
      }
    }
  }

  /** Anything left out of the first `n` after a descending sort is outranked by all `n` of them. */
  lemma TopLeftOut<T>(s: seq<T>, key: T -> int, n: nat, x: T)
    requires x in s && x !in Take(SortDesc(s, key), n)
    ensures |Take(SortDesc(s, key), n)| == n
    ensures forall i :: 0 <= i < |Take(SortDesc(s, key), n)| ==> key(Take(SortDesc(s, key), n)[i]) >= key(x)
  {
    TopOfSorted(s, key, n);
  }

  /** The top `n` of a sequence without duplicates has none either. */
  lemma TopNoDup<T>(s: seq<T>, key: T -> int, n: nat)
    requires NoDup(s)
    ensures NoDup(Take(SortDesc(s, key), n))
  {
    SortDescCorrect(s, key);
    NoDupPerm(SortDesc(s, key), s);
  }
}
