/**
 * Python's `list.sort(key=...)`: a stable sort by an integer key. Descending
 * order with `reverse=True` keeps stability, so it is the same stable sort by
 * the negated key.
 */
module Sorting {

  ghost predicate SortedBy<T>(s: seq<T>, key: T -> int) {
    forall i, j :: 0 <= i < j < |s| ==> key(s[i]) <= key(s[j])
  }

  /** The elements of `s` that satisfy `p`, in order. */
  function Filter<T>(s: seq<T>, p: T -> bool): (r: seq<T>)
    ensures |r| <= |s|
  {
    if s == [] then [] else (if p(s[0]) then [s[0]] else []) + Filter(s[1..], p)
  }

  lemma {:induction false} FilterAppend<T>(a: seq<T>, b: seq<T>, p: T -> bool)
    ensures Filter(a + b, p) == Filter(a, p) + Filter(b, p)
  {
    if a == [] {
      assert a + b == b;
    } else {
      var s := a + b;
      assert s[0] == a[0] && s[1..] == a[1..] + b;
      FilterAppend(a[1..], b, p);
      var h := if p(a[0]) then [a[0]] else [];
      assert Filter(s, p) == h + (Filter(a[1..], p) + Filter(b, p));
      assert Filter(a, p) == h + Filter(a[1..], p);
    }
  }

  /** An element at index `i` that satisfies `p` is counted. */
  lemma {:induction false} FilterHit<T>(s: seq<T>, p: T -> bool, i: nat)
    requires i < |s| && p(s[i])
    ensures |Filter(s, p)| >= 1
  {
    if i > 0 {
      FilterHit(s[1..], p, i - 1);
    }
  }

  /** Two indices that satisfy `p` are both counted. */
  lemma {:induction false} FilterTwoHits<T>(s: seq<T>, p: T -> bool, i: nat, j: nat)
    requires i < j < |s| && p(s[i]) && p(s[j])
    ensures |Filter(s, p)| >= 2
  {
    if i > 0 {
      FilterTwoHits(s[1..], p, i - 1, j - 1);
    } else {
      FilterHit(s[1..], p, j - 1);
    }
  }

  /** Put `x` in front of the first element whose key is not smaller. */
  function Insert<T>(x: T, s: seq<T>, key: T -> int): seq<T>
  {
    if s == [] || key(x) <= key(s[0]) then [x] + s else [s[0]] + Insert(x, s[1..], key)
  }

  /** Stable insertion sort. */
  function SortBy<T>(s: seq<T>, key: T -> int): seq<T>
  {
    if s == [] then [] else Insert(s[0], SortBy(s[1..], key), key)
  }

  /** Every key in `s` is at least `b`. */
  ghost predicate KeysAtLeast<T>(s: seq<T>, key: T -> int, b: int) {
    forall i :: 0 <= i < |s| ==> b <= key(s[i])
  }

  lemma {:induction false} InsertBounds<T>(x: T, s: seq<T>, key: T -> int, b: int)
    requires b <= key(x) && KeysAtLeast(s, key, b)
    ensures KeysAtLeast(Insert(x, s, key), key, b)
    ensures multiset(Insert(x, s, key)) == multiset{x} + multiset(s)
    ensures |Insert(x, s, key)| == |s| + 1
  {
    if s != [] && key(x) > key(s[0]) {
      InsertBounds(x, s[1..], key, b);
      assert s == [s[0]] + s[1..];
    }
  }

  lemma AppendAssoc<T>(a: seq<T>, b: seq<T>, c: seq<T>)
    ensures a + b + c == a + (b + c)
  {
  }

  lemma SplitLast<T>(s: seq<T>)
    requires s != []
    ensures s[..|s| - 1] + [s[|s| - 1]] == s
  {
  }

  lemma MultisetCons<T>(s: seq<T>)
    requires s != []
    ensures multiset(s) == multiset{s[0]} + multiset(s[1..])
  {
    assert s == [s[0]] + s[1..];
  }

  lemma {:induction false} InsertProperties<T>(x: T, s: seq<T>, key: T -> int)
    requires SortedBy(s, key)
    ensures SortedBy(Insert(x, s, key), key)
    ensures multiset(Insert(x, s, key)) == multiset{x} + multiset(s)
    ensures |Insert(x, s, key)| == |s| + 1
  {
    if s == [] || key(x) <= key(s[0]) {
      InsertBounds(x, s, key, key(x));
    } else {
      InsertProperties(x, s[1..], key);
      InsertBounds(x, s[1..], key, key(s[0]));
      MultisetCons(s);
    }
  }

  /** The result is ordered by key and is a permutation of the input. */
  lemma {:induction false} SortByProperties<T>(s: seq<T>, key: T -> int)
    ensures SortedBy(SortBy(s, key), key)
    ensures multiset(SortBy(s, key)) == multiset(s)
    ensures |SortBy(s, key)| == |s|
  {
    if s != [] {
      SortByProperties(s[1..], key);
      InsertProperties(s[0], SortBy(s[1..], key), key);
      MultisetCons(s);
    }
  }

  lemma {:induction false} InsertCount<T>(x: T, s: seq<T>, key: T -> int, p: T -> bool)
    ensures |Filter(Insert(x, s, key), p)| == |Filter([x], p)| + |Filter(s, p)|
  {
    if s != [] && key(x) > key(s[0]) {
      InsertCount(x, s[1..], key, p);
      assert Filter([x], p) == (if p(x) then [x] else []) + Filter([x][1..], p);
    }
  }

  /** Sorting keeps how many elements satisfy any predicate. */
  lemma {:induction false} SortByCount<T>(s: seq<T>, key: T -> int, p: T -> bool)
    ensures |Filter(SortBy(s, key), p)| == |Filter(s, p)|
  {
    if s != [] {
      SortByCount(s[1..], key, p);
      InsertCount(s[0], SortBy(s[1..], key), key, p);
      assert Filter([s[0]], p) == (if p(s[0]) then [s[0]] else []) + Filter([s[0]][1..], p);
    }
  }

  lemma {:induction false} InsertStable<T>(x: T, s: seq<T>, key: T -> int, v: int, p: T -> bool)
    requires SortedBy(s, key)
    requires forall y :: p(y) <==> key(y) == v
    ensures Filter(Insert(x, s, key), p) == (if key(x) == v then [x] else []) + Filter(s, p)
  {
    if s == [] || key(x) <= key(s[0]) {
      assert ([x] + s)[1..] == s;
    } else {
      assert SortedBy(s[1..], key) by {
        forall i, j | 0 <= i < j < |s[1..]| ensures key(s[1..][i]) <= key(s[1..][j]) {
          assert s[1..][i] == s[i + 1] && s[1..][j] == s[j + 1];
        }
      }
      InsertStable(x, s[1..], key, v, p);
      var r := Insert(x, s[1..], key);
      assert ([s[0]] + r)[1..] == r;
      assert Filter(Insert(x, s, key), p) == (if p(s[0]) then [s[0]] else []) + Filter(r, p);
      if key(x) == v {
        assert !p(s[0]);
      }
    }
  }

  /**
   * Stability: the elements sharing one key value keep their relative order,
   * so ties stay in encounter order.
   */
  lemma {:induction false} SortByStable<T>(s: seq<T>, key: T -> int, v: int, p: T -> bool)
    requires forall y :: p(y) <==> key(y) == v
    ensures Filter(SortBy(s, key), p) == Filter(s, p)
  {
    if s != [] {
      SortByStable(s[1..], key, v, p);
      SortByProperties(s[1..], key);
      InsertStable(s[0], SortBy(s[1..], key), key, v, p);
    }
  }

  /** An already ordered list is left as it is. */
  lemma {:induction false} SortBySorted<T>(s: seq<T>, key: T -> int)
    requires SortedBy(s, key)
    ensures SortBy(s, key) == s
  {
    if s != [] {
      SortBySorted(s[1..], key);
      assert s == [s[0]] + s[1..];
    }
  }

  /** What `Filter` keeps comes from `s` and satisfies `p`. */
  lemma {:induction false} FilterIn<T>(s: seq<T>, p: T -> bool)
    ensures forall x :: x in Filter(s, p) ==> x in s && p(x)
  {
    if s != [] {
      FilterIn(s[1..], p);
      assert forall x :: x in s[1..] ==> x in s;
    }
  }
}
