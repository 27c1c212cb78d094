/** Order-preserving filtering and a stable descending sort: the `filter`
    and `sort((a, b) => key(b) - key(a))` the pipeline applies to lists. */
module Sequences {

  /** `s.filter(p)`. */
  function Filter<T(!new)>(s: seq<T>, p: T -> bool): (r: seq<T>)
    ensures |r| <= |s|
    ensures forall x :: x in r <==> x in s && p(x)
  {
    if s == [] then [] else (if p(s[0]) then [s[0]] else []) + Filter(s[1..], p)
  }

  /** Filtering distributes over concatenation: the kept elements stay in
      their original order. */
  lemma {:induction false} FilterAppend<T(!new)>(s: seq<T>, t: seq<T>, p: T -> bool)
    ensures Filter(s + t, p) == Filter(s, p) + Filter(t, p)
  {
    if s == [] {
      assert s + t == t;
    } else {
      var head := if p(s[0]) then [s[0]] else [];
      assert (s + t)[0] == s[0] && (s + t)[1..] == s[1..] + t;
      FilterAppend(s[1..], t, p);
      calc {
        Filter(s + t, p);
        head + Filter(s[1..] + t, p);
        head + (Filter(s[1..], p) + Filter(t, p));
        (head + Filter(s[1..], p)) + Filter(t, p);
      }
    }
  }

  /** Filtering twice by the same test changes nothing. */
  lemma {:induction false} FilterIdempotent<T(!new)>(s: seq<T>, p: T -> bool)
    ensures Filter(Filter(s, p), p) == Filter(s, p)
  {
    if s != [] {
      FilterIdempotent(s[1..], p);
      FilterAppend(if p(s[0]) then [s[0]] else [], Filter(s[1..], p), p);
    }
  }

  /** A test every element passes keeps the whole list. */
  lemma {:induction false} FilterAll<T(!new)>(s: seq<T>, p: T -> bool)
    requires forall x :: x in s ==> p(x)
    ensures Filter(s, p) == s
  {
    if s != [] {
      FilterAll(s[1..], p);
      assert s == [s[0]] + s[1..];
    }
  }

  /** Two tests that agree on the elements of a list filter it alike. */
  lemma {:induction false} FilterCongruent<T(!new)>(s: seq<T>, p: T -> bool, q: T -> bool)
    requires forall x :: x in s ==> p(x) == q(x)
    ensures Filter(s, p) == Filter(s, q)
  {
    if s != [] {
      FilterCongruent(s[1..], p, q);
    }
  }

  /** Filtering by `p` and then by `q` is filtering by their conjunction. */
  lemma {:induction false} FilterThen<T(!new)>(s: seq<T>, p: T -> bool, q: T -> bool, pq: T -> bool)
    requires forall x :: x in s ==> pq(x) == (p(x) && q(x))
    ensures Filter(Filter(s, p), q) == Filter(s, pq)
  {
    if s != [] {
      FilterThen(s[1..], p, q, pq);
      FilterAppend(if p(s[0]) then [s[0]] else [], Filter(s[1..], p), q);
    }
  }

  /** The multiset half of `FilterSplit`, by induction on the list. */
  lemma {:induction false} FilterSplitCounts<T(!new)>(s: seq<T>, p: T -> bool, q: T -> bool)
    requires forall x :: q(x) == !p(x)
    ensures multiset(Filter(s, p)) + multiset(Filter(s, q)) == multiset(s)
  {
    if s != [] {
      var x, rest := s[0], s[1..];
      FilterSplitCounts(rest, p, q);
      assert s == [x] + rest;
      var fp, fq := Filter(rest, p), Filter(rest, q);
      if p(x) {
        assert Filter(s, p) == [x] + fp && Filter(s, q) == fq;
        ConsSplit(x, fp, fq, rest);
      } else {
        assert Filter(s, p) == fp && Filter(s, q) == [x] + fq;
        ConsSplit(x, fq, fp, rest);
      }
    }
  }

  /** Putting one more element in front of one of two parts of a list puts
      it in front of the whole. */
  lemma ConsSplit<T>(x: T, a: seq<T>, b: seq<T>, rest: seq<T>)
    requires multiset(a) + multiset(b) == multiset(rest)
    ensures multiset([x] + a) + multiset(b) == multiset([x] + rest)
    ensures multiset(b) + multiset([x] + a) == multiset([x] + rest)
  {
    assert multiset([x] + a) == multiset{x} + multiset(a);
    assert multiset([x] + rest) == multiset{x} + multiset(rest);
  }

  /** A test and its negation split a list: every element lands in exactly
      one of the two parts, as often as it occurs. */
  lemma FilterSplit<T(!new)>(s: seq<T>, p: T -> bool, q: T -> bool)
    requires forall x :: q(x) == !p(x)
    ensures multiset(Filter(s, p)) + multiset(Filter(s, q)) == multiset(s)
    ensures |Filter(s, p)| + |Filter(s, q)| == |s|
  {
    FilterSplitCounts(s, p, q);
    assert |multiset(Filter(s, p))| + |multiset(Filter(s, q))| == |multiset(s)|;
  }

  /** The head of a filtered list is the first element that passes. */
  lemma {:induction false} FilterFirst<T(!new)>(s: seq<T>, p: T -> bool)
    requires Filter(s, p) != []
    ensures exists i :: (0 <= i < |s| && s[i] == Filter(s, p)[0] && p(s[i])
                         && forall j :: 0 <= j < i ==> !p(s[j]))
  {
    if p(s[0]) {
      assert s[0] == Filter(s, p)[0];
    } else {
      assert Filter(s, p) == Filter(s[1..], p);
      FilterFirst(s[1..], p);
      var i :| 0 <= i < |s[1..]| && s[1..][i] == Filter(s[1..], p)[0] && p(s[1..][i])
        && forall j :: 0 <= j < i ==> !p(s[1..][j]);
      assert s[i + 1] == s[1..][i];
      forall j | 0 <= j < i + 1
        ensures !p(s[j])
      {
        if j > 0 {
          assert s[j] == s[1..][j - 1];
        }
      }
    }
  }

  /** The first kept element comes no later than any element that is kept. */
  lemma FilterFirstPrecedes<T(!new)>(s: seq<T>, p: T -> bool)
    requires Filter(s, p) != []
    ensures forall j :: 0 <= j < |s| && p(s[j]) ==> Filter(s, p)[0] in s[..j + 1]
  {
    FilterFirst(s, p);
    var i :| 0 <= i < |s| && s[i] == Filter(s, p)[0] && p(s[i])
      && forall j :: 0 <= j < i ==> !p(s[j]);
    forall j | 0 <= j < |s| && p(s[j])
      ensures Filter(s, p)[0] in s[..j + 1]
    {
      assert s[..j + 1][i] == s[i];
    }
  }

  /** Keys never increase along the list. */
  predicate Descending<T>(s: seq<T>, key: T -> real)
  {
    forall i, j :: 0 <= i < j < |s| ==> key(s[i]) >= key(s[j])
  }

  /** A filtered descending list is descending. */
  lemma {:induction false} FilterDescending<T(!new)>(s: seq<T>, p: T -> bool, key: T -> real)
    requires Descending(s, key)
    ensures Descending(Filter(s, p), key)
  {
    if s != [] {
      FilterDescending(s[1..], p, key);
      var r := Filter(s, p);
      if p(s[0]) {
        forall j | 0 < j < |r|
          ensures key(r[0]) >= key(r[j])
        {
          assert r[j] in Filter(s[1..], p);
          assert r[j] in s[1..];
        }
      }
    }
  }

  /** In a descending list, the first element that passes a test has the
      largest key among all that pass. */
  lemma FilterHeadIsMax<T(!new)>(s: seq<T>, p: T -> bool, key: T -> real)
    requires Descending(s, key) && Filter(s, p) != []
    ensures forall x :: x in s && p(x) ==> key(Filter(s, p)[0]) >= key(x)
  {
    FilterDescending(s, p, key);
    var r := Filter(s, p);
    forall x | x in s && p(x)
      ensures key(r[0]) >= key(x)
    {
      assert x in r;
      var j :| 0 <= j < |r| && r[j] == x;
      if j > 0 {
        assert key(r[0]) >= key(r[j]);
      }
    }
  }

  /** A prefix of a descending list is descending. */
  lemma TakeDescending<T>(s: seq<T>, n: nat, key: T -> real)
    requires Descending(s, key)
    ensures Descending(Take(s, n), key)
  {
  }

  /** In a descending list, everything after position `m - 1` has a key no
      greater than the one there. */
  lemma DescendingTail<T>(r: seq<T>, key: T -> real, m: nat)
    requires Descending(r, key) && 0 < m <= |r|
    ensures forall x :: x in multiset(r[m..]) ==> key(x) <= key(r[m - 1])
  {
    forall x | x in multiset(r[m..])
      ensures key(x) <= key(r[m - 1])
    {
      assert x in r[m..];
      var j :| m <= j < |r| && r[j] == x;
    }
  }

  /** Cutting a list in two splits its multiset. */
  lemma PrefixRest<T>(r: seq<T>, m: nat)
    requires m <= |r|
    ensures multiset(r[..m]) <= multiset(r)
    ensures multiset(r) - multiset(r[..m]) == multiset(r[m..])
  {
    assert r == r[..m] + r[m..];
    assert multiset(r) == multiset(r[..m]) + multiset(r[m..]);
  }

  /** The first `n` of a descending list are a selection of its own
      elements, and every element left out has a key no greater than the
      last one taken: `sort(...).slice(0, n)` keeps the `n` largest. */
  lemma TopOfDescending<T>(r: seq<T>, key: T -> real, n: nat)
    requires Descending(r, key)
    ensures var top := Take(r, n);
      && multiset(top) <= multiset(r)
      && (|top| > 0 ==> forall x :: x in multiset(r) - multiset(top) ==> key(x) <= key(top[|top| - 1]))
  {
    var m := if n < |r| then n else |r|;
    var top := Take(r, n);
    assert top == r[..m];
    PrefixRest(r, m);
    var left := multiset(r) - multiset(top);
    if m > 0 {
      DescendingTail(r, key, m);
      forall x | x in left
        ensures key(x) <= key(top[m - 1])
      {
        assert x in multiset(r[m..]);
      }
    }
  }

  /** Puts `x` in front of the first element whose key is not greater. */
  function InsertBy<T(!new)>(x: T, t: seq<T>, key: T -> real): (r: seq<T>)
    ensures multiset(r) == multiset{x} + multiset(t)
  {
    if t == [] || key(t[0]) <= key(x) then [x] + t
    else
      assert t == [t[0]] + t[1..];
      [t[0]] + InsertBy(x, t[1..], key)
  }

  /** Insertion into a descending list keeps it descending. */
  lemma {:induction false} InsertByDescending<T(!new)>(x: T, t: seq<T>, key: T -> real)
    requires Descending(t, key)
    ensures Descending(InsertBy(x, t, key), key)
  {
    if t != [] && key(t[0]) > key(x) {
      InsertByDescending(x, t[1..], key);
      var rest := InsertBy(x, t[1..], key);
      forall j | 0 <= j < |rest|
        ensures key(t[0]) >= key(rest[j])
      {
        assert rest[j] in multiset(rest);
        if rest[j] != x {
          assert rest[j] in t[1..];
        }
      }
    }
  }

  /** A stable sort on descending `key`. */
  function SortBy<T(!new)>(s: seq<T>, key: T -> real): (r: seq<T>)
    ensures multiset(r) == multiset(s) && |r| == |s|
    ensures Descending(r, key)
  {
    if s == [] then []
    else
      var rest := SortBy(s[1..], key);
      InsertByDescending(s[0], rest, key);
      assert s == [s[0]] + s[1..];
      var r := InsertBy(s[0], rest, key);
      assert |r| == |multiset(r)| == |multiset(s)| == |s|;
      r
  }

  /** The head of the sorted list has the largest key of the input. */
  lemma SortByHeadIsMax<T(!new)>(s: seq<T>, key: T -> real)
    ensures s != [] ==> forall x :: x in s ==> key(SortBy(s, key)[0]) >= key(x)
  {
    var r := SortBy(s, key);
    forall x | x in s
      ensures key(r[0]) >= key(x)
    {
      assert x in multiset(r);
      var j :| 0 <= j < |r| && r[j] == x;
      if j > 0 {
        assert key(r[0]) >= key(r[j]);
      }
    }
  }

  /** Insertion keeps, among the elements of any one key, the inserted
      element ahead of the others. */
  lemma {:induction false} InsertByStable<T(!new)>(x: T, t: seq<T>, key: T -> real, p: T -> bool, d: real)
    requires forall y :: p(y) <==> key(y) == d
    ensures Filter(InsertBy(x, t, key), p) == (if p(x) then [x] else []) + Filter(t, p)
  {
    if t == [] || key(t[0]) <= key(x) {
      assert ([x] + t)[0] == x && ([x] + t)[1..] == t;
      assert Filter([x] + t, p) == (if p(x) then [x] else []) + Filter(t, p);
    } else {
      var rest := InsertBy(x, t[1..], key);
      InsertByStable(x, t[1..], key, p, d);
      assert ([t[0]] + rest)[0] == t[0] && ([t[0]] + rest)[1..] == rest;
      assert Filter(t, p) == (if p(t[0]) then [t[0]] else []) + Filter(t[1..], p);
      assert !(p(t[0]) && p(x));
      var r := [t[0]] + rest;
      assert InsertBy(x, t, key) == r;
      assert Filter(r, p) == (if p(t[0]) then [t[0]] else []) + Filter(rest, p);
      if p(t[0]) {
        assert Filter(r, p) == [t[0]] + Filter(t[1..], p) == Filter(t, p);
      } else if p(x) {
        assert Filter(t, p) == [] + Filter(t[1..], p) == Filter(t[1..], p);
        assert Filter(r, p) == [x] + Filter(t, p);
      } else {
        assert Filter(t, p) == [] + Filter(t[1..], p) == Filter(t[1..], p);
        assert Filter(r, p) == Filter(t, p);
      }
    }
  }

  /** The sort is stable: elements of equal key keep their relative order. */
  lemma {:induction false} SortByStable<T(!new)>(s: seq<T>, key: T -> real, p: T -> bool, d: real)
    requires forall y :: p(y) <==> key(y) == d
    ensures Filter(SortBy(s, key), p) == Filter(s, p)
  {
    if s != [] {
      SortByStable(s[1..], key, p, d);
      InsertByStable(s[0], SortBy(s[1..], key), key, p, d);
    }
  }

  /** `s.slice(0, n)`. */
  function Take<T>(s: seq<T>, n: nat): (r: seq<T>)
    ensures |r| == if n < |s| then n else |s|
    ensures forall i :: 0 <= i < |r| ==> r[i] == s[i]
  {
    if n < |s| then s[..n] else s
  }
}
