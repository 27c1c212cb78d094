/** Small shared vocabulary: optional values, results, and the JavaScript
    truthiness and string tests the pipeline relies on. */
module Common {

  datatype Option<+T> = None | Some(value: T)

  datatype Result<+T, +E> = Ok(value: T) | Err(error: E)

  /** A string field is truthy in JavaScript when it is present and non-empty. */
  predicate TruthyString(s: Option<string>)
  {
    s.Some? && s.value != ""
  }

  /** A numeric field is truthy when it is present and non-zero (NaN is not modelled). */
  predicate TruthyNumber(x: Option<real>)
  {
    x.Some? && x.value != 0.0
  }

  /** `x || 0` on an optional number. */
  function OrZero(x: Option<real>): real
  {
    if TruthyNumber(x) then x.value else 0.0
  }

  /** `s || fallback` on an optional string. */
  function OrDefault(s: Option<string>, fallback: string): string
  {
    if TruthyString(s) then s.value else fallback
  }

  function Min(a: real, b: real): (r: real)
    ensures r <= a && r <= b && (r == a || r == b)
  {
    if a <= b then a else b
  }

  function Max(a: real, b: real): (r: real)
    ensures r >= a && r >= b && (r == a || r == b)
  {
    if a >= b then a else b
  }

  /** JavaScript `Math.round`: halves round towards positive infinity. */
  function Round(x: real): (r: int)
    ensures x - 0.5 < r as real <= x + 0.5
  {
    (x + 0.5).Floor
  }

  /** `s.includes(part)` on strings: `part` occurs as a contiguous block of `s`. */
  predicate Includes(s: string, part: string)
  {
    exists i :: 0 <= i <= |s| - |part| && OccursAt(s, part, i)
  }

  predicate OccursAt(s: string, part: string, i: int)
  {
    0 <= i <= |s| - |part| && s[i..i + |part|] == part
  }

  /** No element occurs twice. */
  predicate Distinct<T(==)>(s: seq<T>)
  {
    forall i, j :: 0 <= i < j < |s| ==> s[i] != s[j]
  }

  /** Elements appear in strictly increasing `rank`: a fixed order, each at most once. */
  predicate Ranked<T>(s: seq<T>, rank: T -> nat)
  {
    forall i, j :: 0 <= i < j < |s| ==> rank(s[i]) < rank(s[j])
  }

  /** A ranked list is determined by its members. */
  lemma {:induction false} RankedUnique<T>(a: seq<T>, b: seq<T>, rank: T -> nat)
    requires Ranked(a, rank) && Ranked(b, rank)
    requires |a| == |b| && forall x :: x in a <==> x in b
    ensures a == b
  {
    if |a| > 0 {
      assert a[0] in b && b[0] in a;
      var k :| 0 <= k < |b| && b[k] == a[0];
      var m :| 0 <= m < |a| && a[m] == b[0];
      assert rank(a[0]) <= rank(a[m]) == rank(b[0]) <= rank(b[k]) == rank(a[0]);
      assert k == 0;
      forall x
        ensures x in a[1..] <==> x in b[1..]
      {
        if x in a[1..] {
          var i :| 1 <= i < |a| && a[i] == x;
          assert rank(a[0]) < rank(a[i]);
          assert x in b;
        }
        if x in b[1..] {
          var i :| 1 <= i < |b| && b[i] == x;
          assert rank(b[0]) < rank(b[i]);
          assert x in a;
        }
      }
      RankedUnique(a[1..], b[1..], rank);
      assert a == [a[0]] + a[1..] && b == [b[0]] + b[1..];
    }
  }

  /** A ranked list of ranks below `k` followed by a ranked list of ranks in
      `[k, m)` is a ranked list of ranks below `m`. */
  lemma RankedJoin<T>(a: seq<T>, b: seq<T>, rank: T -> nat, k: nat, m: nat)
    requires Ranked(a, rank) && Ranked(b, rank)
    requires forall x :: x in a ==> rank(x) < k
    requires k <= m && forall y :: y in b ==> k <= rank(y) < m
    ensures Ranked(a + b, rank)
    ensures forall z :: z in a + b ==> rank(z) < m
  {
    forall i, j | 0 <= i < j < |a + b|
      ensures rank((a + b)[i]) < rank((a + b)[j])
    {
      if j < |a| {
      } else if i < |a| {
        assert (a + b)[i] in a && (a + b)[j] in b;
      } else {
        assert (a + b)[i] == b[i - |a|] && (a + b)[j] == b[j - |a|];
      }
    }
    forall z | z in a + b
      ensures rank(z) < m
    {
      if z !in a {
        assert z in b;
      }
    }
  }
}
