/** Sequence and number helpers shared by the grid, the path engine and the
    barrier: ordering predicates, Python's `sorted(set(...))`, `list.index`,
    `int()` truncation, `numpy.cumsum` and a plain sum. */
module Seqs {

  predicate StrictlyIncreasing(s: seq<int>) {
    forall i, j :: 0 <= i < j < |s| ==> s[i] < s[j]
  }

  predicate NonDecreasing(s: seq<int>) {
    forall i, j :: 0 <= i <= j < |s| ==> s[i] <= s[j]
  }

  /** Absolute day distance, Python's `abs(d - D)` on dates. */
  function Dist(a: int, b: int): nat {
    if a >= b then a - b else b - a
  }

  /** Python's `int(x)` on a float: truncation toward zero. */
  function Trunc(x: real): (r: int)
    ensures 0.0 <= x ==> 0 <= r && r as real <= x < r as real + 1.0
    ensures x <= 0.0 ==> r <= 0 && x <= r as real < x + 1.0
  {
    if x >= 0.0 then x.Floor else -((-x).Floor)
  }

  /** Inserts `x` into a strictly increasing sequence, dropping it when it is
      already present. */
  function Insert(x: int, s: seq<int>): (r: seq<int>)
    requires StrictlyIncreasing(s)
    ensures StrictlyIncreasing(r)
    ensures forall y :: y in r <==> y == x || y in s
    ensures |r| <= |s| + 1
  {
    if |s| == 0 then [x]
    else if x < s[0] then [x] + s
    else if x == s[0] then s
    else
      var rest := Insert(x, s[1..]);
      ConsIncreasing(s[0], rest);
      [s[0]] + rest
  }

  /** A strictly increasing sequence stays so under a smaller head. */
  lemma ConsIncreasing(a: int, rest: seq<int>)
    requires StrictlyIncreasing(rest)
    requires forall y :: y in rest ==> a < y
    ensures StrictlyIncreasing([a] + rest)
  {
    var r := [a] + rest;
    forall i, j | 0 <= i < j < |r|
      ensures r[i] < r[j]
    {
      assert r[j] == rest[j - 1];
      if i > 0 {
        assert r[i] == rest[i - 1];
      } else {
        assert rest[j - 1] in rest;
      }
    }
  }

  /** `sorted(set(xs))`: the distinct elements of `xs` in increasing order. */
  function SortedUnique(xs: seq<int>): (r: seq<int>)
    ensures StrictlyIncreasing(r)
    ensures forall y :: y in r <==> y in xs
    ensures |r| <= |xs|
  {
    if |xs| == 0 then []
    else
      var init := xs[..|xs| - 1];
      assert xs == init + [xs[|xs| - 1]];
      Insert(xs[|xs| - 1], SortedUnique(init))
  }

  /** A finite set of integers has exactly one strictly increasing
      enumeration, so `SortedUnique` is the only possible result of
      "deduplicate, then sort". */
  lemma {:induction false} IncreasingEnumerationUnique(a: seq<int>, b: seq<int>)
    requires StrictlyIncreasing(a) && StrictlyIncreasing(b)
    requires forall y :: y in a <==> y in b
    ensures a == b
    decreases |a|
  {
    assert |a| > 0 ==> a[0] in a;
    assert |b| > 0 ==> b[0] in b;
    if |a| > 0 && |b| > 0 {
      var i :| 0 <= i < |b| && b[i] == a[0];
      var j :| 0 <= j < |a| && a[j] == b[0];
      assert b[0] <= b[i];
      assert a[0] <= a[j];
      forall y
        ensures y in a[1..] <==> y in b[1..]
      {
        if y in a[1..] {
          var k :| 1 <= k < |a| && a[k] == y;
          assert a[k] in a;
          var m :| 0 <= m < |b| && b[m] == y;
          assert m != 0;
          assert b[m] == b[1..][m - 1];
        }
        if y in b[1..] {
          var k :| 1 <= k < |b| && b[k] == y;
          assert b[k] in b;
          var m :| 0 <= m < |a| && a[m] == y;
          assert m != 0;
          assert a[m] == a[1..][m - 1];
        }
      }
      IncreasingEnumerationUnique(a[1..], b[1..]);
      assert a == [a[0]] + a[1..];
      assert b == [b[0]] + b[1..];
    }
  }

  /** The canonical characterisation of `SortedUnique`: any strictly
      increasing sequence with the same members is equal to it. */
  lemma SortedUniqueIsCanonical(xs: seq<int>, s: seq<int>)
    requires StrictlyIncreasing(s)
    requires forall y :: y in s <==> y in xs
    ensures SortedUnique(xs) == s
  {
    IncreasingEnumerationUnique(SortedUnique(xs), s);
  }

  /** Python's `list.index`: the position of the first occurrence. */
  function IndexOf(s: seq<int>, x: int): (i: nat)
    requires x in s
    ensures i < |s| && s[i] == x
    ensures forall j :: 0 <= j < i ==> s[j] != x
  {
    if s[0] == x then 0 else 1 + IndexOf(s[1..], x)
  }

  function Sum(xs: seq<real>): real {
    if |xs| == 0 then 0.0 else xs[0] + Sum(xs[1..])
  }

  /** `numpy.cumsum` along one axis, started from `acc`: a running total. */
  function RunningSum(acc: real, xs: seq<real>): (r: seq<real>)
    ensures |r| == |xs|
    ensures |xs| > 0 ==> r[0] == acc + xs[0]
    decreases |xs|
  {
    if |xs| == 0 then [] else [acc + xs[0]] + RunningSum(acc + xs[0], xs[1..])
  }

  /** Entry `t` of the running total is the sum of the first `t+1` inputs. */
  lemma {:induction false} RunningSumIsPrefixSum(acc: real, xs: seq<real>, t: nat)
    requires t < |xs|
    ensures RunningSum(acc, xs)[t] == acc + Sum(xs[..t + 1])
    decreases t
  {
    if t == 0 {
      assert xs[..1][1..] == [];
    } else {
      RunningSumIsPrefixSum(acc + xs[0], xs[1..], t - 1);
      assert xs[..t + 1][1..] == xs[1..][..t];
    }
  }

  /** Consecutive entries of the running total differ by the input entry. */
  lemma RunningSumStep(acc: real, xs: seq<real>, t: nat)
    requires 1 <= t < |xs|
    ensures RunningSum(acc, xs)[t] == RunningSum(acc, xs)[t - 1] + xs[t]
  {
    RunningSumIsPrefixSum(acc, xs, t);
    RunningSumIsPrefixSum(acc, xs, t - 1);
    SumSnoc(xs[..t + 1]);
    assert xs[..t + 1][..t] == xs[..t];
  }

  lemma {:induction false} SumSnoc(xs: seq<real>)
    requires |xs| > 0
    ensures Sum(xs) == Sum(xs[..|xs| - 1]) + xs[|xs| - 1]
    decreases |xs|
  {
    if |xs| > 1 {
      SumSnoc(xs[1..]);
      assert xs[1..][..|xs| - 2] == xs[..|xs| - 1][1..];
    }
  }
}
