/** Small building blocks shared by the components: failure-carrying results, sizes of sets, sums over
    finite maps, and the integer division of JavaScript's BigInt. */

module Outcomes {
  datatype Option<+T> = None | Some(value: T)
  datatype Result<+T, +E> = Ok(value: T) | Err(error: E)
}

module Numbers {
  function Min(a: int, b: int): int { if a <= b then a else b }

  function Max(a: int, b: int): int { if a >= b then a else b }

  /** One for a thing that happens, to be added up. */
  function Count(b: bool): nat { if b then 1 else 0 }
}

module Texts {
  /** ASCII letters only. */
  function LowerCase(c: char): char {
    if 'A' <= c <= 'Z' then c - 'A' + 'a' else c
  }

  function Folded(s: string): (t: string)
    ensures |t| == |s| && forall i :: 0 <= i < |s| ==> t[i] == LowerCase(s[i])
  {
    seq(|s|, i requires 0 <= i < |s| => LowerCase(s[i]))
  }
}

module FiniteSets {
  lemma {:induction false} SubsetIsSmaller<T>(a: set<T>, b: set<T>)
    requires a <= b
    ensures |a| <= |b|
  {
    if a != {} {
      var x :| x in a;
      SubsetIsSmaller(a - {x}, b - {x});
    }
  }

  lemma {:induction false} UpperBound(s: set<nat>) returns (n: nat)
    ensures forall x :: x in s ==> x < n
  {
    n := 0;
    if s != {} {
      var x :| x in s;
      n := UpperBound(s - {x});
      assert forall y :: y in s ==> y == x || y in s - {x};
      if n <= x { n := x + 1; }
    }
  }
}

/** Sums over the values of a finite map: balances per account, amounts per record. */
module MapSums {
  import opened BigIntDivision

  ghost function Sum<K>(m: map<K, int>): int
    decreases |m|
  {
    if m == map[] then 0
    else
      var k :| k in m;
      SmallerWithout(m, k);
      m[k] + Sum(m - {k})
  }

  lemma SmallerWithout<K>(m: map<K, int>, k: K)
    requires k in m
    ensures |m - {k}| < |m|
  {
    assert (m - {k}).Keys == m.Keys - {k};
    assert |m.Keys| == |m| && |(m - {k}).Keys| == |m - {k}|;
  }

  /** The order in which keys are added up does not matter. */
  lemma {:induction false} SumWithout<K>(m: map<K, int>, k: K)
    requires k in m
    ensures Sum(m) == m[k] + Sum(m - {k})
    decreases |m|
  {
    var first :| first in m && Sum(m) == m[first] + Sum(m - {first});
    if first != k {
      SmallerWithout(m, first);
      SmallerWithout(m, k);
      SumWithout(m - {first}, k);
      SumWithout(m - {k}, first);
      assert m - {first} - {k} == m - {k} - {first};
    }
  }

  lemma SumSet<K>(m: map<K, int>, k: K, v: int)
    ensures Sum(m[k := v]) == Sum(m) - (if k in m then m[k] else 0) + v
  {
    SumWithout(m[k := v], k);
    if k in m {
      SumWithout(m, k);
      assert m[k := v] - {k} == m - {k};
    } else {
      assert m[k := v] - {k} == m;
    }
  }

  /** Non-negative entries never exceed the total. */
  lemma {:induction false} SumBoundsEntry<K>(m: map<K, int>, k: K)
    requires forall x :: x in m ==> m[x] >= 0
    ensures Sum(m) >= 0
    ensures k in m ==> m[k] <= Sum(m)
    decreases |m|
  {
    if m != map[] {
      var x :| x in m && (k in m ==> x == k);
      SumWithout(m, x);
      SmallerWithout(m, x);
      SumBoundsEntry(m - {x}, x);
    }
  }

  lemma {:induction false} SumMonotone<K>(m: map<K, int>, n: map<K, int>)
    requires m.Keys == n.Keys && forall k :: k in m ==> m[k] <= n[k]
    ensures Sum(m) <= Sum(n)
    decreases |m|
  {
    if m == map[] {
      assert n == map[];
    } else {
      var k :| k in m;
      SumWithout(m, k);
      SumWithout(n, k);
      SmallerWithout(m, k);
      SumMonotone(m - {k}, n - {k});
    }
  }

  ghost function Scaled<K>(m: map<K, int>, factor: int): map<K, int> {
    map k | k in m :: m[k] * factor
  }

  lemma {:induction false} SumScaled<K>(m: map<K, int>, factor: int)
    ensures Sum(Scaled(m, factor)) == Sum(m) * factor
    decreases |m|
  {
    if m == map[] {
      assert Scaled(m, factor) == map[];
    } else {
      var k :| k in m;
      var rest := m - {k};
      SumWithout(m, k);
      SumWithout(Scaled(m, factor), k);
      assert Scaled(m, factor) - {k} == Scaled(rest, factor);
      SmallerWithout(m, k);
      SumScaled(rest, factor);
      MulDistributes(m[k], Sum(rest), factor);
    }
  }

  /** What a larger map has beyond a smaller one. */
  lemma {:induction false} SumOfExtension<K>(m: map<K, int>, n: map<K, int>)
    requires forall k :: k in m ==> k in n && n[k] == m[k]
    ensures Sum(n - m.Keys) == Sum(n) - Sum(m)
    decreases |m|
  {
    if m == map[] {
      assert n - m.Keys == n;
    } else {
      var k :| k in m;
      SmallerWithout(m, k);
      SumOfExtension(m - {k}, n - {k});
      SumWithout(m, k);
      SumWithout(n, k);
      assert n - {k} - (m - {k}).Keys == n - m.Keys;
    }
  }

  lemma {:induction false} AllZeroSumsToZero<K>(m: map<K, int>)
    requires forall k :: k in m ==> m[k] == 0
    ensures Sum(m) == 0
    decreases |m|
  {
    if m != map[] {
      var k :| k in m;
      SumWithout(m, k);
      SmallerWithout(m, k);
      AllZeroSumsToZero(m - {k});
    }
  }

  /** A total of zero leaves no room for a positive entry. */
  lemma SumZeroIsAllZero<K>(m: map<K, int>)
    requires (forall x :: x in m ==> m[x] >= 0) && Sum(m) == 0
    ensures forall x :: x in m ==> m[x] == 0
  {
    forall x | x in m ensures m[x] == 0 {
      SumBoundsEntry(m, x);
    }
  }
}

/** Division as BigInt does it: the quotient is truncated toward zero. */
module BigIntDivision {

  function TruncDiv(a: int, b: int): int
    requires b != 0
  {
    if a >= 0 then (if b > 0 then a / b else -(a / -b))
    else (if b > 0 then -(-a / b) else -a / -b)
  }

  /** For a positive divisor and quotient bound, truncation behaves as a floor:
      a / b >= q is the same as a >= q * b. */
  lemma TruncDivAtLeast(a: int, b: int, q: int)
    requires b > 0 && q > 0
    ensures TruncDiv(a, b) >= q <==> a >= q * b
  {
    if a >= 0 {
      var d, r := a / b, a % b;
      assert a == d * b + r;
      if d >= q {
        assert d * b >= q * b by { MulMonotone(q, d, b); }
      } else {
        assert (d + 1) * b <= q * b by { MulMonotone(d + 1, q, b); }
        assert (d + 1) * b == d * b + b;
      }
    } else {
      assert q * b >= b by { MulMonotone(1, q, b); }
      assert -a / b >= 0;
    }
  }

  lemma FloorBracket(a: int, b: int)
    requires a >= 0 && b > 0
    ensures TruncDiv(a, b) * b <= a < TruncDiv(a, b) * b + b
    ensures TruncDiv(a, b) >= 0
  {
    assert a == a / b * b + a % b;
  }

  lemma MulDistributes(x: int, y: int, k: int)
    ensures (x + y) * k == x * k + y * k
    ensures (x - y) * k == x * k - y * k
  {}

  lemma MulMonotone(x: int, y: int, k: int)
    requires x <= y && k >= 0
    ensures x * k <= y * k
  {
    assert (y - x) * k >= 0;
    assert (y - x) * k == y * k - x * k;
  }
}
