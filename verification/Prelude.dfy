/** Shared vocabulary: options, clock readings, lower-casing, powers, and sums over maps. */
module Prelude {

  datatype Option<+T> = None | Some(value: T)

  /** A clock reading, in nanoseconds since the Unix epoch. */
  type Time = int

  const SECOND: Time := 1_000_000_000

  function Min(a: int, b: int): int {
    if a <= b then a else b
  }

  function MaxReal(a: real, b: real): real {
    if a < b then b else a
  }

  function Abs(x: real): real {
    if x < 0.0 then -x else x
  }

  function LowerChar(c: char): char {
    if 'A' <= c <= 'Z' then ((c as int) + 32) as char else c
  }

  /** Lower-casing, exact on every string that lower-cases to an ASCII word without i and k. */
  function ToLower(s: string): string {
    seq(|s|, i requires 0 <= i < |s| => LowerChar(s[i]))
  }

  /** A spelling of a word, letter by letter in either case. */
  predicate Spelled(s: string, lower: string, upper: string)
    requires |lower| == |upper|
  {
    |s| == |lower| && forall i | 0 <= i < |s| :: s[i] == lower[i] || s[i] == upper[i]
  }

  /** Letters in the same places of the alphabet, small ones and capitals. */
  predicate Cases(lower: string, upper: string) {
    |lower| == |upper|
    && forall i | 0 <= i < |lower| ::
         'a' <= lower[i] <= 'z' && 'A' <= upper[i] <= 'Z' && lower[i] - 'a' == upper[i] - 'A'
  }

  /** A string lower-cases to a word of small letters exactly when it spells it. */
  lemma LowersIffSpelled(s: string, lower: string, upper: string)
    requires Cases(lower, upper)
    ensures ToLower(s) == lower <==> Spelled(s, lower, upper)
  {
    assert forall i | 0 <= i < |s| :: ToLower(s)[i] == LowerChar(s[i]);
    if Spelled(s, lower, upper) {
      assert forall i | 0 <= i < |s| :: LowerChar(s[i]) == lower[i];
    }
  }

  function Pow(x: real, n: nat): real {
    if n == 0 then 1.0 else x * Pow(x, n - 1)
  }

  lemma {:induction false} PowNonNegative(x: real, n: nat)
    requires x >= 0.0
    ensures Pow(x, n) >= 0.0
    ensures x > 0.0 ==> Pow(x, n) > 0.0
  {
    if n > 0 {
      PowNonNegative(x, n - 1);
    }
  }

  lemma {:induction false} PowAtMostOne(x: real, n: nat)
    requires 0.0 <= x <= 1.0
    ensures 0.0 <= Pow(x, n) <= 1.0
  {
    if n > 0 {
      PowAtMostOne(x, n - 1);
      ProductAtMostOne(x, Pow(x, n - 1));
    }
  }

  lemma ProductAtMostOne(a: real, b: real)
    requires 0.0 <= a <= 1.0 && 0.0 <= b <= 1.0
    ensures 0.0 <= a * b <= 1.0 && a * b <= a && a * b <= b
  {
  }

  lemma ProductSign(a: real, b: real)
    ensures a >= 0.0 && b <= 0.0 ==> a * b <= 0.0
    ensures a > 0.0 && b < 0.0 ==> a * b < 0.0
    ensures a >= 0.0 && b >= 0.0 ==> a * b >= 0.0
    ensures a > 0.0 && b > 0.0 ==> a * b > 0.0
  {
  }

  lemma {:induction false} PowOfProduct(x: real, y: real, n: nat)
    ensures Pow(x * y, n) == Pow(x, n) * Pow(y, n)
  {
    if n > 0 {
      PowOfProduct(x, y, n - 1);
      Rearrange(x, y, Pow(x, n - 1), Pow(y, n - 1));
    }
  }

  lemma Rearrange(a: real, b: real, c: real, d: real)
    ensures (a * b) * (c * d) == (a * c) * (b * d)
  {
    assert (a * b) * (c * d) == a * (b * (c * d));
    assert b * (c * d) == c * (b * d);
  }

  lemma {:induction false} PowOfOne(n: nat)
    ensures Pow(1.0, n) == 1.0
  {
    if n > 0 {
      PowOfOne(n - 1);
    }
  }

  /** The sum of a map's values. A map has no order, so neither has the sum: see MapSumSplit. */
  ghost function MapSum(m: map<string, real>): real
    decreases |m|
  {
    if m == map[] then 0.0
    else
      var k :| k in m;
      m[k] + MapSum(m - {k})
  }

  lemma {:induction false} MapSumSplit(m: map<string, real>, k: string)
    requires k in m
    ensures MapSum(m) == m[k] + MapSum(m - {k})
    decreases |m|
  {
    var j :| j in m && MapSum(m) == m[j] + MapSum(m - {j});
    if j != k {
      MapSumSplit(m - {j}, k);
      MapSumSplit(m - {k}, j);
      assert m - {j} - {k} == m - {k} - {j};
    }
  }

  function Times(n: nat, x: real): real {
    if n == 0 then 0.0 else Times(n - 1, x) + x
  }

  lemma {:induction false} TimesIsProduct(n: nat, x: real)
    ensures Times(n, x) == (n as real) * x
  {
    if n > 0 {
      TimesIsProduct(n - 1, x);
      AddOne(n - 1, x);
    }
  }

  lemma {:induction false} MapSumBounds(m: map<string, real>, lo: real)
    requires forall k | k in m :: lo <= m[k]
    ensures Times(|m|, lo) <= MapSum(m)
    decreases |m|
  {
    if m != map[] {
      var k :| k in m;
      MapSumSplit(m, k);
      CardinalityWithout(m, k);
      MapSumBounds(m - {k}, lo);
    }
  }

  lemma CardinalityWithout<V>(m: map<string, V>, k: string)
    requires k in m
    ensures |m| == |m - {k}| + 1
  {
    assert m.Keys == (m - {k}).Keys + {k};
  }

  lemma AddOne(n: nat, x: real)
    ensures ((n + 1) as real) * x == (n as real) * x + x
  {
  }

  // ---- products and quotients by name ----

  function Scaled(v: real, factor: real): real {
    v * factor
  }

  function Over(a: real, b: real): real
    requires b != 0.0
  {
    a / b
  }

  lemma OverTimes(a: real, b: real)
    requires b != 0.0
    ensures Over(a, b) * b == a
  {
  }

  /** The value v lies between lo and hi times the weight r. */
  predicate Within(lo: real, hi: real, v: real, r: real) {
    lo * r <= v <= hi * r
  }

  lemma QuotientBetween(a: real, d: real, lo: real, hi: real)
    requires d > 0.0 && Within(lo, hi, a, d)
    ensures lo <= a / d <= hi
  {
    var q := a / d;
    assert q * d == a;
    ProductSign(d, q - lo);
    ProductSign(d, hi - q);
  }

  lemma Cancel(n: real, p: real, q: real)
    requires n != 0.0 && n * p == n * q
    ensures p == q
  {
    var gap := p - q;
    assert n * gap == 0.0;
    ProductSign(n, gap);
    ProductSign(n, -gap);
    ProductSign(-n, gap);
    ProductSign(-n, -gap);
  }

  // ---- insertion ----

  /** What a list with one element inserted holds. */
  lemma AllOfInserted<T>(rest: seq<T>, list: seq<T>, x: T)
    requires multiset(rest) == multiset(list) + multiset{x}
    ensures forall i | 0 <= i < |rest| :: rest[i] == x || rest[i] in list
  {
    forall i | 0 <= i < |rest|
      ensures rest[i] == x || rest[i] in list
    {
      assert rest[i] in multiset(rest);
    }
  }
}
