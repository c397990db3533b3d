/**
 The sizing formula, and why it is the right one.

 A share bought at `cost` pays 1 when the outcome wins and 0 otherwise, so staking the
 fraction f of the bankroll multiplies it by 1 + f(1-cost)/cost on a win and 1 - f on a loss.
 */
module Kelly {
  import opened Prelude

  function KellyFraction(p: real, cost: real): real {
    if cost <= 0.0 || cost >= 1.0 || p <= 0.0 || p >= 1.0 then 0.0
    else
      var f := (p - cost) / (1.0 - cost);
      if f <= 0.0 then 0.0 else f
  }

  function WinFactor(f: real, cost: real): real
    requires cost > 0.0
  {
    1.0 + f * (1.0 - cost) / cost
  }

  function LossFactor(f: real): real {
    1.0 - f
  }

  /** What one unit of bankroll becomes after `wins` won and `losses` lost bets at fraction f. */
  function Wealth(f: real, cost: real, wins: nat, losses: nat): real
    requires cost > 0.0
  {
    Powers(WinFactor(f, cost), LossFactor(f), wins, losses)
  }

  function Powers(x: real, y: real, i: nat, j: nat): real {
    Pow(x, i) * Pow(y, j)
  }

  function Product(x: real, y: real, z: real, i: nat, j: nat): real {
    Powers(x, y, i, j) * z
  }

  /**
   Weighted arithmetic-geometric mean, with whole-number weights and one running factor z:
   if i + j + 1 non-negative numbers sum to at most i + j + 1, their product is at most 1.
   The proof merges z with a number on the other side of 1, which keeps the excess of the
   sum and never lowers the product.
   */
  lemma {:induction false} MeanBoundsProduct(x: real, y: real, z: real, i: nat, j: nat)
    requires 0.0 <= y <= 1.0 <= x && 0.0 <= z
    requires Times(i, x) + Times(j, y) + z <= (i + j + 1) as real
    ensures Product(x, y, z, i, j) <= 1.0
    ensures z != 1.0 ==> Product(x, y, z, i, j) < 1.0
    decreases i + j
  {
    if i == 0 && z <= 1.0 {
      PowAtMostOne(y, j);
      ProductAtMostOne(Pow(y, j), z);
    } else if z <= 1.0 {
      MeanBoundsProduct(x, y, x + z - 1.0, i - 1, j);
      MergeLarge(x, y, z, i - 1, j);
    } else {
      TimesAtLeast(i, x);
      TimesIsProduct(j, 1.0);
      MeanBoundsProduct(x, y, y + z - 1.0, i, j - 1);
      MergeSmall(x, y, z, i, j - 1);
    }
  }

  lemma {:induction false} TimesAtLeast(n: nat, x: real)
    requires x >= 1.0
    ensures Times(n, x) >= n as real
  {
    if n > 0 {
      TimesAtLeast(n - 1, x);
    }
  }

  lemma MergeLarge(x: real, y: real, z: real, i: nat, j: nat)
    requires 0.0 <= y && 0.0 <= z <= 1.0 <= x
    ensures Product(x, y, z, i + 1, j) <= Product(x, y, x + z - 1.0, i, j)
    ensures x > 1.0 && z < 1.0 ==>
      Product(x, y, z, i + 1, j) < Product(x, y, x + z - 1.0, i, j) || Product(x, y, z, i + 1, j) == 0.0
  {
    PowersNonNegative(x, y, i, j);
    PowersStepLeft(x, y, i, j);
    MergeFactor(x, z, Powers(x, y, i, j), Powers(x, y, i + 1, j));
  }

  lemma MergeSmall(x: real, y: real, z: real, i: nat, j: nat)
    requires 0.0 <= y < 1.0 <= x && z > 1.0
    ensures Product(x, y, z, i, j + 1) < Product(x, y, y + z - 1.0, i, j) || Product(x, y, z, i, j + 1) == 0.0
  {
    PowersNonNegative(x, y, i, j);
    PowersStepRight(x, y, i, j);
    MergeFactor(y, z, Powers(x, y, i, j), Powers(x, y, i, j + 1));
  }

  lemma PowersNonNegative(x: real, y: real, i: nat, j: nat)
    requires x >= 0.0 && y >= 0.0
    ensures Powers(x, y, i, j) >= 0.0
    ensures x > 0.0 && y > 0.0 ==> Powers(x, y, i, j) > 0.0
  {
    PowNonNegative(x, i);
    PowNonNegative(y, j);
    ProductSign(Pow(x, i), Pow(y, j));
  }

  lemma PowersStepLeft(x: real, y: real, i: nat, j: nat)
    ensures Powers(x, y, i + 1, j) == x * Powers(x, y, i, j)
  {
    PullOut(x, Pow(x, i), Pow(y, j), Pow(x, i + 1));
  }

  lemma PowersStepRight(x: real, y: real, i: nat, j: nat)
    ensures Powers(x, y, i, j + 1) == y * Powers(x, y, i, j)
  {
    PullOut(y, Pow(y, j), Pow(x, i), Pow(y, j + 1));
    Swap(Pow(x, i), Pow(y, j), Pow(y, j + 1), y);
  }

  lemma Swap(p: real, q: real, r: real, a: real)
    ensures p * r == r * p && a * (p * q) == a * (q * p)
  {
  }

  lemma PullOut(a: real, p: real, q: real, ap: real)
    requires ap == a * p
    ensures ap * q == a * (p * q)
  {
  }

  /** Replacing two numbers on opposite sides of 1 by a + b - 1 never lowers a product. */
  lemma MergeFactor(a: real, b: real, rest: real, whole: real)
    requires rest >= 0.0 && (b > 1.0 >= a || b <= 1.0 <= a)
    requires whole == a * rest
    ensures whole * b <= rest * (a + b - 1.0)
    ensures a != 1.0 && b != 1.0 ==> whole * b < rest * (a + b - 1.0) || whole * b == 0.0
  {
    var gap := (a - 1.0) * (b - 1.0);
    var change := rest * gap;
    Excess(a, b, rest);
    assert a * rest * b == rest * (a * b);
    ProductSign(a - 1.0, b - 1.0);
    ProductSign(1.0 - a, b - 1.0);
    assert (1.0 - a) * (b - 1.0) == -gap;
    ProductSign(rest, gap);
  }

  lemma Excess(a: real, b: real, rest: real)
    ensures rest * (a * b) == rest * (a + b - 1.0) + rest * ((a - 1.0) * (b - 1.0))
  {
    assert a * b == (a + b - 1.0) + (a - 1.0) * (b - 1.0);
  }

  /** The expected logarithmic drift at fraction g has the sign of this: positive below the Kelly point. */
  function Pull(g: real, cost: real, wins: nat, losses: nat): real {
    wins as real - (wins + losses) as real * cost - g * ((wins + losses) as real * (1.0 - cost))
  }

  /**
   Moving the fraction from f to g, in the direction of the Kelly point and not past it,
   strictly raises the wealth.
   */
  lemma CloserToKellyIsRicher(f: real, g: real, cost: real, wins: nat, losses: nat)
    requires 0.0 < cost < 1.0 && 0.0 <= f <= 1.0 && 0.0 <= g < 1.0 && f != g
    requires wins + losses > 0
    requires f > g ==> Pull(g, cost, wins, losses) <= 0.0
    requires f < g ==> Pull(g, cost, wins, losses) >= 0.0
    ensures Wealth(f, cost, wins, losses) < Wealth(g, cost, wins, losses)
  {
    RatiosBelowOne(f, g, cost, wins, losses);
    var w, l := WinFactor(g, cost), LossFactor(g);
    var x, y := Ratio(WinFactor(f, cost), w), Ratio(LossFactor(f), l);
    PowersOfRatio(x, y, w, l, WinFactor(f, cost), LossFactor(f), wins, losses);
    PowersNonNegative(w, l, wins, losses);
    ScaleDown(Powers(x, y, wins, losses), Wealth(g, cost, wins, losses), Wealth(f, cost, wins, losses));
  }

  function Ratio(a: real, b: real): (r: real)
    requires b > 0.0
    ensures r * b == a
  {
    Over(a, b)
  }

  lemma RatiosBelowOne(f: real, g: real, cost: real, wins: nat, losses: nat)
    requires 0.0 < cost < 1.0 && 0.0 <= f <= 1.0 && 0.0 <= g < 1.0 && f != g
    requires wins + losses > 0
    requires f > g ==> Pull(g, cost, wins, losses) <= 0.0
    requires f < g ==> Pull(g, cost, wins, losses) >= 0.0
    ensures WinFactor(g, cost) > 0.0 && LossFactor(g) > 0.0
    ensures Powers(Ratio(WinFactor(f, cost), WinFactor(g, cost)),
                   Ratio(LossFactor(f), LossFactor(g)), wins, losses) < 1.0
  {
    RatioSides(f, g, cost);
    var x, y := Ratio(WinFactor(f, cost), WinFactor(g, cost)), Ratio(LossFactor(f), LossFactor(g));
    ProductSign(f - g, Pull(g, cost, wins, losses));
    ProductSign(Pull(g, cost, wins, losses), f - g);
    RatioMean(f, g, cost, wins, losses);
    RatiosShrink(x, y, wins, losses);
  }

  lemma PowersOfRatio(x: real, y: real, w: real, l: real, xw: real, yl: real, i: nat, j: nat)
    requires xw == x * w && yl == y * l
    ensures Powers(xw, yl, i, j) == Powers(x, y, i, j) * Powers(w, l, i, j)
  {
    PowOfProduct(x, w, i);
    PowOfProduct(y, l, j);
    RearrangeProducts(Pow(x, i), Pow(w, i), Pow(y, j), Pow(l, j), Pow(xw, i), Pow(yl, j));
  }

  lemma RearrangeProducts(a: real, b: real, c: real, d: real, ab: real, cd: real)
    requires ab == a * b && cd == c * d
    ensures ab * cd == (a * c) * (b * d)
  {
    Rearrange(a, b, c, d);
  }

  /** The two ratios lie on opposite sides of 1. */
  lemma RatioSides(f: real, g: real, cost: real)
    requires 0.0 < cost < 1.0 && 0.0 <= f <= 1.0 && 0.0 <= g < 1.0 && f != g
    ensures WinFactor(g, cost) > 0.0 && LossFactor(g) > 0.0
    ensures f > g ==>
      0.0 <= Ratio(LossFactor(f), LossFactor(g)) < 1.0 < Ratio(WinFactor(f, cost), WinFactor(g, cost))
    ensures f < g ==>
      0.0 <= Ratio(WinFactor(f, cost), WinFactor(g, cost)) < 1.0 < Ratio(LossFactor(f), LossFactor(g))
  {
    FactorsPositive(f, cost);
    FactorsPositive(g, cost);
    OddsGap(f, g, cost);
    CompareRatio(WinFactor(f, cost), WinFactor(g, cost));
    CompareRatio(LossFactor(f), LossFactor(g));
  }

  lemma OddsGap(f: real, g: real, cost: real)
    requires 0.0 < cost < 1.0
    ensures WinFactor(f, cost) - WinFactor(g, cost) == (f - g) * ((1.0 - cost) / cost)
    ensures f > g ==> WinFactor(f, cost) > WinFactor(g, cost)
    ensures f < g ==> WinFactor(f, cost) < WinFactor(g, cost)
  {
    var odds := (1.0 - cost) / cost;
    assert odds > 0.0;
    assert WinFactor(f, cost) == 1.0 + f * odds;
    assert WinFactor(g, cost) == 1.0 + g * odds;
    ProductSign(f - g, odds);
    ProductSign(g - f, odds);
    assert f * odds - g * odds == (f - g) * odds;
  }

  lemma CompareRatio(a: real, b: real)
    requires a >= 0.0 && b > 0.0
    ensures Ratio(a, b) >= 0.0
    ensures a > b ==> Ratio(a, b) > 1.0
    ensures a < b ==> Ratio(a, b) < 1.0
  {
    var r := Ratio(a, b);
    if r < 0.0 { ProductSign(b, r); }
    if a > b && r <= 1.0 { ProductSign(b, r - 1.0); }
    if a < b && r >= 1.0 { ProductSign(b, r - 1.0); }
  }

  /** Weighted by wins and losses, the ratios average at most 1 exactly when the move is towards the Kelly point. */
  lemma RatioMean(f: real, g: real, cost: real, wins: nat, losses: nat)
    requires 0.0 < cost < 1.0 && 0.0 <= f <= 1.0 && 0.0 <= g < 1.0
    requires (f - g) * Pull(g, cost, wins, losses) <= 0.0
    ensures WinFactor(g, cost) > 0.0 && LossFactor(g) > 0.0
    ensures Times(wins, Ratio(WinFactor(f, cost), WinFactor(g, cost)))
          + Times(losses, Ratio(LossFactor(f), LossFactor(g))) <= (wins + losses) as real
  {
    FactorsPositive(g, cost);
    var d := f - g;
    var u, v := RatioForms(f, g, cost, d);
    MeanAtMostOne(wins, losses, cost, g, d, u, v,
      Ratio(WinFactor(f, cost), WinFactor(g, cost)), Ratio(LossFactor(f), LossFactor(g)));
  }

  /** Both ratios as moves away from 1, in proportion to the change d of the fraction. */
  lemma RatioForms(f: real, g: real, cost: real, d: real) returns (u: real, v: real)
    requires 0.0 < cost < 1.0 && 0.0 <= f <= 1.0 && 0.0 <= g < 1.0 && d == f - g
    ensures WinFactor(g, cost) > 0.0 && LossFactor(g) > 0.0
    ensures u * (cost + g * (1.0 - cost)) == 1.0 && v * (1.0 - g) == 1.0 && u > 0.0 && v > 0.0
    ensures Ratio(WinFactor(f, cost), WinFactor(g, cost)) == 1.0 + d * (1.0 - cost) * u
    ensures Ratio(LossFactor(f), LossFactor(g)) == 1.0 - d * v
  {
    FactorsPositive(g, cost);
    ProductSign(g, 1.0 - cost);
    u, v := Inverse(cost + g * (1.0 - cost)), Inverse(1.0 - g);
    WinRatio(f, g, cost, u);
    LossRatio(f, g, v);
  }

  lemma MeanAtMostOne(wins: nat, losses: nat, cost: real, g: real, d: real, u: real, v: real, x: real, y: real)
    requires u * (cost + g * (1.0 - cost)) == 1.0 && v * (1.0 - g) == 1.0 && u > 0.0 && v > 0.0
    requires x == 1.0 + d * (1.0 - cost) * u && y == 1.0 - d * v
    requires d * Pull(g, cost, wins, losses) <= 0.0
    ensures Times(wins, x) + Times(losses, y) <= (wins + losses) as real
  {
    MeanIdentity(wins, losses, cost, g, d, u, v, x, y);
    TimesIsProduct(wins, x);
    TimesIsProduct(losses, y);
    ProductSign(u, v);
    ProductSign(u * v, d * Pull(g, cost, wins, losses));
  }

  function Inverse(x: real): (r: real)
    requires x > 0.0
    ensures r > 0.0 && r * x == 1.0
  {
    1.0 / x
  }

  lemma WinRatio(f: real, g: real, cost: real, u: real)
    requires 0.0 < cost < 1.0 && 0.0 <= g < 1.0
    requires u * (cost + g * (1.0 - cost)) == 1.0
    ensures WinFactor(g, cost) > 0.0
    ensures Ratio(WinFactor(f, cost), WinFactor(g, cost)) == 1.0 + (f - g) * (1.0 - cost) * u
  {
    FactorsPositive(g, cost);
    var w := cost + g * (1.0 - cost);
    assert WinFactor(g, cost) * cost == w;
    assert WinFactor(f, cost) * cost == cost + f * (1.0 - cost);
    var r := 1.0 + (f - g) * (1.0 - cost) * u;
    assert (f - g) * (1.0 - cost) * u * w == (f - g) * (1.0 - cost) * (u * w);
    assert r * w == cost + f * (1.0 - cost);
    assert (r * WinFactor(g, cost)) * cost == WinFactor(f, cost) * cost;
    assert r * WinFactor(g, cost) == WinFactor(f, cost);
  }

  lemma LossRatio(f: real, g: real, v: real)
    requires g < 1.0 && v * (1.0 - g) == 1.0
    ensures Ratio(LossFactor(f), LossFactor(g)) == 1.0 - (f - g) * v
  {
    assert (1.0 - (f - g) * v) * (1.0 - g) == (1.0 - g) - (f - g) * (v * (1.0 - g));
  }

  lemma MeanIdentity(wins: nat, losses: nat, cost: real, g: real, d: real, u: real, v: real, x: real, y: real)
    requires u * (cost + g * (1.0 - cost)) == 1.0 && v * (1.0 - g) == 1.0
    requires x == 1.0 + d * (1.0 - cost) * u && y == 1.0 - d * v
    ensures (wins as real) * x + (losses as real) * y
         == (wins + losses) as real + (u * v) * (d * Pull(g, cost, wins, losses))
  {
    var a, b := wins as real, losses as real;
    var w, l := cost + g * (1.0 - cost), 1.0 - g;
    var pull := Pull(g, cost, wins, losses);
    assert pull == a * (1.0 - cost) * l - b * w;
    assert (u * v) * (a * (1.0 - cost) * l) == a * (1.0 - cost) * u * (v * l);
    assert (u * v) * (b * w) == b * v * (u * w);
    assert (u * v) * pull == a * (1.0 - cost) * u - b * v;
    assert (u * v) * (d * pull) == d * ((u * v) * pull);
    assert a * x == a + d * (a * (1.0 - cost) * u);
    assert b * y == b - d * (b * v);
  }

  lemma ScaleDown(ratio: real, whole: real, part: real)
    requires ratio < 1.0 && whole > 0.0 && part == ratio * whole
    ensures part < whole
  {
    ProductSign(whole, ratio - 1.0);
  }

  lemma FactorsPositive(f: real, cost: real)
    requires 0.0 < cost < 1.0 && 0.0 <= f <= 1.0
    ensures WinFactor(f, cost) >= 1.0 && LossFactor(f) >= 0.0
    ensures f < 1.0 ==> LossFactor(f) > 0.0
  {
    assert f * (1.0 - cost) >= 0.0;
  }

  /** If all but the last of the ratios' powers multiply out below 1, so do all of them. */
  lemma RatiosShrink(x: real, y: real, wins: nat, losses: nat)
    requires (0.0 <= y < 1.0 < x) || (0.0 <= x < 1.0 < y)
    requires wins + losses > 0
    requires Times(wins, x) + Times(losses, y) <= (wins + losses) as real
    ensures Powers(x, y, wins, losses) < 1.0
  {
    if x < y {
      if losses > 0 {
        MeanBoundsProduct(y, x, y, losses - 1, wins);
      } else {
        MeanBoundsProduct(y, x, x, 0, wins - 1);
      }
      LastFactor(y, x, losses, wins);
    } else {
      if wins > 0 {
        MeanBoundsProduct(x, y, x, wins - 1, losses);
      } else {
        MeanBoundsProduct(x, y, y, 0, losses - 1);
      }
      LastFactor(x, y, wins, losses);
    }
  }

  lemma LastFactor(x: real, y: real, i: nat, j: nat)
    requires i + j > 0
    ensures Powers(x, y, i, j) == Powers(y, x, j, i)
    ensures i > 0 ==> Powers(x, y, i, j) == Product(x, y, x, i - 1, j)
    ensures i == 0 ==> Powers(x, y, i, j) == Product(x, y, y, 0, j - 1)
  {
    if i > 0 {
      MoveLast(x, Pow(x, i - 1), Pow(y, j), Pow(x, i));
    }
  }

  lemma MoveLast(x: real, p: real, q: real, whole: real)
    requires whole == x * p
    ensures whole * q == p * q * x
  {
    assert x * p * q == p * q * x;
  }

  lemma WealthAtZero(cost: real, wins: nat, losses: nat)
    requires cost > 0.0
    ensures Wealth(0.0, cost, wins, losses) == 1.0
  {
    assert WinFactor(0.0, cost) == 1.0;
    PowOfOne(wins);
    PowOfOne(losses);
  }

  /** Up to the Kelly fraction the pull is upwards, from it on downwards. */
  lemma PullAroundKelly(g: real, cost: real, wins: nat, losses: nat)
    requires 0.0 < cost < 1.0 && losses > 0 && g >= 0.0
    ensures var k := KellyFraction(wins as real / (wins + losses) as real, cost);
      && 0.0 <= k < 1.0
      && (0.0 < g <= k ==> Pull(g, cost, wins, losses) >= 0.0)
      && (g >= k ==> Pull(g, cost, wins, losses) <= 0.0)
  {
    var n := (wins + losses) as real;
    var p := wins as real / n;
    assert p * n == wins as real;
    assert 0.0 <= p < 1.0;
    var edge := p - cost - g * (1.0 - cost);
    PullIsEdge(g, cost, wins, losses, p);
    ProductSign(n, edge);
    EdgeSign(p, cost, g, edge);
  }

  /** Against a fraction g the edge has the sign of the distance to the Kelly fraction. */
  lemma EdgeSign(p: real, cost: real, g: real, edge: real)
    requires 0.0 < cost < 1.0 && 0.0 <= p < 1.0 && g >= 0.0 && edge == p - cost - g * (1.0 - cost)
    ensures var k := KellyFraction(p, cost);
      0.0 <= k < 1.0 && (0.0 < g <= k ==> edge >= 0.0) && (g >= k ==> edge <= 0.0)
  {
    var f := (p - cost) / (1.0 - cost);
    assert f * (1.0 - cost) == p - cost;
    ProductSign(1.0 - cost, f - 1.0);
    ProductSign(1.0 - cost, f - g);
    ProductSign(1.0 - cost, g - f);
    ProductSign(1.0 - cost, g);
    assert edge == (1.0 - cost) * (f - g);
  }

  lemma PullIsEdge(g: real, cost: real, wins: nat, losses: nat, p: real)
    requires p * (wins + losses) as real == wins as real
    ensures Pull(g, cost, wins, losses) == (wins + losses) as real * (p - cost - g * (1.0 - cost))
  {
  }

  /** Below the Kelly fraction more stake means more growth, so wealth never shrinks there. */
  lemma GrowsUpToKelly(f: real, g: real, cost: real, wins: nat, losses: nat)
    requires 0.0 < cost < 1.0 && wins + losses > 0
    requires 0.0 <= f < g <= KellyFraction(wins as real / (wins + losses) as real, cost)
    ensures 1.0 <= Wealth(f, cost, wins, losses) < Wealth(g, cost, wins, losses)
  {
    assert losses > 0;
    PullAroundKelly(f, cost, wins, losses);
    PullAroundKelly(g, cost, wins, losses);
    CloserToKellyIsRicher(f, g, cost, wins, losses);
    WealthAtZero(cost, wins, losses);
    if f > 0.0 {
      CloserToKellyIsRicher(0.0, f, cost, wins, losses);
    }
  }

  /** The fraction k leaves more wealth than every other fraction between nothing and everything. */
  ghost predicate BestFraction(k: real, cost: real, wins: nat, losses: nat)
    requires cost > 0.0
  {
    forall f | 0.0 <= f <= 1.0 && f != k :: Wealth(f, cost, wins, losses) < Wealth(k, cost, wins, losses)
  }

  /**
   KellyFraction is the unique best fraction exactly when the record has a loss. On a
   record without losses the model probability is 1, which the guard turns into no bet at
   all, and then staking everything would have done at least as well.
   */
  lemma KellyIsOptimal(cost: real, wins: nat, losses: nat)
    requires 0.0 < cost < 1.0 && wins + losses > 0
    ensures var k := KellyFraction(wins as real / (wins + losses) as real, cost);
      0.0 <= k < 1.0 && (BestFraction(k, cost, wins, losses) <==> losses > 0)
  {
    var k := KellyFraction(wins as real / (wins + losses) as real, cost);
    if losses > 0 {
      PullAroundKelly(k, cost, wins, losses);
      forall f | 0.0 <= f <= 1.0 && f != k
        ensures Wealth(f, cost, wins, losses) < Wealth(k, cost, wins, losses)
      {
        CloserToKellyIsRicher(f, k, cost, wins, losses);
      }
    } else {
      NoLossMeansNoBet(cost, wins);
    }
  }

  lemma NoLossMeansNoBet(cost: real, wins: nat)
    requires 0.0 < cost < 1.0 && wins > 0
    ensures KellyFraction(wins as real / wins as real, cost) == 0.0
    ensures Wealth(1.0, cost, wins, 0) >= Wealth(0.0, cost, wins, 0)
  {
    WealthAtZero(cost, wins, 0);
    FactorsPositive(1.0, cost);
    PowAtLeastOne(WinFactor(1.0, cost), wins);
  }

  lemma {:induction false} PowAtLeastOne(x: real, n: nat)
    requires x >= 1.0
    ensures Pow(x, n) >= 1.0
  {
    if n > 0 {
      PowAtLeastOne(x, n - 1);
      ProductSign(x - 1.0, Pow(x, n - 1));
    }
  }
}
