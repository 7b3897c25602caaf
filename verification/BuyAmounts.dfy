/** How many purchases, what is kept back for fees, and how the rest is split
    (offchain/scheduler/fees.ts), in lamports. */
module BuyAmounts {
  const TENTH_SOL: nat := 100_000_000
  const SOL: nat := 1_000_000_000
  const ATA_FEE: nat := 2_040_000
  const BUY_TX_FEE: nat := 105_000

  function CalculateN(total: int): (n: nat)
    ensures n <= 100
    ensures n == 0 <==> total <= 0
    ensures n > 1 ==> total > 100_000_000
    ensures n > 10 ==> total > 1_000_000_000
  {
    if total <= 0 then 0
    else if total <= TENTH_SOL then 1
    else if total <= SOL then if total / 100_000_000 < 2 then 2 else total / 100_000_000
    else if total <= 5_000_000_000 then 10 + (total - 1_000_000_000) * 5 / 2_000_000_000
    else if total <= 50_000_000_000 then 20 + (total - 5_000_000_000) * 16 / 9_000_000_000
    else 100
  }

  /** What is left for buying once the fees are kept back, each purchase's twice over. */
  function NetAmount(total: int, n: nat, hasAta: bool): (net: nat)
    ensures net <= total || net == 0
  {
    var fees := (if hasAta then 0 else ATA_FEE) + n * 105_000 * 2;
    if total <= fees then 0 else total - fees
  }

  function Total(amounts: seq<int>): int {
    if amounts == [] then 0 else Total(amounts[..|amounts| - 1]) + amounts[|amounts| - 1]
  }

  /** Rounded half up. */
  function Rounded(a: int, d: int): int
    requires d > 0
  {
    (2 * a + d) / (2 * d)
  }

  lemma RoundedIs(a: int, d: int)
    requires d > 0
    ensures 2 * a - d < 2 * d * Rounded(a, d) <= 2 * a + d
  {
    var x, y := 2 * a + d, 2 * d;
    assert x == y * (x / y) + x % y && 0 <= x % y < y;
  }

  function Sum(weights: seq<nat>): nat {
    if weights == [] then 0 else Sum(weights[..|weights| - 1]) + weights[|weights| - 1]
  }

  /** Multipliers between nine and eleven tenths, on any scale. */
  predicate WithinTenth(weights: seq<nat>, scale: nat) {
    scale > 0 && forall i | 0 <= i < |weights| :: 9 * scale <= weights[i] <= 11 * scale
  }

  function ShareOf(net: nat, weight: nat, whole: nat): int
    requires whole > 0
  {
    Rounded(net * weight, whole)
  }

  function Shares(net: nat, weights: seq<nat>, whole: nat): seq<int>
    requires whole > 0
  {
    if weights == [] then []
    else Shares(net, weights[..|weights| - 1], whole) + [ShareOf(net, weights[|weights| - 1], whole)]
  }

  /** Splits an amount by random weights. Every part but the last is its share,
      rounded; the last takes what is left, so the parts add up exactly. The parts are
      not within a tenth of their mean: the weights are normalised first. */
  method SplitAmount(net: nat, n: nat, weights: seq<nat>, scale: nat) returns (amounts: seq<int>)
    requires |weights| == n && WithinTenth(weights, scale)
    ensures net == 0 || n == 0 ==> amounts == []
    ensures net > 0 && n > 0 ==> |amounts| == n && Total(amounts) == net
    ensures net > 0 && n > 1 ==> Sum(weights) > 0 && amounts[..n - 1] == Shares(net, weights[..n - 1], Sum(weights))
  {
    amounts := [];
    if n == 0 || net == 0 { return; }
    if n == 1 {
      amounts := [net];
      assert amounts[..0] == [];
      return;
    }
    SumPositive(weights, scale);
    var whole := Sum(weights);
    var sum := 0;
    for i := 0 to n
      invariant if i == n then |amounts| == n && amounts[..n - 1] == Shares(net, weights[..n - 1], whole)
                && Total(amounts) == net
                else amounts == Shares(net, weights[..i], whole) && |amounts| == i && sum == Total(amounts)
    {
      assert weights[..i + 1][..i] == weights[..i];
      var value := if i == n - 1 then net - sum else ShareOf(net, weights[i], whole);
      assert (amounts + [value])[..i] == amounts;
      amounts := amounts + [value];
      sum := sum + value;
    }
  }

  lemma {:induction false} SharesWithin(net: nat, weights: seq<nat>, whole: nat)
    requires whole > 0
    ensures |Shares(net, weights, whole)| == |weights|
    ensures forall i | 0 <= i < |weights| :: 0 <= Shares(net, weights, whole)[i]
    ensures 2 * (net * Sum(weights)) - |weights| * whole <= 2 * whole * Total(Shares(net, weights, whole))
                                                         <= 2 * (net * Sum(weights)) + |weights| * whole
  {
    if weights != [] {
      var n := |weights| - 1;
      SharesWithin(net, weights[..n], whole);
      var before, share := Shares(net, weights[..n], whole), ShareOf(net, weights[n], whole);
      assert (before + [share])[..n] == before;
      RoundedIs(net * weights[n], whole);
      OneMoreShare(net, Sum(weights[..n]), weights[n], whole, Total(before), share, n);
    }
  }

  lemma OneMoreShare(net: nat, w1: nat, w2: nat, whole: nat, total: int, share: int, n: nat)
    requires whole > 0
    requires 2 * (net * w1) - n * whole <= 2 * whole * total <= 2 * (net * w1) + n * whole
    requires 2 * (net * w2) - whole < 2 * whole * share <= 2 * (net * w2) + whole
    ensures 2 * (net * (w1 + w2)) - (n + 1) * whole <= 2 * whole * (total + share) <= 2 * (net * (w1 + w2))
            + (n + 1) * whole
    ensures 0 <= share
  {
    assert net * (w1 + w2) == net * w1 + net * w2;
    assert (n + 1) * whole == n * whole + whole;
    assert 2 * whole * (total + share) == 2 * whole * total + 2 * whole * share;
    assert share <= -1 ==> 2 * whole * share <= -2 * whole;
  }

  // --- How far a part is from an even share -------------------------------------------

  /** Within a tenth of `net` over `n`. */
  predicate InTenth(part: int, net: nat, n: nat) {
    9 * net <= 10 * (n * part) <= 11 * net
  }

  /** The least and the most whole amounts within a tenth. */
  function Least(net: nat, n: nat): int
    requires n > 0
  {
    (9 * net + 10 * n - 1) / (10 * n)
  }

  function Most(net: nat, n: nat): int
    requires n > 0
  {
    11 * net / (10 * n)
  }

  lemma QuotientIs(a: int, d: int, q: int)
    requires d > 0
    ensures q <= a / d <==> d * q <= a
  {
    var r := a / d;
    assert a == d * r + a % d && 0 <= a % d < d;
    if q <= r {
      assert d * q <= d * r;
    } else {
      assert d * (r + 1) <= d * q;
    }
  }

  /** The weight, against the weights' sum, reaches the least amount within a tenth and
      not the next above the most: for large amounts, ten times the weight is between nine
      and eleven times the mean weight. */
  predicate InTenthByWeight(net: nat, weight: nat, whole: nat, n: nat)
    requires n > 0
  {
    2 * whole * Least(net, n) <= 2 * (net * weight) + whole < 2 * whole * (Most(net, n) + 1)
  }

  /** A rounded share is within a tenth of an even one exactly if its weight is. */
  lemma ShareWithinTenth(net: nat, weight: nat, whole: nat, n: nat)
    requires whole > 0 && n > 0
    ensures InTenth(ShareOf(net, weight, whole), net, n) <==> InTenthByWeight(net, weight, whole, n)
  {
    var part, a := ShareOf(net, weight, whole), 2 * (net * weight) + whole;
    assert 10 * (n * part) == 10 * n * part;
    QuotientIs(a, 2 * whole, Least(net, n));
    QuotientIs(a, 2 * whole, Most(net, n) + 1);
    QuotientIs(11 * net, 10 * n, part);
    LeastIs(net, n, part);
  }

  /** In any amount of some size that comes to the weight against the mean weight: within
      a tenth of it, a part is within a tenth of an even share, and beyond, it is not. */
  lemma TenthOfTheMeanWeight(net: nat, weight: nat, whole: nat, n: nat)
    requires whole > 0 && n > 0 && 5 * (n * whole) < net
    ensures 9 * whole < 10 * (n * weight) < 11 * whole ==> InTenth(ShareOf(net, weight, whole), net, n)
    ensures InTenth(ShareOf(net, weight, whole), net, n) ==> 9 * whole <= 10 * (n * weight) <= 11 * whole
  {
    var part := ShareOf(net, weight, whole);
    RoundedIs(net * weight, whole);
    ByWeights(net, weight, whole, n, part);
    NearEachOther(net, whole, 10 * (n * part), 10 * (n * weight), 5 * (n * whole));
  }

  lemma NearEachOther(net: nat, whole: nat, x: int, y: int, d: nat)
    requires whole > 0 && d < net && y * net - d <= x * whole <= y * net + d
    ensures 9 * whole < y < 11 * whole ==> 9 * net <= x <= 11 * net
    ensures 9 * net <= x <= 11 * net ==> 9 * whole <= y <= 11 * whole
  {
    Above(net, whole, x, y, d, 9);
    Below(net, whole, x, y, d, 11);
    Above(net, whole, x, y, d, 11);
    Below(net, whole, x, y, d, 9);
  }

  lemma ByWeights(net: nat, weight: nat, whole: nat, n: nat, part: int)
    requires 2 * (net * weight) - whole <= 2 * whole * part <= 2 * (net * weight) + whole && n > 0
    ensures 10 * (n * weight) * net - 5 * (n * whole) <= 10 * (n * part) * whole <= 10 * (n * weight) * net
            + 5 * (n * whole)
  {
    var a, b := 2 * (net * weight), 2 * whole * part;
    Times(a - whole, b, n);
    Times(b, a + whole, n);
    assert 5 * (a * n) == 10 * (n * weight) * net && 5 * (b * n) == 10 * (n * part) * whole;
  }

  lemma Above(net: nat, whole: nat, x: int, y: int, d: nat, k: nat)
    requires whole > 0 && d < net && y * net - d <= x * whole
    ensures k * whole < y ==> k * net < x
  {
    if k * whole < y {
      InOrder(k * whole + 1, y, net);
      assert (k * whole + 1) * net == k * net * whole + net;
      InOrder(x, k * net, whole);
    }
  }

  lemma Below(net: nat, whole: nat, x: int, y: int, d: nat, k: nat)
    requires whole > 0 && d < net && x * whole <= y * net + d
    ensures y < k * whole ==> x < k * net
  {
    if y < k * whole {
      InOrder(y, k * whole - 1, net);
      assert (k * whole - 1) * net == k * net * whole - net;
      InOrder(k * net, x, whole);
    }
  }

  lemma InOrder(a: int, b: int, c: nat)
    requires c > 0
    ensures a <= b <==> a * c <= b * c
  {
    if a <= b {
      assert (b - a) * c == b * c - a * c;
    } else {
      Times(b + 1, a, c);
      assert (b + 1) * c == b * c + c;
    }
  }

  lemma LeastIs(net: nat, n: nat, part: int)
    requires n > 0
    ensures Least(net, n) <= part <==> 9 * net <= 10 * n * part
  {
    QuotientIs(9 * net + 10 * n - 1, 10 * n, part + 1);
    assert 10 * n * (part + 1) == 10 * n * part + 10 * n;
  }

  lemma {:induction false} SharesAt(net: nat, weights: seq<nat>, whole: nat, i: nat)
    requires whole > 0 && i < |weights|
    ensures |Shares(net, weights, whole)| == |weights|
            && Shares(net, weights, whole)[i] == ShareOf(net, weights[i], whole)
  {
    var n := |weights| - 1;
    SharesWithin(net, weights[..n], whole);
    if i < n {
      SharesAt(net, weights[..n], whole, i);
    }
  }

  /** Which parts of a split are within a tenth: an exact condition on each part's weight,
      and for the last, which takes the others' rounding, how far it can be from its own
      share. */
  lemma PartsWithinTenth(net: nat, weights: seq<nat>, scale: nat, amounts: seq<int>)
    requires |weights| > 1 && WithinTenth(weights, scale) && |amounts| == |weights| && Total(amounts) == net
    requires Sum(weights) > 0 && amounts[..|weights| - 1] == Shares(net, weights[..|weights| - 1], Sum(weights))
    ensures forall i | 0 <= i < |weights| - 1 ::
              InTenth(amounts[i], net, |weights|) <==> InTenthByWeight(net, weights[i], Sum(weights), |weights|)
    ensures var last, whole := |weights| - 1, Sum(weights);
            2 * (net * weights[last]) - last * whole <= 2 * (whole * amounts[last]) <= 2 * (net * weights[last])
              + last * whole
  {
    hide InTenth, InTenthByWeight, ShareOf;
    var n, whole := |weights| - 1, Sum(weights);
    forall i | 0 <= i < n ensures InTenth(amounts[i], net, n + 1) <==> InTenthByWeight(net, weights[i], whole, n + 1) {
      SharesAt(net, weights[..n], whole, i);
      assert amounts[i] == amounts[..n][i] && weights[i] == weights[..n][i];
      ShareWithinTenth(net, weights[i], whole, n + 1);
    }
    SharesWithin(net, weights[..n], whole);
    LastIsNear(net, Sum(weights[..n]), weights[n], whole, Total(amounts[..n]), amounts[n], n);
  }

  lemma LastIsNear(net: nat, w1: nat, w2: nat, whole: nat, total: int, last: int, n: nat)
    requires whole == w1 + w2 && total + last == net
    requires 2 * (net * w1) - n * whole <= 2 * whole * total <= 2 * (net * w1) + n * whole
    ensures 2 * (net * w2) - n * whole <= 2 * (whole * last) <= 2 * (net * w2) + n * whole
  {
    LastIsRest(net, w1, w2, whole, total, last);
    assert 2 * whole * total == 2 * (whole * total);
  }

  lemma OneMoreWeight(net: nat, weights: seq<nat>, weight: nat, whole: nat)
    requires whole > 0
    ensures Sum(weights + [weight]) == Sum(weights) + weight
    ensures Shares(net, weights + [weight], whole) == Shares(net, weights, whole) + [ShareOf(net, weight, whole)]
    ensures Sum([]) == 0 && Shares(net, [], whole) == []
  {
    assert (weights + [weight])[..|weights|] == weights;
  }

  lemma OneMoreAmount(amounts: seq<int>, amount: int)
    ensures Total(amounts + [amount]) == Total(amounts) + amount && Total([]) == 0
  {
    assert (amounts + [amount])[..|amounts|] == amounts;
  }

  /** Weights of 0.9, 1.1 and 1.1: the first part of a thousand is 290, more than a tenth
      below a third of it. */
  lemma PartLeavesTheTenth()
    ensures WithinTenth([9, 11, 11], 1) && Sum([9, 11, 11]) == 31
    ensures Shares(1000, [9, 11], 31) == [290, 355] && Total([290, 355, 355]) == 1000
    ensures !InTenth(290, 1000, 3) && Least(1000, 3) == 300
  {
    hide Sum, Shares, Total;
    assert ShareOf(1000, 9, 31) == 290 && ShareOf(1000, 11, 31) == 355;
    OneMoreWeight(1000, [], 9, 31);
    OneMoreWeight(1000, [9], 11, 31);
    OneMoreWeight(1000, [9, 11], 11, 31);
    OneMoreAmount([], 290);
    OneMoreAmount([290], 355);
    OneMoreAmount([290, 355], 355);
    assert [] + [9] == [9] && [9] + [11] == [9, 11] && [9, 11] + [11] == [9, 11, 11];
    assert [] + [290] == [290] && [290] + [355] == [290, 355] && [290, 355] + [355] == [290, 355, 355];
  }

  /** No part of a real purchase is negative: what is left for the last one is still at
      least nine elevenths of an even share, less the others' rounding. */
  lemma NoPartNegative(net: nat, weights: seq<nat>, scale: nat, amounts: seq<int>)
    requires |weights| > 1 && WithinTenth(weights, scale) && |amounts| == |weights| && Total(amounts) == net
    requires Sum(weights) > 0 && amounts[..|weights| - 1] == Shares(net, weights[..|weights| - 1], Sum(weights))
    requires 11 * (|weights| * (|weights| - 1)) <= 18 * net
    ensures forall i | 0 <= i < |amounts| :: 0 <= amounts[i]
  {
    var n, whole := |weights| - 1, Sum(weights);
    SharesWithin(net, weights[..n], whole);
    SumPositive(weights, scale);
    assert 9 * scale <= weights[n];
    LastPart(net, Sum(weights[..n]), weights[n], whole, scale, n, Total(amounts[..n]), amounts[n]);
    forall i | 0 <= i < n ensures 0 <= amounts[i] {
      assert amounts[i] == amounts[..n][i];
    }
  }

  lemma LastPart(net: nat, w1: nat, w2: nat, whole: nat, scale: nat, n: nat, total: int, last: int)
    requires whole == w1 + w2 && 0 < whole <= 11 * (n + 1) * scale && 9 * scale <= w2
    requires 2 * whole * total <= 2 * (net * w1) + n * whole && total + last == net
    requires 11 * ((n + 1) * n) <= 18 * net
    ensures 0 <= last
  {
    RoundingFits(net, w2, whole, scale, n);
    LastIsRest(net, w1, w2, whole, total, last);
    NotBelowZero(whole, last);
  }

  lemma LastIsRest(net: int, w1: int, w2: int, whole: int, total: int, last: int)
    requires whole == w1 + w2 && total + last == net
    ensures whole * last == net * w1 + net * w2 - whole * total
  {
    assert net * whole == net * w1 + net * w2;
    assert whole * net == whole * total + whole * last;
  }

  lemma NotBelowZero(whole: int, x: int)
    requires whole > 0 && 0 <= whole * x
    ensures 0 <= x
  {
    assert x <= -1 ==> whole * x + whole <= 0;
  }

  /** All the rounding together is less than the last part's share. */
  lemma RoundingFits(net: nat, w2: nat, whole: nat, scale: nat, n: nat)
    requires whole <= 11 * (n + 1) * scale && 9 * scale <= w2 && 11 * ((n + 1) * n) <= 18 * net
    ensures n * whole <= 2 * (net * w2)
  {
    var k := 11 * ((n + 1) * n);
    calc {
      n * whole;
    <=
      n * (11 * (n + 1) * scale);
    ==
      k * scale;
    <= { Times(k, 18 * net, scale); }
      (18 * net) * scale;
    ==
      2 * (net * (9 * scale));
    <= { Times(9 * scale, w2, net); }
      2 * (net * w2);
    }
  }

  lemma Times(a: int, b: int, c: nat)
    requires a <= b
    ensures a * c <= b * c
  {
  }

  lemma EnoughForAll(total: int, hasAta: bool)
    requires CalculateN(total) > 1
    ensures var n := CalculateN(total); var net := NetAmount(total, n, hasAta);
            11 * (n * (n - 1)) <= 18 * net
  {
    var n := CalculateN(total);
    if n <= 10 {
      assert n * (n - 1) <= 10 * 9;
    } else {
      assert n * (n - 1) <= 100 * 99;
    }
  }

  lemma {:induction false} SumPositive(weights: seq<nat>, scale: nat)
    requires WithinTenth(weights, scale)
    ensures 9 * |weights| * scale <= Sum(weights) <= 11 * |weights| * scale
  {
    if weights != [] {
      var n := |weights| - 1;
      SumPositive(weights[..n], scale);
      assert 9 * (n + 1) * scale == 9 * n * scale + 9 * scale;
      assert 11 * (n + 1) * scale == 11 * n * scale + 11 * scale;
    }
  }
}
