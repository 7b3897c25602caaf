/** The lower bound of a purchase on the bonding curve: the fee read from the fee
    account, the constant-product formula, and the slippage ladder
    (offchain/pumpfun/buy.ts, offchain/scheduler/slippage.ts). */
module Amm {
  import opened Solana
  import opened Bytes

  // --- The highest fee ------------------------------------------------------------------

  /** The flat fees stand after a discriminator, a bump and the admin's key; the number of
      tiers and the tiers after them, each behind its threshold. */
  const FLAT: nat := 41
  const COUNT: nat := 65
  const TIERS: nat := 69
  const THRESHOLD: nat := 16

  function FeesTotal(data: seq<Byte>, offset: nat): nat
    requires offset + 24 <= |data|
  {
    U64(data, offset) + U64(data, offset + 8) + U64(data, offset + 16)
  }

  function TierOffset(i: nat): nat { TIERS + 40 * i + THRESHOLD }

  /** The account holds what its tier count says. */
  predicate WholeAccount(data: seq<Byte>) {
    |data| >= TIERS && TIERS + 40 * U32(data, COUNT) <= |data|
  }

  ghost predicate IsMaxFee(data: seq<Byte>, tiers: nat, fee: nat)
    requires TIERS + 40 * tiers <= |data|
  {
    && FeesTotal(data, FLAT) <= fee && (forall i: nat | i < tiers :: FeesTotal(data, TierOffset(i)) <= fee)
    && (FeesTotal(data, FLAT) == fee || exists i: nat :: i < tiers && FeesTotal(data, TierOffset(i)) == fee)
  }

  /** The highest total rate in the account; none if the account is too small or ends
      before its tiers do. */
  method ParseMaxFeeBps(data: seq<Byte>) returns (fee: Option<nat>)
    ensures fee.Some? <==> WholeAccount(data)
    ensures fee.Some? ==> IsMaxFee(data, U32(data, COUNT), fee.value)
  {
    var offset: nat := FLAT;
    if |data| < offset + 24 + 4 { return None; }
    var max := FeesTotal(data, offset);
    offset := offset + 24;
    var tiers := U32(data, offset);
    offset := offset + 4;
    for i := 0 to tiers
      invariant offset == TIERS + 40 * i && offset <= |data|
      invariant IsMaxFee(data, i, max)
    {
      if offset + 16 + 24 > |data| { return None; }
      offset := offset + 16;
      var total := FeesTotal(data, offset);
      ghost var before := max;
      if total > max {
        max := total;
      }
      OneMoreTier(data, i, before, max);
      offset := offset + 24;
    }
    fee := Some(max);
  }

  lemma OneMoreTier(data: seq<Byte>, i: nat, before: nat, fee: nat)
    requires TIERS + 40 * (i + 1) <= |data| && IsMaxFee(data, i, before)
    requires fee == if FeesTotal(data, TierOffset(i)) > before then FeesTotal(data, TierOffset(i)) else before
    ensures IsMaxFee(data, i + 1, fee)
  {
    if fee == before && FeesTotal(data, FLAT) != fee {
      var k: nat :| k < i && FeesTotal(data, TierOffset(k)) == before;
      assert FeesTotal(data, TierOffset(k)) == fee;
    }
  }

  datatype Fees = Fees(lp: nat, protocol: nat, creator: nat)

  predicate Storable(f: Fees) {
    f.lp < 0x1_0000_0000_0000_0000 && f.protocol < 0x1_0000_0000_0000_0000 && f.creator < 0x1_0000_0000_0000_0000
  }

  function Sum(f: Fees): nat { f.lp + f.protocol + f.creator }

  function EncodeFees(f: Fees): (b: seq<Byte>)
    requires Storable(f)
    ensures |b| == 24
  {
    Bytes64(f.lp) + (Bytes64(f.protocol) + Bytes64(f.creator))
  }

  function EncodeTiers(thresholds: seq<seq<Byte>>, tiers: seq<Fees>): (b: seq<Byte>)
    requires |thresholds| == |tiers| && forall i | 0 <= i < |tiers| ::
               |thresholds[i]| == THRESHOLD && Storable(tiers[i])
    ensures |b| == 40 * |tiers|
  {
    if tiers == [] then []
    else
      var n := |tiers| - 1;
      EncodeTiers(thresholds[..n], tiers[..n]) + (thresholds[n] + EncodeFees(tiers[n]))
  }

  lemma FeesReadBack(front: seq<Byte>, f: Fees, rest: seq<Byte>)
    requires Storable(f)
    ensures FeesTotal(front + (EncodeFees(f) + rest), |front|) == Sum(f)
  {
    var data := front + (EncodeFees(f) + rest);
    var a, b, c := Bytes64(f.lp), Bytes64(f.protocol), Bytes64(f.creator);
    assert data == front + (a + (b + (c + rest)));
    Number64(front, f.lp, b + (c + rest));
    assert data == (front + a) + (b + (c + rest));
    Number64(front + a, f.protocol, c + rest);
    assert data == (front + a + b) + (c + rest);
    Number64(front + a + b, f.creator, rest);
  }

  lemma {:induction false} TierReadsBack(front: seq<Byte>, thresholds: seq<seq<Byte>>, tiers: seq<Fees>,
                                         rest: seq<Byte>, i: nat)
    requires |thresholds| == |tiers| && forall i | 0 <= i < |tiers| ::
               |thresholds[i]| == THRESHOLD && Storable(tiers[i])
    requires i < |tiers|
    ensures FeesTotal(front + (EncodeTiers(thresholds, tiers) + rest), |front| + 40 * i + THRESHOLD) == Sum(tiers[i])
    decreases |tiers|
  {
    var n := |tiers| - 1;
    var before, fees := EncodeTiers(thresholds[..n], tiers[..n]), EncodeFees(tiers[n]);
    Regrouped(front, before, thresholds[n], fees, rest);
    if i < n {
      TierReadsBack(front, thresholds[..n], tiers[..n], (thresholds[n] + fees) + rest, i);
    } else {
      FeesReadBack(front + before + thresholds[n], tiers[n], rest);
    }
  }

  lemma Regrouped(a: seq<Byte>, b: seq<Byte>, c: seq<Byte>, d: seq<Byte>, e: seq<Byte>)
    ensures a + ((b + (c + d)) + e) == a + (b + ((c + d) + e)) == (a + b + c) + (d + e)
  {
  }

  function EncodeConfig(header: seq<Byte>, flat: Fees, thresholds: seq<seq<Byte>>, tiers: seq<Fees>,
                        rest: seq<Byte>): seq<Byte>
    requires |header| == FLAT && Storable(flat) && |tiers| < 4_294_967_296
    requires |thresholds| == |tiers| && forall i | 0 <= i < |tiers| ::
               |thresholds[i]| == THRESHOLD && Storable(tiers[i])
  {
    header + (EncodeFees(flat) + (Bytes32(|tiers|) + (EncodeTiers(thresholds, tiers) + rest)))
  }

  /** Every tier of any fee account is covered by the fee read from it. */
  lemma EveryTierCovered(header: seq<Byte>, flat: Fees, thresholds: seq<seq<Byte>>, tiers: seq<Fees>, rest: seq<Byte>,
                         fee: nat)
    requires |header| == FLAT && Storable(flat) && |tiers| < 4_294_967_296
    requires |thresholds| == |tiers| && forall i | 0 <= i < |tiers| ::
               |thresholds[i]| == THRESHOLD && Storable(tiers[i])
    ensures var data := EncodeConfig(header, flat, thresholds, tiers, rest);
            WholeAccount(data) && U32(data, COUNT) == |tiers|
    ensures var data := EncodeConfig(header, flat, thresholds, tiers, rest);
            IsMaxFee(data, |tiers|, fee) ==>
              && Sum(flat) <= fee && (forall i | 0 <= i < |tiers| :: Sum(tiers[i]) <= fee)
              && (Sum(flat) == fee || exists i :: 0 <= i < |tiers| && Sum(tiers[i]) == fee)
  {
    var data := EncodeConfig(header, flat, thresholds, tiers, rest);
    var count, encoded := Bytes32(|tiers|), EncodeTiers(thresholds, tiers);
    FeesReadBack(header, flat, count + (encoded + rest));
    assert data == (header + EncodeFees(flat)) + (count + (encoded + rest));
    Number32(header + EncodeFees(flat), |tiers|, encoded + rest);
    var front := header + EncodeFees(flat) + count;
    assert data == front + (encoded + rest);
    forall i: nat | i < |tiers| ensures FeesTotal(data, TierOffset(i)) == Sum(tiers[i]) {
      TierReadsBack(front, thresholds, tiers, rest, i);
    }
  }

  // --- The lower bound --------------------------------------------------------------------

  /** What is left for the curve once a fee is taken out of the budget. */
  function CurveIn(spendable: nat, feeBps: nat): nat {
    spendable * 10_000 / (10_000 + feeBps)
  }

  /** What the curve gives for this much. */
  function CurveOut(tokens: nat, sol: nat, input: nat): nat
    requires sol + input > 0
  {
    tokens * input / (sol + input)
  }

  function AfterSlippage(expected: nat, slippageBps: nat): nat {
    expected * (10_000 - (if slippageBps < 10_000 then slippageBps else 10_000)) / 10_000
  }

  /** None is the division by zero of an empty curve and an empty purchase. */
  function MinTokensOut(tokens: nat, sol: nat, spendable: nat, slippageBps: nat, maxFeeBps: nat): Option<nat> {
    var input := CurveIn(spendable, maxFeeBps);
    if sol + input == 0 then None else Some(AfterSlippage(CurveOut(tokens, sol, input), slippageBps))
  }

  lemma Floor(a: int, d: int, q: int)
    requires d > 0 && q == a / d
    ensures d * q <= a < d * q + d
  {
  }

  lemma Times(a: int, b: int, c: nat)
    requires a <= b
    ensures c * a <= c * b
  {
  }

  lemma Cancel(m: nat, a: int, b: int)
    requires m * a < m * b
    ensures a < b
  {
    assert a >= b ==> m * a >= m * b by {
      if a >= b { Times(b, a, m); }
    }
  }

  /** The larger fraction has the larger floor. */
  lemma FloorOrder(a: nat, d: nat, q: int, b: nat, e: nat, p: int)
    requires d > 0 && e > 0
    requires d * q <= a && b < e * p + e
    requires a * e <= b * d
    ensures q <= p
  {
    Times(d * q, a, e);
    Times(b + 1, e * p + e, d);
    Products(d, e, q, p, b);
    Cancel(d * e, q, p + 1);
  }

  lemma Products(d: int, e: int, q: int, p: int, b: int)
    ensures e * (d * q) == (d * e) * q && d * (e * p + e) == (d * e) * (p + 1) && d * (b + 1) == b * d + d
  {
    assert e * (d * q) == (d * e) * q;
    assert (d * e) * (p + 1) == (d * e) * p + d * e;
    assert d * (e * p + e) == d * (e * p) + d * e;
    assert d * (e * p) == (d * e) * p;
  }

  /** A lower fee leaves at least as much for the curve. */
  lemma LowerFeeMoreIn(spendable: nat, fee: nat, maxFee: nat)
    requires fee <= maxFee
    ensures CurveIn(spendable, maxFee) <= CurveIn(spendable, fee) <= spendable
  {
    var a := spendable * 10_000;
    Floor(a, 10_000 + maxFee, CurveIn(spendable, maxFee));
    Floor(a, 10_000 + fee, CurveIn(spendable, fee));
    FloorOrder(a, 10_000 + maxFee, CurveIn(spendable, maxFee), a, 10_000 + fee, CurveIn(spendable, fee));
    assert (10_000 + fee) * spendable == 10_000 * spendable + fee * spendable;
    FloorOrder(a, 10_000 + fee, CurveIn(spendable, fee), spendable, 1, spendable);
  }

  /** More in, no fewer tokens out. */
  lemma MoreInMoreOut(tokens: nat, sol: nat, less: nat, more: nat)
    requires less <= more && sol + less > 0
    ensures CurveOut(tokens, sol, less) <= CurveOut(tokens, sol, more)
  {
    var a, b := tokens * less, tokens * more;
    Floor(a, sol + less, CurveOut(tokens, sol, less));
    Floor(b, sol + more, CurveOut(tokens, sol, more));
    Crossed(tokens, sol, less, more);
    FloorOrder(a, sol + less, CurveOut(tokens, sol, less), b, sol + more, CurveOut(tokens, sol, more));
  }

  lemma Crossed(tokens: nat, sol: nat, less: nat, more: nat)
    requires less <= more
    ensures (tokens * less) * (sol + more) <= (tokens * more) * (sol + less)
  {
    var both := tokens * (less * more);
    Times(less, more, sol);
    Times(sol * less, sol * more, tokens);
    assert (tokens * less) * (sol + more) == (tokens * less) * sol + (tokens * less) * more;
    assert (tokens * more) * (sol + less) == (tokens * more) * sol + (tokens * more) * less;
    assert (tokens * less) * more == both && (tokens * more) * less == both;
    assert (tokens * less) * sol == tokens * (sol * less) && (tokens * more) * sol == tokens * (sol * more);
  }

  lemma SlippageOrder(expected: nat, less: nat, more: nat)
    requires less <= more
    ensures AfterSlippage(expected, more) <= AfterSlippage(expected, less) <= expected
  {
    var keepLess := 10_000 - (if less < 10_000 then less else 10_000);
    var keepMore := 10_000 - (if more < 10_000 then more else 10_000);
    assert expected * keepMore <= expected * keepLess <= expected * 10_000;
  }

  /** The minimum asked for is at most what the curve gives on unmoved reserves, at any
      fee up to the one read; and that never drains the curve. */
  lemma BoundIsWithinTheCurve(tokens: nat, sol: nat, spendable: nat, slippageBps: nat, fee: nat, maxFee: nat)
    requires fee <= maxFee && MinTokensOut(tokens, sol, spendable, slippageBps, maxFee).Some?
    ensures sol + CurveIn(spendable, fee) > 0
    ensures MinTokensOut(tokens, sol, spendable, slippageBps, maxFee).value
            <= CurveOut(tokens, sol, CurveIn(spendable, fee)) <= tokens
    ensures sol > 0 && tokens > 0 ==> CurveOut(tokens, sol, CurveIn(spendable, fee)) < tokens
  {
    var worst, input := CurveIn(spendable, maxFee), CurveIn(spendable, fee);
    LowerFeeMoreIn(spendable, fee, maxFee);
    SlippageOrder(CurveOut(tokens, sol, worst), slippageBps, slippageBps);
    MoreInMoreOut(tokens, sol, worst, input);
    NeverDrained(tokens, sol, input);
  }

  /** And it is no less than that: the budget less the highest fee goes into the curve but
      for the part of a lamport, and all it gives but the tolerated share is asked for, but
      for the part of a token. */
  lemma AsksForTheRest(tokens: nat, sol: nat, spendable: nat, slippageBps: nat, maxFee: nat, into: nat, out: nat,
                       asked: nat)
    requires into * (10_000 + maxFee) <= spendable * 10_000 < (into + 1) * (10_000 + maxFee)
    requires sol + into > 0 && out * (sol + into) <= tokens * into < (out + 1) * (sol + into)
    requires if slippageBps < 10_000
             then 10_000 * asked <= out * (10_000 - slippageBps) < 10_000 * (asked + 1) else asked == 0
    ensures MinTokensOut(tokens, sol, spendable, slippageBps, maxFee) == Some(asked)
    ensures slippageBps == 0 ==> asked == out
    ensures (10_000 - slippageBps) * tokens * into < 10_000 * (asked + 2) * (sol + into)
  {
    FloorIs(spendable * 10_000, 10_000 + maxFee, into);
    FloorIs(tokens * into, sol + into, out);
    if slippageBps < 10_000 {
      FloorIs(out * (10_000 - slippageBps), 10_000, asked);
    }
    WithinTwo(10_000 - slippageBps, tokens * into, sol + into, out, asked);
    assert (10_000 - slippageBps) * tokens * into == (10_000 - slippageBps) * (tokens * into);
  }

  lemma FloorIs(a: nat, d: nat, q: nat)
    requires d > 0 && q * d <= a < (q + 1) * d
    ensures a / d == q
  {
    Floor(a, d, a / d);
    assert d * q == q * d && d * (q + 1) == (q + 1) * d && d * (a / d + 1) == d * (a / d) + d;
    Cancel(d, q, a / d + 1);
    Cancel(d, a / d, q + 1);
  }

  lemma WithinTwo(keep: int, given: nat, d: nat, out: nat, asked: nat)
    requires keep <= 10_000 && d > 0 && given < (out + 1) * d
    requires keep > 0 ==> out * keep < 10_000 * (asked + 1)
    ensures keep * given < 10_000 * (asked + 2) * d
  {
    assert 10_000 * (asked + 2) * d > 0 by {
      Times(1, 10_000 * (asked + 2), d);
    }
    if keep > 0 {
      Times(given, (out + 1) * d - 1, keep);
      assert keep * ((out + 1) * d - 1) == (out * keep + keep) * d - keep by {
        assert keep * ((out + 1) * d) == (keep * (out + 1)) * d;
      }
      Times(out * keep + keep, 10_000 * (asked + 2), d);
      assert d * (out * keep + keep) == (out * keep + keep) * d;
    } else {
      Times(0, given, -keep);
    }
  }

  lemma NeverDrained(tokens: nat, sol: nat, input: nat)
    requires sol + input > 0
    ensures CurveOut(tokens, sol, input) <= tokens
    ensures sol > 0 && tokens > 0 ==> CurveOut(tokens, sol, input) < tokens
  {
    var q := CurveOut(tokens, sol, input);
    Floor(tokens * input, sol + input, q);
    assert (sol + input) * tokens == sol * tokens + tokens * input;
    Cancel(sol + input, q, tokens + 1);
    if sol > 0 && tokens > 0 {
      Cancel(sol + input, q, tokens);
    }
  }

  // --- The slippage ladder -----------------------------------------------------------------

  const SCHEDULE: seq<nat> := [300, 500, 900, 1_300]

  function Above(steps: seq<nat>, start: nat): seq<nat> {
    if steps == [] then [] else (if steps[0] > start then [steps[0]] else []) + Above(steps[1..], start)
  }

  function Min(a: nat, b: nat): nat { if a < b then a else b }

  function SlippageForAttempt(attempt: nat, start: nat, max: nat): nat {
    if attempt <= 1 then Min(start, max)
    else
      var escalation := Above(SCHEDULE, start);
      if escalation == [] then Min(start, max)
      else Min(escalation[Min(attempt - 2, |escalation| - 1)], max)
  }

  ghost predicate Rising(s: seq<nat>, above: nat) {
    (forall i | 0 <= i < |s| :: s[i] > above) && forall i, j | 0 <= i < j < |s| :: s[i] < s[j]
  }

  lemma {:induction false} AboveRises(steps: seq<nat>, start: nat)
    requires forall i, j | 0 <= i < j < |steps| :: steps[i] < steps[j]
    ensures Rising(Above(steps, start), start)
    ensures forall k | 0 <= k < |Above(steps, start)| :: Above(steps, start)[k] in steps
  {
    if steps != [] {
      AboveRises(steps[1..], start);
      var rest := Above(steps[1..], start);
      forall k | 0 <= k < |rest| ensures steps[0] < rest[k] {
        assert rest[k] in steps[1..];
        var i :| 0 <= i < |steps[1..]| && steps[1..][i] == rest[k];
        assert steps[i + 1] == rest[k];
      }
    }
  }

  /** A later attempt tolerates at least as much slippage, up to the ceiling. */
  lemma LadderRises(earlier: nat, later: nat, start: nat, max: nat)
    requires earlier <= later
    ensures SlippageForAttempt(earlier, start, max) <= SlippageForAttempt(later, start, max) <= max
  {
    AboveRises(SCHEDULE, start);
    var escalation := Above(SCHEDULE, start);
    if later > 1 && escalation != [] {
      var j := Min(later - 2, |escalation| - 1);
      assert escalation[j] > start;
      if earlier > 1 {
        var i := Min(earlier - 2, |escalation| - 1);
        assert i == j || escalation[i] < escalation[j];
      }
    }
  }

  /** It starts where it is told to, and then takes every step of the ladder above that in
      turn, none left out, until the last one or the ceiling. */
  lemma StepByStep(attempt: nat, start: nat, max: nat)
    requires attempt >= 1
    ensures SlippageForAttempt(1, start, max) == if start < max then start else max
    ensures var steps := [300, 500, 900, 1_300];
            var now, next := SlippageForAttempt(attempt, start, max), SlippageForAttempt(attempt + 1, start, max);
            && (now < next <==> now < max && now < 1_300)
            && (now < next ==> next in steps + [max])
            && forall k | 0 <= k < 4 && now < steps[k] :: next <= steps[k]
  {
    AboveIs(start);
  }

  lemma AboveIs(start: nat)
    ensures Above(SCHEDULE, start)
            == if start < 300 then [300, 500, 900, 1_300] else if start < 500 then [500, 900, 1_300]
               else if start < 900 then [900, 1_300] else if start < 1_300 then [1_300] else []
  {
    assert Above([1_300], start) == if start < 1_300 then [1_300] else [];
    assert Above([900, 1_300], start) == (if start < 900 then [900] else []) + Above([1_300], start);
    assert Above([500, 900, 1_300], start) == (if start < 500 then [500] else []) + Above([900, 1_300], start);
    assert SCHEDULE[1..] == [500, 900, 1_300];
  }

  /** So on the same curve and budget a later attempt never asks for more tokens. */
  lemma LaterAsksNoMore(tokens: nat, sol: nat, spendable: nat, maxFee: nat, earlier: nat, later: nat, start: nat,
                        max: nat)
    requires earlier <= later && MinTokensOut(tokens, sol, spendable, 0, maxFee).Some?
    ensures MinTokensOut(tokens, sol, spendable, SlippageForAttempt(later, start, max), maxFee).value
            <= MinTokensOut(tokens, sol, spendable, SlippageForAttempt(earlier, start, max), maxFee).value
  {
    LadderRises(earlier, later, start, max);
    SlippageOrder(CurveOut(tokens, sol, CurveIn(spendable, maxFee)),
                  SlippageForAttempt(earlier, start, max), SlippageForAttempt(later, start, max));
  }
}
