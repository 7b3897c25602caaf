/** Who gets what of a coin's tokens, and how much of it is burned
    (offchain/orchestrator/shares.ts). */
module Shares {
  import opened Solana

  type Wallet = string

  const FULL_BPS: nat := 10_000

  /** All of a commit, in lamports times basis points. */
  function AllOf(stake: nat): nat {
    10_000 * stake
  }

  /** One wallet's commits to a coin: lamports, and the sum of lamports times basis points. */
  datatype Share = Share(wallet: Wallet, stake: nat, burn: nat)

  /** A backer as the round recorded it. `None` is a figure that is missing or is
      not a plain decimal number; a finite `burnBps` is a real. */
  datatype RecipientStake =
    RecipientStake(wallet: Wallet, stake: Option<nat>, burnWeight: Option<nat>, burnBps: Option<real>)

  /** A delivery, as far as the shares of an old round are read from it. */
  datatype OldSend = OldSend(recipient: Wallet, betLamports: int)

  function Min(a: int, b: int): int { if a < b then a else b }

  function Max(a: int, b: int): int { if a < b then b else a }

  /** Rounded half up, then held between nothing and all of it. */
  function ClampBps(bps: real): nat {
    Max(0, Min(FULL_BPS, (bps + 0.5).Floor))
  }

  function AtBps(stake: nat, bps: nat): nat {
    stake * bps
  }

  function BurnWeightOf(stake: nat, weight: Option<nat>, bps: Option<real>): (w: nat)
    ensures w <= AllOf(stake)
    ensures weight.Some? && weight.value <= AllOf(stake) ==> w == weight.value
    ensures weight.None? && bps.None? ==> w == 0
  {
    var all := AllOf(stake);
    var asked := match weight
      case Some(w) => w
      case None => AtBps(stake, if bps.Some? then ClampBps(bps.value) else 0);
    if asked > all then all else asked
  }

  function FromStake(r: RecipientStake): Share {
    var stake := if r.stake.Some? then r.stake.value else 0;
    Share(r.wallet, stake, BurnWeightOf(stake, r.burnWeight, r.burnBps))
  }

  // --- Sums over the backers --------------------------------------------------

  function TotalStake(shares: seq<Share>): nat {
    if shares == [] then 0 else TotalStake(shares[..|shares| - 1]) + shares[|shares| - 1].stake
  }

  function BurnWeight(shares: seq<Share>): nat {
    if shares == [] then 0 else BurnWeight(shares[..|shares| - 1]) + shares[|shares| - 1].burn
  }

  predicate HasBurn(shares: seq<Share>) {
    exists s | s in shares :: s.burn > 0 && s.stake > 0
  }

  function Find(shares: seq<Share>, w: Wallet): (r: Option<Share>)
    ensures r.Some? ==> r.value in shares && r.value.wallet == w
    ensures r.None? ==> forall s | s in shares :: s.wallet != w
  {
    if shares == [] then None
    else if shares[0].wallet == w then Some(shares[0])
    else Find(shares[1..], w)
  }

  /** `weight` out of `whole` of what was bought, rounded down. */
  function Portion(bought: int, weight: int, whole: int): int
    requires whole != 0
  {
    (bought * weight) / whole
  }

  function BurnOwed(bought: int, shares: seq<Share>): int {
    var denominator := AllOf(TotalStake(shares));
    if bought <= 0 || denominator == 0 then 0
    else Portion(bought, BurnWeight(shares), denominator)
  }

  function DeliveryOwed(bought: int, w: Wallet, shares: seq<Share>): int {
    var denominator := AllOf(TotalStake(shares));
    var share := Find(shares, w);
    if share.None? || bought <= 0 || denominator == 0 then 0
    else Portion(bought, AllOf(share.value.stake) - share.value.burn, denominator)
  }

  /** One entry a wallet, a positive commit each, no more burned than committed:
      what `SharesOf` returns. */
  ghost predicate WellFormed(shares: seq<Share>) {
    && (forall i | 0 <= i < |shares| :: shares[i].stake > 0 && shares[i].burn <= AllOf(shares[i].stake))
    && (forall i, j | 0 <= i < j < |shares| :: shares[i].wallet != shares[j].wallet)
  }

  // --- Merging the record into shares -----------------------------------------

  function IndexOf(shares: seq<Share>, w: Wallet): (i: nat)
    ensures i <= |shares|
    ensures i < |shares| ==> shares[i].wallet == w
    ensures forall j | 0 <= j < i :: shares[j].wallet != w
  {
    if shares == [] || shares[0].wallet == w then 0 else 1 + IndexOf(shares[1..], w)
  }

  /** A wallet listed again adds to its entry and keeps its place. */
  function Merge(shares: seq<Share>, s: Share): seq<Share> {
    var i := IndexOf(shares, s.wallet);
    if s.stake == 0 then shares
    else if i == |shares| then shares + [s]
    else shares[i := Share(s.wallet, shares[i].stake + s.stake, shares[i].burn + s.burn)]
  }

  function Merged(recipients: seq<RecipientStake>): seq<Share> {
    if recipients == [] then []
    else Merge(Merged(recipients[..|recipients| - 1]), FromStake(recipients[|recipients| - 1]))
  }

  function MergedSends(sends: seq<OldSend>): seq<Share> {
    if sends == [] then []
    else
      var before, s := MergedSends(sends[..|sends| - 1]), sends[|sends| - 1];
      if s.betLamports <= 0 || IndexOf(before, s.recipient) < |before| then before
      else before + [Share(s.recipient, s.betLamports, 0)]
  }

  method MergeRecipients(recipients: seq<RecipientStake>) returns (shares: seq<Share>)
    ensures shares == Merged(recipients) && WellFormed(shares)
  {
    shares := [];
    for i := 0 to |recipients|
      invariant shares == Merged(recipients[..i]) && WellFormed(shares)
    {
      assert recipients[..i + 1][..i] == recipients[..i];
      var s := FromStake(recipients[i]);
      MergeKeeps(shares, s);
      if s.stake <= 0 { continue; }
      var at := IndexOf(shares, s.wallet);
      if at == |shares| {
        shares := shares + [s];
      } else {
        shares := shares[at := Share(s.wallet, shares[at].stake + s.stake, shares[at].burn + s.burn)];
      }
    }
    assert recipients[..|recipients|] == recipients;
  }

  method MergeSends(sends: seq<OldSend>) returns (shares: seq<Share>)
    ensures shares == MergedSends(sends) && WellFormed(shares)
  {
    shares := [];
    for i := 0 to |sends|
      invariant shares == MergedSends(sends[..i]) && WellFormed(shares)
    {
      assert sends[..i + 1][..i] == sends[..i];
      if IndexOf(shares, sends[i].recipient) < |shares| { continue; }
      if sends[i].betLamports > 0 {
        shares := shares + [Share(sends[i].recipient, sends[i].betLamports, 0)];
      }
    }
    assert sends[..|sends|] == sends;
  }

  /** From the round's own record when it has one, from the deliveries of an old round otherwise. */
  method SharesOf(recipients: seq<RecipientStake>, sends: seq<OldSend>) returns (shares: seq<Share>)
    ensures shares == if recipients != [] then Merged(recipients) else MergedSends(sends)
    ensures WellFormed(shares)
  {
    if recipients != [] {
      shares := MergeRecipients(recipients);
    } else {
      shares := MergeSends(sends);
    }
  }

  lemma MergeKeeps(shares: seq<Share>, s: Share)
    requires WellFormed(shares) && s.burn <= AllOf(s.stake)
    ensures WellFormed(Merge(shares, s))
  {
  }

  /** Merging neither loses nor invents a lamport. */
  lemma MergeAdds(shares: seq<Share>, s: Share)
    ensures TotalStake(Merge(shares, s)) == TotalStake(shares) + s.stake
    ensures s.stake > 0 ==> BurnWeight(Merge(shares, s)) == BurnWeight(shares) + s.burn
  {
    var i := IndexOf(shares, s.wallet);
    if s.stake == 0 {
    } else if i == |shares| {
      assert Merge(shares, s)[..|shares|] == shares;
    } else {
      SumAfterUpdate(shares, i, Share(s.wallet, shares[i].stake + s.stake, shares[i].burn + s.burn));
    }
  }

  lemma {:induction false} SumAfterUpdate(shares: seq<Share>, i: nat, s: Share)
    requires i < |shares|
    ensures TotalStake(shares[i := s]) == TotalStake(shares) - shares[i].stake + s.stake
    ensures BurnWeight(shares[i := s]) == BurnWeight(shares) - shares[i].burn + s.burn
  {
    var n := |shares| - 1;
    if i == n {
      assert shares[i := s][..n] == shares[..n];
    } else {
      assert shares[i := s][..n] == shares[..n][i := s];
      SumAfterUpdate(shares[..n], i, s);
    }
  }

  /** What one wallet committed over all its entries, and nothing else, is its share. */
  function StakeFor(recipients: seq<RecipientStake>, w: Wallet): nat {
    if recipients == [] then 0
    else
      var s := FromStake(recipients[|recipients| - 1]);
      StakeFor(recipients[..|recipients| - 1], w) + if s.wallet == w then s.stake else 0
  }

  function BurnFor(recipients: seq<RecipientStake>, w: Wallet): nat {
    if recipients == [] then 0
    else
      var s := FromStake(recipients[|recipients| - 1]);
      BurnFor(recipients[..|recipients| - 1], w) + if s.wallet == w then s.burn else 0
  }

  lemma FindAfterMerge(shares: seq<Share>, s: Share, w: Wallet)
    requires WellFormed(shares) && s.burn <= AllOf(s.stake)
    ensures w != s.wallet || s.stake == 0 ==> Find(Merge(shares, s), w) == Find(shares, w)
    ensures w == s.wallet && s.stake > 0 ==>
              Find(Merge(shares, s), w) == match Find(shares, w)
                                           case None => Some(s)
                                           case Some(prev) => Some(Share(w, prev.stake + s.stake, prev.burn + s.burn))
  {
    var merged := Merge(shares, s);
    MergeKeeps(shares, s);
    FindInWellFormed(shares, w);
    FindInWellFormed(merged, w);
    var at, to := IndexOf(shares, w), IndexOf(merged, w);
    if to < |merged| && to < |shares| {
      assert shares[to].wallet == w;
    }
    if at < |shares| {
      assert merged[at].wallet == w;
    }
  }

  lemma {:induction false} MergedIsPerWallet(recipients: seq<RecipientStake>, w: Wallet)
    ensures WellFormed(Merged(recipients))
    ensures match Find(Merged(recipients), w)
            case Some(s) => s == Share(w, StakeFor(recipients, w), BurnFor(recipients, w))
            case None => StakeFor(recipients, w) == 0 && BurnFor(recipients, w) == 0
  {
    if recipients != [] {
      var n := |recipients| - 1;
      MergedIsPerWallet(recipients[..n], w);
      MergeKeeps(Merged(recipients[..n]), FromStake(recipients[n]));
      FindAfterMerge(Merged(recipients[..n]), FromStake(recipients[n]), w);
    }
  }

  lemma {:induction false} FindInWellFormed(shares: seq<Share>, w: Wallet)
    requires WellFormed(shares)
    ensures IndexOf(shares, w) == |shares| <==> Find(shares, w) == None
    ensures IndexOf(shares, w) < |shares| ==> Find(shares, w) == Some(shares[IndexOf(shares, w)])
    ensures forall i | 0 <= i < |shares| :: shares[i].wallet == w ==> Find(shares, w) == Some(shares[i])
  {
    if shares == [] || shares[0].wallet == w {
    } else {
      FindInWellFormed(shares[1..], w);
    }
  }

  // --- The promise -------------------------------------------------------------

  lemma Quotient(a: int, d: int)
    requires 0 < d
    ensures d * (a / d) <= a <= d * (a / d) + d - 1
  {
  }

  lemma QuotientOrder(a: int, b: int, d: int, p: int, q: int)
    requires 0 < d && a <= b && d * p <= a && b <= d * q + d - 1
    ensures p <= q
  {
    var gap := p - q;
    assert d * gap == d * p - d * q;
    assert d * gap <= d - 1;
  }

  lemma PortionGrows(b1: int, b2: int, weight: int, whole: int)
    requires 0 <= b1 <= b2 && 0 <= weight && 0 < whole
    ensures 0 <= Portion(b1, weight, whole) <= Portion(b2, weight, whole)
  {
    assert 0 <= b1 * weight <= b2 * weight;
    Quotient(b1 * weight, whole);
    Quotient(b2 * weight, whole);
    QuotientOrder(0, b1 * weight, whole, 0, Portion(b1, weight, whole));
    QuotientOrder(b1 * weight, b2 * weight, whole, Portion(b1, weight, whole), Portion(b2, weight, whole));
  }

  /** Every figure grows with what was bought. */
  lemma OwedGrows(b1: int, b2: int, w: Wallet, shares: seq<Share>)
    requires WellFormed(shares) && b1 <= b2
    ensures 0 <= DeliveryOwed(b1, w, shares) <= DeliveryOwed(b2, w, shares)
    ensures 0 <= BurnOwed(b1, shares) <= BurnOwed(b2, shares)
  {
    var d := AllOf(TotalStake(shares));
    if 0 < b2 && d != 0 {
      var from := Max(0, b1);
      PortionGrows(from, b2, BurnWeight(shares), d);
      var share := Find(shares, w);
      if share.Some? {
        PortionGrows(from, b2, AllOf(share.value.stake) - share.value.burn, d);
      }
    }
  }

  /** What a wallet receives depends on the commits and on its own choice: whatever
      anybody else asked to have burned, its figure is the same. */
  lemma OthersChoicesDoNotMatter(bought: int, w: Wallet, shares: seq<Share>, others: seq<Share>)
    requires WellFormed(shares) && WellFormed(others) && |shares| == |others|
    requires forall i | 0 <= i < |shares| :: shares[i].wallet == others[i].wallet && shares[i].stake == others[i].stake
    requires forall i | 0 <= i < |shares| :: shares[i].wallet == w ==> shares[i].burn == others[i].burn
    ensures DeliveryOwed(bought, w, shares) == DeliveryOwed(bought, w, others)
  {
    SameStakes(shares, others);
    FindInWellFormed(shares, w);
    FindInWellFormed(others, w);
    var i := IndexOf(shares, w);
    if i < |shares| {
      assert Find(shares, w) == Some(shares[i]) && Find(others, w) == Some(others[i]);
    } else {
      assert forall j | 0 <= j < |others| :: others[j].wallet == shares[j].wallet != w;
    }
  }

  lemma {:induction false} SameStakes(a: seq<Share>, b: seq<Share>)
    requires |a| == |b| && forall i | 0 <= i < |a| :: a[i].stake == b[i].stake
    ensures TotalStake(a) == TotalStake(b)
  {
    if a != [] {
      SameStakes(a[..|a| - 1], b[..|b| - 1]);
    }
  }

  /** The deliveries owed to the first `n` backers together. */
  function OwedToFirst(bought: int, shares: seq<Share>, n: nat): int
    requires n <= |shares|
  {
    if n == 0 then 0
    else OwedToFirst(bought, shares, n - 1) + DeliveryOwed(bought, shares[n - 1].wallet, shares)
  }

  function OwedToAll(bought: int, shares: seq<Share>): int {
    OwedToFirst(bought, shares, |shares|)
  }

  /** `owed` is `bought * weight / d` rounded down in at most `m` places. */
  ghost predicate Floored(d: int, bought: int, weight: int, owed: int, m: int) {
    d * owed <= bought * weight <= d * owed + m * (d - 1)
  }

  lemma FlooredPortion(d: int, bought: int, weight: int)
    requires 0 < d
    ensures Floored(d, bought, weight, Portion(bought, weight, d), 1)
  {
    Quotient(bought * weight, d);
  }

  lemma FlooredSum(d: int, bought: int, w1: int, w2: int, q1: int, q2: int, m1: int, m2: int)
    requires Floored(d, bought, w1, q1, m1) && Floored(d, bought, w2, q2, m2)
    ensures Floored(d, bought, w1 + w2, q1 + q2, m1 + m2)
  {
    assert (m1 + m2) * (d - 1) == m1 * (d - 1) + m2 * (d - 1);
  }

  lemma DeliveryOwedAt(bought: nat, shares: seq<Share>, i: nat)
    requires WellFormed(shares) && i < |shares| && 0 < bought && 0 < TotalStake(shares)
    ensures DeliveryOwed(bought, shares[i].wallet, shares)
         == Portion(bought, AllOf(shares[i].stake) - shares[i].burn, AllOf(TotalStake(shares)))
  {
    FindInWellFormed(shares, shares[i].wallet);
  }

  lemma {:induction false} FlooredOwed(bought: nat, shares: seq<Share>, n: nat)
    requires WellFormed(shares) && n <= |shares| && 0 < bought && 0 < TotalStake(shares)
    ensures Floored(AllOf(TotalStake(shares)), bought, AllOf(TotalStake(shares[..n])) - BurnWeight(shares[..n]),
                    OwedToFirst(bought, shares, n), n)
  {
    if n > 0 {
      var d: int, s := AllOf(TotalStake(shares)), shares[n - 1];
      FlooredOwed(bought, shares, n - 1);
      DeliveryOwedAt(bought, shares, n - 1);
      assert shares[..n][..n - 1] == shares[..n - 1];
      var before: int := AllOf(TotalStake(shares[..n - 1])) - BurnWeight(shares[..n - 1]);
      var one: int := AllOf(s.stake) - s.burn;
      FlooredPortion(d, bought, one);
      FlooredSum(d, bought, before, one, OwedToFirst(bought, shares, n - 1), Portion(bought, one, d), n - 1, 1);
    }
  }

  lemma FlooredWhole(d: int, bought: int, w: int, q1: int, q2: int, m: int)
    requires Floored(d, bought, d - w, q1, m) && Floored(d, bought, w, q2, 1)
    ensures Floored(d, bought, d, q1 + q2, m + 1)
  {
    FlooredSum(d, bought, d - w, w, q1, q2, m, 1);
  }

  lemma FlooredAll(bought: nat, shares: seq<Share>, d: int, w: int, q: int)
    requires WellFormed(shares) && 0 < bought && 0 < TotalStake(shares)
    requires d == AllOf(TotalStake(shares)) && w == BurnWeight(shares) && q == OwedToAll(bought, shares)
    ensures Floored(d, bought, d - w, q, |shares|)
  {
    FlooredOwed(bought, shares, |shares|);
    assert shares[..|shares|] == shares;
  }

  lemma FlooredWithFire(d: int, bought: int, w: int, q: int, m: int)
    requires 0 < d && Floored(d, bought, d - w, q, m)
    ensures Floored(d, bought, d, q + Portion(bought, w, d), m + 1)
  {
    FlooredPortion(d, bought, w);
    FlooredWhole(d, bought, w, q, Portion(bought, w, d), m);
  }

  lemma BurnOwedIs(bought: nat, shares: seq<Share>)
    requires 0 < bought && 0 < TotalStake(shares)
    ensures BurnOwed(bought, shares) == Portion(bought, BurnWeight(shares), AllOf(TotalStake(shares)))
  {
  }

  lemma FlooredBounds(d: int, bought: int, w: int, q: int, m: nat)
    requires 0 < d && Floored(d, bought, d - w, q, m)
    ensures q + Portion(bought, w, d) <= bought <= q + Portion(bought, w, d) + m
  {
    FlooredWithFire(d, bought, w, q, m);
    CancelFloored(d, q + Portion(bought, w, d), bought, m + 1);
  }

  /** Nothing is promised twice and nothing is lost beyond rounding: what is owed
      to all backers and to the fire together is what was bought, less at most one
      raw unit a backer. */
  lemma PromiseAddsUp(bought: nat, shares: seq<Share>)
    requires WellFormed(shares) && 0 < TotalStake(shares)
    ensures bought - |shares| <= OwedToAll(bought, shares) + BurnOwed(bought, shares) <= bought
  {
    if bought == 0 {
      OwedToNothing(shares, |shares|);
    } else {
      PromiseBounds(bought, shares, AllOf(TotalStake(shares)), BurnWeight(shares), OwedToAll(bought, shares));
      BurnOwedIs(bought, shares);
    }
  }

  lemma PromiseBounds(bought: nat, shares: seq<Share>, d: int, w: int, q: int)
    requires WellFormed(shares) && 0 < bought && 0 < TotalStake(shares) && 0 < d
    requires d == AllOf(TotalStake(shares)) && w == BurnWeight(shares) && q == OwedToAll(bought, shares)
    ensures q + Portion(bought, w, d) <= bought <= q + Portion(bought, w, d) + |shares|
  {
    FlooredAll(bought, shares, d, w, q);
    FlooredBounds(d, bought, w, q, |shares|);
  }

  lemma CancelFloored(d: int, x: int, b: int, m: int)
    requires 0 < d && 0 < m && Floored(d, b, d, x, m)
    ensures x <= b < x + m
  {
    CancelBounds(d, x, b, m);
  }

  lemma CancelBounds(d: int, x: int, b: int, m: int)
    requires 0 < d && 0 < m
    requires d * x <= b * d <= d * x + m * (d - 1)
    ensures x <= b < x + m
  {
    QuotientOrder(d * x, b * d, d, x, b);
    var gap := b - x;
    assert d * gap == b * d - d * x;
    assert d * gap < d * m;
  }

  lemma {:induction false} OwedToNothing(shares: seq<Share>, n: nat)
    requires n <= |shares|
    ensures OwedToFirst(0, shares, n) == 0
  {
    if n > 0 {
      OwedToNothing(shares, n - 1);
    }
  }
}
