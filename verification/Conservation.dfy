/** Tokens in, tokens out: what the wallets and the fire have taken or may still
    take, against what was bought. */
module Conservation {
  import opened Solana
  import opened Shares
  import opened SendRecords
  import opened CoinState
  import opened Deficits
  import opened DeliveryLedger
  import opened Burns

  // --- Claims: a bound for every record, added up wallet by wallet -------------------

  ghost function ClaimTo(sends: seq<SendRecord>, claim: seq<nat>, w: Wallet): nat
    requires |claim| == |sends|
  {
    if sends == [] then 0
    else
      var n := |sends| - 1;
      ClaimTo(sends[..n], claim[..n], w) + if sends[n].recipient == w then claim[n] else 0
  }

  ghost function Potentials(sends: seq<SendRecord>, c: Chain): (p: seq<nat>)
    ensures |p| == |sends| && forall i | 0 <= i < |sends| :: p[i] == Potential(sends[i], c)
  {
    seq(|sends|, i requires 0 <= i < |sends| => Potential(sends[i], c))
  }

  /** Taken from the keeper for this wallet, or possibly taken yet. */
  ghost function PotentialTo(sends: seq<SendRecord>, c: Chain, w: Wallet): nat {
    ClaimTo(sends, Potentials(sends, c), w)
  }

  /** What a record is created with and keeps. */
  predicate SameOwner(a: SendRecord, b: SendRecord) {
    a.recipient == b.recipient && a.betLamports == b.betLamports && a.hadAtaAtStart == b.hadAtaAtStart
  }

  ghost predicate SameRecipients(a: seq<SendRecord>, b: seq<SendRecord>) {
    |a| == |b| && forall i | 0 <= i < |a| :: SameOwner(a[i], b[i])
  }

  lemma {:induction false} TotalBetSame(a: seq<SendRecord>, b: seq<SendRecord>)
    requires SameRecipients(a, b)
    ensures TotalBet(a) == TotalBet(b)
    ensures forall w :: Receives(a, w) <==> Receives(b, w)
  {
    if a != [] {
      var n := |a| - 1;
      assert SameOwner(a[n], b[n]);
      TotalBetSame(a[..n], b[..n]);
      forall w ensures Receives(a, w) <==> Receives(b, w) {
        assert Receives(a, w) <==> Receives(a[..n], w) || a[n].recipient == w by { assert a == a[..n] + [a[n]]; }
        assert Receives(b, w) <==> Receives(b[..n], w) || b[n].recipient == w by { assert b == b[..n] + [b[n]]; }
      }
    }
  }

  lemma {:induction false} ClaimMonotone(a: seq<SendRecord>, b: seq<SendRecord>, low: seq<nat>, high: seq<nat>,
                                         w: Wallet)
    requires SameRecipients(a, b) && |a| == |low| == |high|
    requires forall i | 0 <= i < |a| && a[i].recipient == w :: low[i] <= high[i]
    ensures ClaimTo(a, low, w) <= ClaimTo(b, high, w)
  {
    if a != [] {
      var n := |a| - 1;
      ClaimMonotone(a[..n], b[..n], low[..n], high[..n], w);
    }
  }

  lemma {:induction false} EachWithin(sends: seq<SendRecord>, claim: seq<nat>, i: nat)
    requires |claim| == |sends| && i < |sends|
    ensures claim[i] <= ClaimTo(sends, claim, sends[i].recipient)
  {
    var n := |sends| - 1;
    if i < n {
      EachWithin(sends[..n], claim[..n], i);
    }
  }

  /** No wallet outside `tainted` has taken or may still take more than it is owed. */
  ghost predicate WalletsOk(sends: seq<SendRecord>, c: Chain, known: nat, shares: seq<Share>, tainted: set<Wallet>) {
    forall w | w !in tainted :: PotentialTo(sends, c, w) <= DeliveryOwed(known, w, shares)
  }

  lemma WalletsStayOk(a: seq<SendRecord>, b: seq<SendRecord>, c: Chain, d: Chain, known: nat, more: nat,
                      shares: seq<Share>, tainted: set<Wallet>)
    requires WalletsOk(a, c, known, shares, tainted) && SameRecipients(a, b) && known <= more && WellFormed(shares)
    requires forall i | 0 <= i < |a| :: Potential(b[i], d) <= Potential(a[i], c)
    ensures WalletsOk(b, d, more, shares, tainted)
  {
    forall w | w !in tainted ensures PotentialTo(b, d, w) <= DeliveryOwed(more, w, shares) {
      assert PotentialTo(a, c, w) <= DeliveryOwed(known, w, shares);
      ClaimMonotone(b, a, Potentials(b, d), Potentials(a, c), w);
      OwedGrows(known, more, w, shares);
    }
  }

  // --- Adding up over the wallets ------------------------------------------------------

  /** `f` over a list of wallets. */
  ghost function Over(f: Wallet -> int, ws: seq<Wallet>): int {
    if ws == [] then 0 else Over(f, ws[..|ws| - 1]) + f(ws[|ws| - 1])
  }

  lemma {:induction false} OverWithout(f: Wallet -> int, ws: seq<Wallet>, j: nat)
    requires j < |ws|
    ensures Over(f, ws) == Over(f, ws[..j] + ws[j + 1..]) + f(ws[j])
  {
    var n := |ws| - 1;
    if j == n {
      assert ws[..j] + ws[j + 1..] == ws[..n];
    } else {
      OverWithout(f, ws[..n], j);
      var rest := ws[..j] + ws[j + 1..];
      assert rest[..|rest| - 1] == ws[..n][..j] + ws[..n][j + 1..];
    }
  }

  lemma {:induction false} OverNonNegative(f: Wallet -> int, ws: seq<Wallet>)
    requires forall w :: 0 <= f(w)
    ensures 0 <= Over(f, ws)
  {
    if ws != [] {
      OverNonNegative(f, ws[..|ws| - 1]);
    }
  }

  /** A list of distinct wallets adds up to no more than any list that holds all of
      them that matter. */
  lemma {:induction false} OverSubset(f: Wallet -> int, few: seq<Wallet>, many: seq<Wallet>)
    requires forall w :: 0 <= f(w)
    requires Distinct(few) && forall w | w in few :: f(w) > 0 ==> w in many
    ensures Over(f, few) <= Over(f, many)
  {
    if few == [] {
      OverNonNegative(f, many);
    } else {
      var n := |few| - 1;
      var w := few[n];
      assert w in few && forall v | v in few[..n] :: v in few && v != w;
      if f(w) == 0 {
        OverSubset(f, few[..n], many);
      } else {
        var j :| 0 <= j < |many| && many[j] == w;
        OverWithout(f, many, j);
        OverSubset(f, few[..n], many[..j] + many[j + 1..]);
      }
    }
  }

  lemma {:induction false} OverPlus(f: Wallet -> int, g: Wallet -> int, h: Wallet -> int, ws: seq<Wallet>)
    requires forall w | w in ws :: h(w) == f(w) + g(w)
    ensures Over(h, ws) == Over(f, ws) + Over(g, ws)
  {
    if ws != [] {
      assert ws[|ws| - 1] in ws && forall w | w in ws[..|ws| - 1] :: w in ws;
      OverPlus(f, g, h, ws[..|ws| - 1]);
    }
  }

  function WalletsOf(shares: seq<Share>): (ws: seq<Wallet>)
    ensures |ws| == |shares| && forall i | 0 <= i < |ws| :: ws[i] == shares[i].wallet
  {
    seq(|shares|, i requires 0 <= i < |shares| => shares[i].wallet)
  }

  ghost function OwedFunction(bought: nat, shares: seq<Share>): Wallet -> int {
    w => DeliveryOwed(bought, w, shares)
  }

  lemma {:induction false} OwedOver(bought: nat, shares: seq<Share>, n: nat)
    requires n <= |shares|
    ensures Over(OwedFunction(bought, shares), WalletsOf(shares)[..n]) == OwedToFirst(bought, shares, n)
  {
    if n > 0 {
      OwedOver(bought, shares, n - 1);
      assert WalletsOf(shares)[..n][..n - 1] == WalletsOf(shares)[..n - 1];
    }
  }

  ghost function Total(claim: seq<nat>): nat {
    if claim == [] then 0 else Total(claim[..|claim| - 1]) + claim[|claim| - 1]
  }

  ghost function ClaimFunction(sends: seq<SendRecord>, claim: seq<nat>): Wallet -> int
    requires |claim| == |sends|
  {
    w => ClaimTo(sends, claim, w)
  }

  lemma {:induction false} ClaimFunctionStep(sends: seq<SendRecord>, claim: seq<nat>, ws: seq<Wallet>)
    requires |claim| == |sends| && sends != [] && Distinct(ws)
    ensures var n := |sends| - 1; var before := Over(ClaimFunction(sends[..n], claim[..n]), ws);
            Over(ClaimFunction(sends, claim), ws) == if sends[n].recipient in ws then before + claim[n] else before
  {
    if ws != [] {
      var m := |ws| - 1;
      ClaimFunctionStep(sends, claim, ws[..m]);
      assert ws == ws[..m] + [ws[m]];
      assert ws[m] !in ws[..m];
    }
  }

  lemma {:induction false} OverNothing(ws: seq<Wallet>)
    ensures Over(ClaimFunction([], []), ws) == 0
  {
    if ws != [] {
      OverNothing(ws[..|ws| - 1]);
    }
  }

  /** Record by record or wallet by wallet, the claims are the same total. */
  lemma {:induction false} ClaimsAddUp(sends: seq<SendRecord>, claim: seq<nat>, ws: seq<Wallet>)
    requires |claim| == |sends| && Distinct(ws)
    requires forall i | 0 <= i < |sends| :: claim[i] > 0 ==> sends[i].recipient in ws
    ensures Over(ClaimFunction(sends, claim), ws) == Total(claim)
  {
    if sends == [] {
      OverNothing(ws);
    } else {
      var n := |sends| - 1;
      ClaimFunctionStep(sends, claim, ws);
      ClaimsAddUp(sends[..n], claim[..n], ws);
    }
  }

  // --- The books ------------------------------------------------------------------------

  lemma {:induction false} PaidWithin(sends: seq<SendRecord>, c: Chain, sent: seq<Tx>, n: nat)
    requires SendsOk(sends, c, sent) && ValidChain(c) && n <= |sends|
    ensures PaidToAll(sent, c, n) <= Total(Potentials(sends, c)[..n])
  {
    if n > 0 {
      PaidWithin(sends, c, sent, n - 1);
      PaidIsPotential(sends, c, sent, n - 1);
      assert Potentials(sends, c)[..n][..n - 1] == Potentials(sends, c)[..n - 1];
    }
  }

  lemma OwedWithin(known: nat, shares: seq<Share>)
    requires WellFormed(shares)
    ensures Over(OwedFunction(known, shares), WalletsOf(shares)) + BurnOwed(known, shares) <= known
  {
    OwedOver(known, shares, |shares|);
    assert WalletsOf(shares)[..|shares|] == WalletsOf(shares);
    if shares != [] {
      assert TotalStake(shares) > 0;
      PromiseAddsUp(known, shares);
    }
  }

  /** What each wallet is still owed beyond everything it has taken or may take. */
  ghost function LeftFunction(sends: seq<SendRecord>, c: Chain, known: nat, shares: seq<Share>): Wallet -> int {
    w => DeliveryOwed(known, w, shares) - PotentialTo(sends, c, w)
  }

  /** With no wallet tainted, what has been delivered, what the wallets are still short of
      and what the fire is owed fit into what was bought. */
  lemma ClaimsFit(sends: seq<SendRecord>, c: Chain, sent: seq<Tx>, known: nat, shares: seq<Share>, few: seq<Wallet>)
    requires WellFormed(shares) && ValidChain(c)
    requires SendsOk(sends, c, sent) && WalletsOk(sends, c, known, shares, {})
    requires Distinct(few)
    ensures 0 <= Over(LeftFunction(sends, c, known, shares), few)
    ensures Over(LeftFunction(sends, c, known, shares), few) + PaidToAll(sent, c, |sends|)
            + BurnOwed(known, shares) <= known
  {
    var ws, p := WalletsOf(shares), Potentials(sends, c);
    var left := LeftFunction(sends, c, known, shares);
    assert forall w :: PotentialTo(sends, c, w) <= DeliveryOwed(known, w, shares);
    assert forall w :: 0 <= left(w);
    forall w | w !in ws ensures left(w) == 0 && PotentialTo(sends, c, w) == 0 {
      OutsideOwedNothing(known, w, shares);
    }
    forall i | 0 <= i < |sends| && p[i] > 0 ensures sends[i].recipient in ws {
      EachWithin(sends, p, i);
      assert PotentialTo(sends, c, sends[i].recipient) > 0;
    }
    OverSubset(left, few, ws);
    OverNonNegative(left, few);
    OverPlus(left, ClaimFunction(sends, p), OwedFunction(known, shares), ws);
    ClaimsAddUp(sends, p, ws);
    OwedWithin(known, shares);
    PaidWithin(sends, c, sent, |sends|);
    assert p[..|sends|] == p;
  }

  lemma DeliveriesFit(sends: seq<SendRecord>, c: Chain, sent: seq<Tx>, known: nat, shares: seq<Share>)
    requires WellFormed(shares) && ValidChain(c)
    requires SendsOk(sends, c, sent) && WalletsOk(sends, c, known, shares, {})
    ensures PaidToAll(sent, c, |sends|) + BurnOwed(known, shares) <= known
  {
    ClaimsFit(sends, c, sent, known, shares, []);
  }

  /** With no wallet tainted, everything the wallets are still short of and everything
      the fire is still owed is on the keeper, all of it at once: sent plus burned never
      exceeds what was bought, even while transfers are of unknown fate. */
  lemma ShortfallsFit(sends: seq<SendRecord>, burns: seq<BurnRecord>, burnedRaw: nat, known: nat, bought: nat,
                      shares: seq<Share>, c: Chain, sent: seq<Tx>, few: seq<Wallet>)
    requires WellFormed(shares) && ValidChain(c) && known <= bought
    requires SendsOk(sends, c, sent) && WalletsOk(sends, c, known, shares, {})
    requires BurnsOk(burns, burnedRaw, c, sent) && WithinOwed(burns, burnedRaw, known, shares)
    requires Distinct(few)
    ensures 0 <= Over(LeftFunction(sends, c, known, shares), few)
    ensures Over(LeftFunction(sends, c, known, shares), few) + (BurnOwed(known, shares) - burnedRaw - OpenRaw(burns))
            <= KeeperBalance(bought, sent, c, |sends|)
  {
    ClaimsFit(sends, c, sent, known, shares, few);
    NeverBurnsTooMuch(burns, burnedRaw, known, bought, shares, c, c, sent);
  }

  lemma OutsideOwedNothing(known: nat, w: Wallet, shares: seq<Share>)
    requires w !in WalletsOf(shares)
    ensures DeliveryOwed(known, w, shares) == 0
  {
    assert forall i | 0 <= i < |shares| :: WalletsOf(shares)[i] == shares[i].wallet != w;
  }
}
