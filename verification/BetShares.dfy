/** A coin nobody burns: each wallet's share of the pot is its bet's
    (offchain/orchestrator/sendRounds.ts, calculateDeficitAmounts). */
module BetShares {
  import opened Solana
  import opened Shares
  import opened SendRecords
  import opened Deficits
  import opened DeliveryLedger
  import opened Conservation

  /** What there is to share out: the balance, and what was delivered before. */
  function Pot(sends: seq<SendRecord>, balance: int): int {
    balance + DeliveredInAll(sends)
  }

  /** `got` is the wallet's share of the pot by its bet, rounded down. */
  predicate IsBetShare(sends: seq<SendRecord>, w: Wallet, pot: int, got: int) {
    var total := TotalBet(sends);
    total * got <= pot * BetOf(sends, w) < total * (got + 1)
  }

  /** What a wallet should have is its bet's share. */
  lemma TargetIsBetShare(sends: seq<SendRecord>, w: Wallet, balance: int)
    requires TotalBet(sends) > 0
    ensures IsBetShare(sends, w, Pot(sends, balance), Target(sends, w, balance, None))
  {
    var total, product := TotalBet(sends), Pot(sends, balance) * BetOf(sends, w);
    Quotient(product, total);
    assert total * (product / total + 1) == total * (product / total) + total;
  }

  /** Equal bets give equal shares, and a larger bet never a smaller one. */
  lemma MoreBetMoreShare(sends: seq<SendRecord>, w: Wallet, v: Wallet, balance: int)
    requires TotalBet(sends) > 0 && 0 <= Pot(sends, balance) && BetOf(sends, w) <= BetOf(sends, v)
    ensures 0 <= Target(sends, w, balance, None) <= Target(sends, v, balance, None)
    ensures BetOf(sends, w) == BetOf(sends, v) ==> Target(sends, w, balance, None) == Target(sends, v, balance, None)
  {
    ShareGrows(Pot(sends, balance), BetOf(sends, w), BetOf(sends, v), TotalBet(sends));
  }

  lemma ShareGrows(pot: nat, a: nat, b: nat, total: nat)
    requires a <= b && total > 0
    ensures 0 <= Portion(pot, a, total) <= Portion(pot, b, total)
  {
    Products(pot, a, b);
    Quotient(pot * a, total);
    Quotient(pot * b, total);
    QuotientOrder(0, pot * a, total, 0, Portion(pot, a, total));
    QuotientOrder(pot * a, pot * b, total, Portion(pot, a, total), Portion(pot, b, total));
  }

  lemma Products(c: nat, a: nat, b: nat)
    requires a <= b
    ensures 0 <= c * a <= c * b
  {
  }

  // --- Sums over wallets ------------------------------------------------------------------

  function SumOf(f: Wallet -> int, ws: seq<Wallet>): int {
    if ws == [] then 0 else SumOf(f, ws[..|ws| - 1]) + f(ws[|ws| - 1])
  }

  lemma {:induction false} SumSame(f: Wallet -> int, g: Wallet -> int, ws: seq<Wallet>)
    requires forall w | w in ws :: f(w) == g(w)
    ensures SumOf(f, ws) == SumOf(g, ws)
  {
    if ws != [] {
      var n := |ws| - 1;
      assert ws[n] in ws && forall w | w in ws[..n] :: w in ws;
      SumSame(f, g, ws[..n]);
    }
  }

  lemma {:induction false} SumWithout(f: Wallet -> int, ws: seq<Wallet>, k: nat)
    requires k < |ws|
    ensures SumOf(f, ws) == SumOf(f, ws[..k] + ws[k + 1..]) + f(ws[k])
  {
    var n := |ws| - 1;
    if k == n {
      assert ws[..k] + ws[k + 1..] == ws[..n];
    } else {
      var rest := ws[..k] + ws[k + 1..];
      assert rest[..|rest| - 1] == ws[..n][..k] + ws[..n][k + 1..] && rest[|rest| - 1] == ws[n];
      SumWithout(f, ws[..n], k);
    }
  }

  /** One wallet's figure changed. */
  lemma SumChanged(f: Wallet -> int, g: Wallet -> int, ws: seq<Wallet>, k: nat)
    requires k < |ws| && Distinct(ws) && forall w | w in ws && w != ws[k] :: f(w) == g(w)
    ensures SumOf(g, ws) == SumOf(f, ws) - f(ws[k]) + g(ws[k])
  {
    var rest := ws[..k] + ws[k + 1..];
    SumWithout(f, ws, k);
    SumWithout(g, ws, k);
    forall w | w in rest ensures f(w) == g(w) {
      var i :| 0 <= i < |rest| && rest[i] == w;
      assert w == ws[if i < k then i else i + 1];
    }
    SumSame(f, g, rest);
  }

  lemma {:induction false} SumNonNegative(f: Wallet -> int, ws: seq<Wallet>)
    requires forall w | w in ws :: 0 <= f(w)
    ensures 0 <= SumOf(f, ws)
  {
    if ws != [] {
      var n := |ws| - 1;
      assert ws[n] in ws && forall w | w in ws[..n] :: w in ws;
      SumNonNegative(f, ws[..n]);
    }
  }

  /** Over some of the wallets it is no more than over all. */
  lemma {:induction false} SumOfSome(f: Wallet -> int, some: seq<Wallet>, all: seq<Wallet>)
    requires Distinct(some) && (forall w | w in some :: w in all) && forall w | w in all :: 0 <= f(w)
    ensures SumOf(f, some) <= SumOf(f, all)
  {
    if some == [] {
      SumNonNegative(f, all);
    } else {
      var n := |some| - 1;
      assert some[n] in some && forall w | w in some[..n] :: w in some;
      var k :| 0 <= k < |all| && all[k] == some[n];
      var rest := all[..k] + all[k + 1..];
      forall w | w in some[..n] ensures w in rest {
        assert w in all;
        var i :| 0 <= i < |all| && all[i] == w;
        assert i != k && rest[if i < k then i else i - 1] == w;
      }
      assert forall w | w in rest :: w in all;
      SumOfSome(f, some[..n], rest);
      SumWithout(f, all, k);
    }
  }

  lemma {:induction false} SumOfDifference(f: Wallet -> int, g: Wallet -> int, h: Wallet -> int, ws: seq<Wallet>)
    requires forall w | w in ws :: h(w) == f(w) - g(w)
    ensures SumOf(h, ws) == SumOf(f, ws) - SumOf(g, ws)
  {
    if ws != [] {
      var n := |ws| - 1;
      assert ws[n] in ws && forall w | w in ws[..n] :: w in ws;
      SumOfDifference(f, g, h, ws[..n]);
    }
  }

  // --- The bets, the shares and the deliveries add up ---------------------------------------

  function Bets(sends: seq<SendRecord>): Wallet -> int {
    (w: Wallet) => BetOf(sends, w)
  }

  function Targets(sends: seq<SendRecord>, balance: int): Wallet -> int {
    (w: Wallet) => if TotalBet(sends) > 0 then Target(sends, w, balance, None) else 0
  }

  function Delivered(sends: seq<SendRecord>): Wallet -> int {
    (w: Wallet) => DeliveredTo(sends, w, false)
  }

  function Shortfalls(sends: seq<SendRecord>, balance: int): Wallet -> int {
    (w: Wallet) => if TotalBet(sends) > 0 then Deficit(sends, w, balance, None) else 0
  }

  lemma {:induction false} BetOfLast(sends: seq<SendRecord>, w: Wallet)
    requires sends != []
    ensures var n := |sends| - 1;
            BetOf(sends, w) == if Receives(sends[..n], w) then BetOf(sends[..n], w)
                               else if sends[n].recipient == w then sends[n].betLamports else 0
  {
    var n := |sends| - 1;
    if n == 0 {
      assert sends[..0] == [] && sends[1..] == [];
    } else if sends[0].recipient == w {
      assert sends[..n][0] in sends[..n];
    } else {
      BetOfLast(sends[1..], w);
      assert sends[1..][..n - 1] == sends[..n][1..];
      assert sends[..n] == [sends[0]] + sends[..n][1..];
      assert Receives(sends[..n], w) <==> Receives(sends[..n][1..], w) by {
        assert forall s | s in sends[..n] :: s == sends[0] || s in sends[..n][1..];
        assert forall s | s in sends[..n][1..] :: s in sends[..n];
      }
    }
  }

  lemma {:induction false} BetsAddUp(sends: seq<SendRecord>)
    ensures SumOf(Bets(sends), Recipients(sends)) == TotalBet(sends)
  {
    if sends != [] {
      var n := |sends| - 1;
      var before, w := sends[..n], sends[n].recipient;
      BetsAddUp(before);
      RecipientsAreThose(before);
      forall v | v in Recipients(before) ensures Bets(sends)(v) == Bets(before)(v) {
        BetOfLast(sends, v);
      }
      SumSame(Bets(sends), Bets(before), Recipients(before));
      BetOfLast(sends, w);
      assert (Recipients(before) + [w])[..|Recipients(before)|] == Recipients(before);
    }
  }

  lemma {:induction false} DeliveriesAddUp(sends: seq<SendRecord>)
    ensures SumOf(Delivered(sends), Recipients(sends)) == DeliveredInAll(sends)
  {
    if sends != [] {
      var n := |sends| - 1;
      var before, w := sends[..n], sends[n].recipient;
      DeliveriesAddUp(before);
      RecipientsAreThose(before);
      RecipientsAreThose(sends);
      var ws := Recipients(before);
      if w in ws {
        var k :| 0 <= k < |ws| && ws[k] == w;
        SumChanged(Delivered(before), Delivered(sends), ws, k);
      } else {
        NoneDelivered(before, w);
        SumSame(Delivered(sends), Delivered(before), ws);
        assert (ws + [w])[..|ws|] == ws;
      }
    }
  }

  lemma {:induction false} NoneDelivered(sends: seq<SendRecord>, w: Wallet)
    requires !Receives(sends, w)
    ensures DeliveredTo(sends, w, false) == 0
  {
    if sends != [] {
      var n := |sends| - 1;
      assert sends[n] in sends && forall s | s in sends[..n] :: s in sends;
      NoneDelivered(sends[..n], w);
    }
  }

  lemma {:induction false} TargetsFloored(sends: seq<SendRecord>, balance: int, ws: seq<Wallet>)
    requires TotalBet(sends) > 0
    ensures Floored(TotalBet(sends), Pot(sends, balance), SumOf(Bets(sends), ws), SumOf(Targets(sends, balance), ws),
                    |ws|)
  {
    if ws != [] {
      var n := |ws| - 1;
      TargetsFloored(sends, balance, ws[..n]);
      FlooredPortion(TotalBet(sends), Pot(sends, balance), BetOf(sends, ws[n]));
      FlooredSum(TotalBet(sends), Pot(sends, balance), SumOf(Bets(sends), ws[..n]), BetOf(sends, ws[n]),
                 SumOf(Targets(sends, balance), ws[..n]), Target(sends, ws[n], balance, None), n, 1);
    }
  }

  /** The shares of all wallets, each once, add up to the pot, less at most one unit a
      wallet for rounding down. */
  lemma TargetsAddUp(sends: seq<SendRecord>, balance: int)
    requires TotalBet(sends) > 0
    ensures var shares, wallets := SumOf(Targets(sends, balance), Recipients(sends)), |Recipients(sends)|;
            Pot(sends, balance) - wallets <= shares <= Pot(sends, balance)
  {
    var ws := Recipients(sends);
    TargetsFloored(sends, balance, ws);
    BetsAddUp(sends);
    assert ws == [] ==> SumOf(Bets(sends), ws) == 0;
    CancelFloored(TotalBet(sends), SumOf(Targets(sends, balance), ws), Pot(sends, balance), |ws|);
  }

  // --- What a round gives -------------------------------------------------------------------

  /** No wallet has been delivered more than its share. */
  ghost predicate NoneAhead(sends: seq<SendRecord>, balance: int)
    requires TotalBet(sends) > 0
  {
    forall w | Receives(sends, w) :: DeliveredTo(sends, w, false) <= Target(sends, w, balance, None)
  }

  lemma {:induction false} DeficitsSum(sends: seq<SendRecord>, ws: seq<Wallet>, balance: int)
    requires TotalBet(sends) > 0
    ensures Sum(DeficitsOf(sends, ws, balance, None)) == SumOf(Shortfalls(sends, balance), ws)
  {
    if ws != [] {
      var n := |ws| - 1;
      DeficitsSum(sends, ws[..n], balance);
      var d := DeficitsOf(sends, ws, balance, None);
      assert d[..n] == DeficitsOf(sends, ws[..n], balance, None);
    }
  }

  /** While nobody is ahead, what any wallets are short of is there. */
  lemma ShortfallsAreThere(sends: seq<SendRecord>, ws: seq<Wallet>, balance: int)
    requires TotalBet(sends) > 0 && NoneAhead(sends, balance)
    requires Distinct(ws) && forall w | w in ws :: Receives(sends, w)
    ensures Sum(DeficitsOf(sends, ws, balance, None)) <= balance
  {
    var all := Recipients(sends);
    RecipientsAreThose(sends);
    DeficitsSum(sends, ws, balance);
    SumOfSome(Shortfalls(sends, balance), ws, all);
    SumOfDifference(Targets(sends, balance), Delivered(sends), Shortfalls(sends, balance), all);
    TargetsAddUp(sends, balance);
    DeliveriesAddUp(sends);
  }

  lemma RecipientsReceive(sends: seq<SendRecord>, active: seq<nat>)
    requires ValidIds(sends, active)
    ensures Distinct(RecipientsOf(sends, active)) && forall w | w in RecipientsOf(sends, active) :: Receives(sends, w)
  {
    RecipientsAre(sends, active);
    forall w | w in RecipientsOf(sends, active) ensures Receives(sends, w) {
      var k :| 0 <= k < |active| && sends[active[k]].recipient == w;
      assert sends[active[k]] in sends;
    }
  }

  /** A round that shares out a balance while nobody is ahead brings each of its wallets to
      exactly its bet's share of the pot. */
  lemma RoundByBet(sends: seq<SendRecord>, active: seq<nat>, balance: int, i: nat)
    requires ValidIds(sends, active) && balance > 0 && TotalBet(sends) > 0 && NoneAhead(sends, balance)
    requires i < |RecipientsOf(sends, active)|
    ensures var ws := RecipientsOf(sends, active); var d := DeficitsOf(sends, ws, balance, None);
            var got := DeliveredTo(sends, ws[i], false) + if Sum(d) == 0 then 0 else Given(d, i, balance);
            got == Target(sends, ws[i], balance, None) && IsBetShare(sends, ws[i], Pot(sends, balance), got)
  {
    hide *;
    var ws := RecipientsOf(sends, active);
    var d := DeficitsOf(sends, ws, balance, None);
    RecipientsReceive(sends, active);
    ShortfallsAreThere(sends, ws, balance);
    TargetIsBetShare(sends, ws[i], balance);
    ShortOfItsShare(sends, ws[i], balance);
    GivenInFull(d, i, balance);
  }

  lemma ShortOfItsShare(sends: seq<SendRecord>, w: Wallet, balance: int)
    requires TotalBet(sends) > 0 && NoneAhead(sends, balance) && Receives(sends, w)
    ensures DeliveredTo(sends, w, false) + Deficit(sends, w, balance, None) == Target(sends, w, balance, None)
  {
    hide Target, DeliveredTo, TotalBet;
  }

  lemma GivenInFull(d: seq<nat>, i: nat, balance: int)
    requires i < |d| && Sum(d) <= balance && 0 < balance
    ensures (if Sum(d) == 0 then 0 else Given(d, i, balance)) == d[i]
  {
    if Sum(d) == 0 {
      PartOfSum(d, i);
    } else {
      SharedOut(d, balance);
    }
  }

  lemma {:induction false} PartOfSum(d: seq<nat>, i: nat)
    requires i < |d|
    ensures d[i] <= Sum(d)
  {
    if i < |d| - 1 {
      PartOfSum(d[..|d| - 1], i);
    }
  }

  /** In the first round nobody is ahead, so each wallet in it gets its bet's share of the
      balance. */
  lemma FirstRoundByBet(sends: seq<SendRecord>, balance: int)
    requires TotalBet(sends) > 0 && 0 <= balance && DeliveredInAll(sends) == 0
    ensures NoneAhead(sends, balance) && Pot(sends, balance) == balance
  {
    forall w | Receives(sends, w) ensures DeliveredTo(sends, w, false) <= Target(sends, w, balance, None) {
      DeliveredIsPart(sends, w);
      MoreBetMoreShare(sends, w, w, balance);
    }
  }

  lemma {:induction false} DeliveredIsPart(sends: seq<SendRecord>, w: Wallet)
    ensures DeliveredTo(sends, w, false) <= DeliveredInAll(sends)
  {
    if sends != [] {
      DeliveredIsPart(sends[..|sends| - 1], w);
    }
  }

  // --- What a visit leaves ------------------------------------------------------------------

  /** What left the keeper with these records. */
  function SentOver(sends: seq<SendRecord>, ids: seq<nat>): nat
    requires ValidIds(sends, ids)
  {
    if ids == [] then 0 else SentOver(sends, ids[..|ids| - 1]) + Counted(sends[ids[|ids| - 1]], true)
  }

  /** The records as a visit's look-ups left them: what had arrived is counted, the rest
      waits. */
  function Looked(before: seq<SendRecord>, after: seq<SendRecord>): (r: seq<SendRecord>)
    requires |before| == |after|
    ensures |r| == |before|
    ensures forall i | 0 <= i < |r| :: r[i] == if HasArrived(before[i], after[i]) then after[i] else before[i]
  {
    seq(|before|, i requires 0 <= i < |before| => if HasArrived(before[i], after[i]) then after[i] else before[i])
  }

  /** What this visit sent to the wallet: what had arrived before is not sent again. */
  function SentNow(before: seq<SendRecord>, after: seq<SendRecord>, chosen: seq<nat>, w: Wallet): nat
    requires ValidIds(before, chosen) && ValidIds(after, chosen)
  {
    if chosen == [] then 0
    else
      var id := chosen[|chosen| - 1];
      SentNow(before, after, chosen[..|chosen| - 1], w)
      + if before[id].recipient == w && !HasArrived(before[id], after[id]) then Counted(after[id], true) else 0
  }

  /** Records that count the same give everybody the same share. */
  ghost predicate CountSame(a: seq<SendRecord>, b: seq<SendRecord>) {
    |a| == |b| && forall i | 0 <= i < |a| :: SameOwner(a[i], b[i]) && Counted(a[i], false) == Counted(b[i], false)
  }

  lemma {:induction false} SameCounts(a: seq<SendRecord>, b: seq<SendRecord>, w: Wallet)
    requires CountSame(a, b)
    ensures DeliveredTo(a, w, false) == DeliveredTo(b, w, false) && DeliveredInAll(a) == DeliveredInAll(b)
    ensures (Receives(a, w) <==> Receives(b, w)) && BetOf(a, w) == BetOf(b, w)
  {
    if a != [] {
      var n := |a| - 1;
      SameCounts(a[..n], b[..n], w);
      BetOfLast(a, w);
      BetOfLast(b, w);
      ReceivesLast(a, w);
      ReceivesLast(b, w);
    }
  }

  lemma ReceivesLast(sends: seq<SendRecord>, w: Wallet)
    requires sends != []
    ensures var n := |sends| - 1; Receives(sends, w) <==> Receives(sends[..n], w) || sends[n].recipient == w
  {
    var n := |sends| - 1;
    assert sends[n] in sends && forall s | s in sends :: s in sends[..n] || s == sends[n];
    assert forall s | s in sends[..n] :: s in sends;
  }

  lemma SameShares(a: seq<SendRecord>, b: seq<SendRecord>, balance: int)
    requires CountSame(a, b) && TotalBet(a) > 0
    ensures TotalBet(b) == TotalBet(a) && Pot(a, balance) == Pot(b, balance)
    ensures NoneAhead(a, balance) <==> NoneAhead(b, balance)
    ensures forall w, got :: IsBetShare(a, w, Pot(a, balance), got) <==> IsBetShare(b, w, Pot(b, balance), got)
  {
    TotalBetSame(a, b);
    SameCounts(a, b, "");
    forall w ensures DeliveredTo(a, w, false) == DeliveredTo(b, w, false) && BetOf(a, w) == BetOf(b, w)
      ensures Receives(a, w) <==> Receives(b, w)
      ensures Target(a, w, balance, None) == Target(b, w, balance, None)
    {
      SameCounts(a, b, w);
    }
  }

  /** A round on this balance brought the wallet to its bet's share. */
  ghost predicate HasBetShare(before: seq<SendRecord>, active: seq<nat>, after: seq<SendRecord>, balance: int,
                              w: Wallet)
    requires ValidIds(before, active) && ValidIds(after, active)
  {
    IdsAre(before, active, w);
    IsBetShare(before, w, Pot(before, balance),
               DeliveredTo(before, w, false) + SentOver(after, IdsOf(before, active, w)))
  }
}
