/** Inputs on which a coin's promise does not hold without the conditions its theorems
    name (offchain/orchestrator/sendRounds.ts, settle.ts). */
module Limits {
  import opened Solana
  import opened Shares
  import opened SendRecords
  import opened CoinState
  import opened Deficits
  import opened DeliveryLedger
  import opened Burns
  import opened Conservation
  import opened Promises
  import opened SendRounds
  import opened Settlement

  /** Two backers of the same commit; the second burns everything. */
  const TWO: seq<Share> := [Share("a", 1, 0), Share("b", 1, 10_000)]

  lemma TwoOwed()
    ensures WellFormed(TWO) && HasBurn(TWO)
    ensures DeliveryOwed(200, "a", TWO) == 100 && DeliveryOwed(200, "b", TWO) == 0
    ensures forall w :: w != "a" ==> DeliveryOwed(200, w, TWO) == 0
  {
    assert TWO[1] in TWO && TWO[1].burn > 0;
    assert TWO[..1] == [Share("a", 1, 0)] && TWO[..1][..0] == [];
    assert TotalStake(TWO[..1]) == 1 && TotalStake(TWO) == 2;
    assert Find(TWO, "a") == Some(TWO[0]);
    assert TWO[1..] == [Share("b", 1, 10_000)] && TWO[1..][1..] == [];
    assert Find(TWO, "b") == Some(TWO[1]);
    assert Portion(200, 10_000, 20_000) == 100;
    forall w | w != "a" && w != "b" ensures Find(TWO, w) == None {
    }
  }

  const SENT: Tx := Tx(0, 5, Delivery(map[0 := 100]))

  /** A delivery of a hundred that names the one transaction signed, not counted as
      delivered, and a second delivery with nothing signed. */
  ghost predicate ServedTwice(x: SendRecord, y: SendRecord, c: Chain) {
    && x.recipient == y.recipient == "a" && x.betLamports == 1
    && RecordOk(x, 0, c, [SENT]) && RecordOk(y, 1, c, [SENT]) && ValidChain(c)
    && Named(x) == Some(SENT) && LooseEnd(x, c) && Counted(x, true) == 0
    && y.status == Pending && Named(y).None?
  }

  lemma TwoInOrder(x: SendRecord, y: SendRecord, c: Chain)
    requires ServedTwice(x, y, c)
    ensures SendsOk([x, y], c, [SENT]) && WalletsOk([x, y], c, 200, TWO, {})
  {
    TwoOwed();
    var both := [x, y];
    assert both[..1] == [x] && [x][..0] == [];
    var p := Potentials(both, c);
    assert p == [100, 0] && p[..1] == [100] && p[..1][..0] == [];
    forall w ensures PotentialTo(both, c, w) == if w == "a" then 100 else 0 {
      assert ClaimTo([x], [100], w) == if w == "a" then 100 else 0;
    }
  }

  lemma TwoUncounted(x: SendRecord, y: SendRecord, c: Chain)
    requires ServedTwice(x, y, c)
    ensures UncountedTo([x, y], c, "a") == 100 && DeliveredTo([x, y], "a", true) == 0 && TotalBet([x, y]) == 1
  {
    var one, both := [x], [x, y];
    assert both[..1] == one && one[..0] == [];
    assert UncountedTo([], c, "a") == 0 && UncountedTo(one, c, "a") == UncountedTo([], c, "a") + 100;
    assert DeliveredTo([], "a", true) == 0 && DeliveredTo(one, "a", true) == DeliveredTo([], "a", true) + 0;
    assert x in one && Receives(one, "a") && !Receives([], "a");
    assert TotalBet(one) == TotalBet([]) + 1;
  }

  lemma OneShort(sends: seq<SendRecord>, w: Wallet, balance: int, basis: Option<Basis>)
    requires TotalBet(sends) > 0
    ensures DeficitsOf(sends, [w], balance, basis) == [Deficit(sends, w, balance, basis)]
    ensures Sum([Deficit(sends, w, balance, basis)]) == Deficit(sends, w, balance, basis)
  {
    var d: seq<nat> := [Deficit(sends, w, balance, basis)];
    assert [w][..0] == [] && d[..0] == [];
  }

  lemma OneRecipient(sends: seq<SendRecord>, id: nat)
    requires id < |sends|
    ensures RecipientsOf(sends, [id]) == [sends[id].recipient]
  {
    var ids: seq<nat> := [id];
    assert ids[..0] == [];
  }

  /** A round that serves the second delivery hands the wallet its whole share again:
      everything is in order, and no wallet has more coming than it is owed. */
  lemma ServesAgain(x: SendRecord, y: SendRecord, c: Chain)
    requires ServedTwice(x, y, c)
    ensures var sends := [x, y]; var r := Round(sends, [1], 100, 200, TWO);
            && SendsOk(sends, c, [SENT]) && WalletsOk(sends, c, 200, TWO, {})
            && RoundStarts(r, c, [SENT]) && RecipientsOf(sends, [1]) == ["a"] && RoundDeficits(r) == [100]
            && Sum(RoundDeficits(r)) <= r.balance && Overserved(r, c, "a") && UncountedTo(sends, c, "a") == 100
  {
    var r := Round([x, y], [1], 100, 200, TWO);
    TwoInOrder(x, y, c);
    TwoUncounted(x, y, c);
    UncountedIffLoose([x, y], c, "a");
    TwoOwed();
    assert Deficit([x, y], "a", 100, Some(Basis(200, TWO))) == 100;
    OneShort([x, y], "a", 100, Some(Basis(200, TWO)));
    OneRecipient([x, y], 1);
    var ws, d := RecipientsOf([x, y], [1]), RoundDeficits(r);
    assert ws[0] == "a" && d[0] == 100;
  }

  const GIVEN_UP: SendRecord :=
    SendRecord("a", 1, Some(false), 1, Abandoned, Some(100), None, None, Some(SENT), Some(5), [], Some(Retryable), 3,
               false)
  const WAITING: SendRecord :=
    SendRecord("a", 1, Some(false), 1, Pending, None, None, None, None, None, [], None, 0, false)
  const START: Chain := Chain(0, map[], {})

  /** A delivery given up while its transaction may still land is not looked at by the
      rounds: the next round hands the wallet its whole share again. */
  lemma GivenUpDeliveryServedAgain()
    ensures var r := Round([GIVEN_UP, WAITING], [1], 100, 200, TWO);
            && SendsOk(r.sends, START, [SENT]) && WalletsOk(r.sends, START, 200, TWO, {})
            && RoundStarts(r, START, [SENT]) && Sum(RoundDeficits(r)) <= r.balance
            && Overserved(r, START, "a") && UncountedTo(r.sends, START, "a") == 100
  {
    assert SENT.effect.pay[0] == 100;
    ServesAgain(GIVEN_UP, WAITING, START);
  }

  const IN_DOUBT: SendRecord :=
    SendRecord("a", 1, Some(true), 1, Pending, Some(100), None, None, Some(SENT), Some(5), [], Some(Retryable), 1,
               false)
  const FOUND: SendRecord := Arrived(IN_DOUBT)
  const CLOSED: SendRecord := FOUND.(status := AtaMismatch)
  const LANDED: Chain := Chain(3, map[SENT := Landing(2, true)], {})

  /** The account rule can overwrite a delivery just found to have arrived: the wallet's
      account is gone and its commit small, so its record is closed as a mismatch and its
      hundred tokens no longer count. The settlement gives the wallet a new delivery, and
      once the account is back a round hands it its whole share again. */
  lemma MismatchedDeliveryServedAgain(verdict: Outcome, last: bool)
    ensures RecordOk(IN_DOUBT, 0, LANDED, [SENT]) && Succeeded(LANDED, SENT) && Counted(FOUND, true) == 100
    ensures AtaVerdictFor(FOUND.betLamports, true, false, last) == Block && MarkMismatch()(FOUND, 0) == CLOSED
    ensures var topUp := TopUp("a", CLOSED, 1); var b := Books(true, 200, TWO, 0, 1);
            var r := Round([CLOSED, topUp], [1], 100, 200, TWO);
            && SettledBy([CLOSED], [verdict], b) == [CLOSED, topUp]
            && AtaVerdictFor(topUp.betLamports, true, true, last) == Allow
            && SendsOk(r.sends, LANDED, [SENT]) && WalletsOk(r.sends, LANDED, 200, TWO, {})
            && RoundStarts(r, LANDED, [SENT]) && Sum(RoundDeficits(r)) <= r.balance
            && Overserved(r, LANDED, "a") && UncountedTo(r.sends, LANDED, "a") == 100
  {
    hide SendsOk, WalletsOk, RoundStarts, Overserved, UncountedTo, SettledBy, RoundDeficits, Sum;
    ClosedIsToppedUp(verdict);
    ClosedInOrder();
    ServesAgain(CLOSED, TopUp("a", CLOSED, 1), LANDED);
  }

  lemma ClosedInOrder()
    ensures RecordOk(IN_DOUBT, 0, LANDED, [SENT]) && Succeeded(LANDED, SENT) && Counted(FOUND, true) == 100
    ensures ServedTwice(CLOSED, TopUp("a", CLOSED, 1), LANDED)
  {
    assert SENT.effect.pay[0] == 100;
  }

  lemma ClosedIsToppedUp(verdict: Outcome)
    ensures SettledBy([CLOSED], [verdict], Books(true, 200, TWO, 0, 1)) == [CLOSED, TopUp("a", CLOSED, 1)]
  {
    var b := Books(true, 200, TWO, 0, 1);
    TwoOwed();
    var looked := AllLookedUp([CLOSED], [verdict]);
    assert looked == [CLOSED];
    RecipientsAreThose(looked);
    assert [CLOSED][..0] == [] && Recipients([CLOSED]) == ["a"] && CLOSED in looked;
    assert DeliveredTo([], "a", true) == 0 && Counted(CLOSED, true) == 0;
    assert DeliveredTo([CLOSED], "a", true) == 0;
    assert !Busy(looked, "a") && Wants(looked, UnsureOf([CLOSED], [verdict]), "a", b);
    assert ["a"][..0] == [] && TopUps(looked, UnsureOf([CLOSED], [verdict]), [], b) == [];
    assert FirstOf(looked, "a") == CLOSED;
  }

  lemma TwoBurn()
    ensures BurnOwed(200, TWO) == 100
  {
    var one := [Share("a", 1, 0)];
    assert TWO[..1] == one && one[..0] == [];
    assert TotalStake(one) == 1 && TotalStake(TWO) == 2;
    assert BurnWeight([]) == 0 && BurnWeight(one) == 0;
    assert BurnWeight(TWO) == BurnWeight(one) + TWO[1].burn;
    assert Portion(200, 10_000, 20_000) == 100;
  }

  const BURNED: Tx := Tx(0, 5, Burn(40))
  const CUT: BurnRecord := BurnRecord(40, Done, Some(BURNED), None, None)
  const BURNT: Chain := Chain(3, map[BURNED := Landing(2, true)], {})

  /** A balance that is not the truth cuts the last burn, and the burn counts as made: a
      hundred were owed, the balance read was forty, forty were burned, and nothing is
      open any more. */
  lemma UntrueBalanceCutsTheBurn()
    ensures BurnOwed(200, TWO) == 100 && CutTo(100, Some(40)) == 40
    ensures BurnsOk([CUT], 40, BURNT, [BURNED]) && WithinOwed([CUT], 40, 200, TWO) && !HasOpen([CUT])
    ensures LastBurnTook([CUT], 40, BurnOwed(200, TWO), Some(40)) && 40 < BurnOwed(200, TWO)
    ensures KeeperBalance(200, [], START, 0) == 200
  {
    TwoBurn();
    assert [CUT][..0] == [] && [BURNED][..0] == [];
  }

  lemma SomeWaits(sends: seq<SendRecord>, ids: seq<nat>, round: nat, sweep: bool)
    requires ids != [] && ValidIds(sends, ids) && forall k | 0 <= k < |ids| :: Waits(sends[ids[k]], round, sweep)
    ensures exists i :: 0 <= i < |sends| && Waits(sends[i], round, sweep)
  {
    assert Waits(sends[ids[0]], round, sweep);
  }

  lemma NothingChosen(sends: seq<SendRecord>, round: nat, sweep: bool)
    requires forall i | 0 <= i < |sends| :: !Waits(sends[i], round, sweep)
    ensures Chosen(sends, round, sweep) == []
  {
    ChosenIs(sends, round, sweep);
    if Chosen(sends, round, sweep) != [] {
      SomeWaits(sends, Chosen(sends, round, sweep), round, sweep);
    }
  }

  const TEN: Tx := Tx(0, 5, Delivery(map[0 := 10]))
  const EARLY: SendRecord :=
    SendRecord("a", 1, Some(false), 1, Pending, Some(10), None, None, Some(TEN), Some(5), [], Some(Retryable), 1, false)

  /** A wallet whose last delivery is still unclear at the settlement gets no top-up. If
      that delivery then turns out to have arrived, the sweep has nothing more to send:
      the wallet stays short, here by ninety of its hundred tokens. */
  lemma LateArrivalLeavesShort(verdict: Outcome)
    ensures var b := Books(true, 200, TWO, 0, 1);
            && SettledBy([EARLY], [verdict], b) == [EARLY]
            && (forall round, sweep :: Chosen([Arrived(EARLY)], round, sweep) == [])
            && ShortOf([Arrived(EARLY)], "a", b) == 90 && !Dust(90, b)
  {
    var b := Books(true, 200, TWO, 0, 1);
    TwoOwed();
    var looked := AllLookedUp([EARLY], [verdict]);
    assert looked == [EARLY];
    RecipientsAreThose(looked);
    assert [EARLY][..0] == [] && Recipients([EARLY]) == ["a"];
    assert EARLY in looked && Settlement.Queued(EARLY) && Busy(looked, "a");
    NoneWanted(looked, UnsureOf([EARLY], [verdict]), Recipients(looked), b);
    assert [Arrived(EARLY)][..0] == [];
    assert DeliveredTo([Arrived(EARLY)], "a", true) == 10;
    forall round, sweep ensures Chosen([Arrived(EARLY)], round, sweep) == [] {
      NothingChosen([Arrived(EARLY)], round, sweep);
    }
  }
}
