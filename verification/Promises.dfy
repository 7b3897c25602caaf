/** What a round's amounts do to what each wallet is owed
    (offchain/orchestrator/sendRounds.ts). */
module Promises {
  import opened Solana
  import opened Shares
  import opened SendRecords
  import opened Deficits
  import opened DeliveryLedger
  import opened Burns
  import opened Conservation
  import CoinState

  // --- Lists of record numbers, in order ---------------------------------------------

  ghost predicate Increasing(ids: seq<nat>) {
    forall j, k | 0 <= j < k < |ids| :: ids[j] < ids[k]
  }

  /** The numbers that meet `f`, in the order they stand in. */
  function Keep(ids: seq<nat>, f: nat -> bool): seq<nat> {
    if ids == [] then []
    else
      var before, id := Keep(ids[..|ids| - 1], f), ids[|ids| - 1];
      if f(id) then before + [id] else before
  }

  lemma {:induction false} KeepHas(ids: seq<nat>, f: nat -> bool)
    ensures forall x :: x in Keep(ids, f) <==> x in ids && f(x)
  {
    if ids != [] {
      var n := |ids| - 1;
      KeepHas(ids[..n], f);
      assert ids == ids[..n] + [ids[n]];
    }
  }

  lemma {:induction false} KeepRises(ids: seq<nat>, f: nat -> bool)
    requires Increasing(ids)
    ensures Increasing(Keep(ids, f))
  {
    if ids != [] {
      var n := |ids| - 1;
      KeepRises(ids[..n], f);
      KeepHas(ids[..n], f);
      forall k | 0 <= k < |Keep(ids[..n], f)| ensures Keep(ids[..n], f)[k] < ids[n] {
        assert Keep(ids[..n], f)[k] in ids[..n];
      }
    }
  }

  lemma KeepIs(ids: seq<nat>, f: nat -> bool)
    requires Increasing(ids)
    ensures var r := Keep(ids, f);
            && Increasing(r)
            && (forall k | 0 <= k < |r| :: r[k] in ids && f(r[k]))
            && (forall k | 0 <= k < |ids| :: f(ids[k]) ==> ids[k] in r)
  {
    KeepRises(ids, f);
    KeepHas(ids, f);
    forall k | 0 <= k < |Keep(ids, f)| ensures Keep(ids, f)[k] in ids && f(Keep(ids, f)[k]) {
      assert Keep(ids, f)[k] in Keep(ids, f);
    }
  }

  // --- Deliveries that no deficit counts ------------------------------------------------

  /** A delivery that may have taken tokens, or may yet, and is not counted as made:
      given up with its signature unresolved, closed as an account mismatch after it
      had arrived, or waiting for a later round than this one. */
  ghost predicate LooseEnd(r: SendRecord, c: Chain) {
    r.status != Completed && Potential(r, c) > 0
  }

  ghost predicate Loose(sends: seq<SendRecord>, c: Chain, w: Wallet) {
    exists i :: 0 <= i < |sends| && sends[i].recipient == w && LooseEnd(sends[i], c)
  }

  /** What the uncounted deliveries of a wallet may come to. */
  ghost function UncountedTo(sends: seq<SendRecord>, c: Chain, w: Wallet): int {
    if sends == [] then 0
    else
      var n := |sends| - 1;
      UncountedTo(sends[..n], c, w) + if sends[n].recipient == w && LooseEnd(sends[n], c) then Potential(sends[n], c)
        else 0
  }

  lemma LooseNext(sends: seq<SendRecord>, c: Chain, w: Wallet, n: nat)
    requires |sends| == n + 1
    ensures Loose(sends, c, w) <==> Loose(sends[..n], c, w) || (sends[n].recipient == w && LooseEnd(sends[n], c))
  {
    if Loose(sends[..n], c, w) {
      var i :| 0 <= i < n && sends[..n][i].recipient == w && LooseEnd(sends[..n][i], c);
      assert sends[i] == sends[..n][i];
    }
    if Loose(sends, c, w) {
      var i :| 0 <= i < |sends| && sends[i].recipient == w && LooseEnd(sends[i], c);
      assert i < n ==> sends[i] == sends[..n][i];
    }
  }

  lemma {:induction false} UncountedIffLoose(sends: seq<SendRecord>, c: Chain, w: Wallet)
    ensures UncountedTo(sends, c, w) >= 0
    ensures UncountedTo(sends, c, w) > 0 <==> Loose(sends, c, w)
  {
    if sends != [] {
      var n := |sends| - 1;
      UncountedIffLoose(sends[..n], c, w);
      LooseNext(sends, c, w, n);
    }
  }

  // --- The plan of a round ------------------------------------------------------------------

  /** Once the amounts are signed: the planned records may take what was planned, the
      others what they might have taken before. */
  ghost function PlanClaim(sends: seq<SendRecord>, c: Chain, plan: map<nat, nat>): (claim: seq<nat>)
    ensures |claim| == |sends|
    ensures forall i | 0 <= i < |sends| :: claim[i] == if i in plan then plan[i] else Potential(sends[i], c)
  {
    seq(|sends|, i requires 0 <= i < |sends| => if i in plan then plan[i] else Potential(sends[i], c))
  }

  /** Only records that wait, with nothing of theirs in flight, are planned. */
  ghost predicate OnlyFree(sends: seq<SendRecord>, plan: map<nat, nat>) {
    forall i | i in plan ::
      i < |sends| && sends[i].status == Pending && sends[i].pending.None? && sends[i].signature.None?
  }

  ghost predicate AllRecordsOk(sends: seq<SendRecord>, c: Chain, sent: seq<Tx>) {
    forall i | 0 <= i < |sends| :: RecordOk(sends[i], i, c, sent)
  }

  /** The plan's amounts to one wallet. */
  ghost function PlannedTo(sends: seq<SendRecord>, plan: map<nat, nat>, w: Wallet, n: nat): nat
    requires n <= |sends|
  {
    if n == 0 then 0
    else PlannedTo(sends, plan, w, n - 1) + if sends[n - 1].recipient == w then AmountOf(plan, n - 1) else 0
  }

  /** What one record's claim is made of. */
  ghost function Parts(r: SendRecord, i: nat, c: Chain, plan: map<nat, nat>): int {
    Counted(r, true) + (if LooseEnd(r, c) then Potential(r, c) else 0) + AmountOf(plan, i)
  }

  lemma ClaimOfOne(sends: seq<SendRecord>, c: Chain, sent: seq<Tx>, plan: map<nat, nat>, i: nat)
    requires i < |sends| && OnlyFree(sends, plan) && AllRecordsOk(sends, c, sent) && ValidChain(c)
    ensures PlanClaim(sends, c, plan)[i] == Parts(sends[i], i, c, plan)
  {
    assert RecordOk(sends[i], i, c, sent);
  }

  /** A wallet's claims are what it was delivered, what is uncounted, and what is planned. */
  lemma {:induction false} ClaimSplits(sends: seq<SendRecord>, c: Chain, plan: map<nat, nat>, claim: seq<nat>,
                                       w: Wallet, n: nat)
    requires n <= |sends| == |claim| && forall i | 0 <= i < n :: claim[i] == Parts(sends[i], i, c, plan)
    ensures ClaimTo(sends[..n], claim[..n], w)
            == DeliveredTo(sends[..n], w, true) + UncountedTo(sends[..n], c, w) + PlannedTo(sends, plan, w, n)
  {
    if n > 0 {
      ClaimSplits(sends, c, plan, claim, w, n - 1);
      ClaimStep(sends, claim, n, w);
      assert sends[..n][..n - 1] == sends[..n - 1];
    }
  }

  lemma ClaimStep(sends: seq<SendRecord>, claim: seq<nat>, n: nat, w: Wallet)
    requires 0 < n <= |sends| == |claim|
    ensures ClaimTo(sends[..n], claim[..n], w)
            == ClaimTo(sends[..n - 1], claim[..n - 1], w) + if sends[n - 1].recipient == w then claim[n - 1] else 0
  {
    assert sends[..n][..n - 1] == sends[..n - 1] && claim[..n][..n - 1] == claim[..n - 1];
  }

  lemma {:induction false} PlannedIsGiven(sends: seq<SendRecord>, active: seq<nat>, plan: map<nat, nat>, w: Wallet,
                                          n: nat)
    requires n <= |sends| && Increasing(active) && ValidIds(sends, active)
    requires forall k | 0 <= k < |active| :: active[k] < n
    requires forall i | i in plan && i < n :: i in active
    ensures PlannedTo(sends, plan, w, n) == SumOver(plan, IdsOf(sends, active, w))
  {
    if n == 0 {
      assert active == [];
    } else if active != [] && active[|active| - 1] == n - 1 {
      var rest := active[..|active| - 1];
      WithoutLast(active, plan, n);
      PlannedIsGiven(sends, rest, plan, w, n - 1);
      var ids := IdsOf(sends, rest, w);
      assert (ids + [n - 1])[..|ids|] == ids;
    } else {
      NotReached(active, n);
      PlannedIsGiven(sends, active, plan, w, n - 1);
    }
  }

  lemma WithoutLast(active: seq<nat>, plan: map<nat, nat>, n: nat)
    requires n > 0 && Increasing(active) && active != [] && active[|active| - 1] == n - 1
    requires forall i | i in plan && i < n :: i in active
    ensures var rest := active[..|active| - 1];
            && (forall k | 0 <= k < |rest| :: rest[k] < n - 1)
            && (forall i | i in plan && i < n - 1 :: i in rest)
  {
    assert active == active[..|active| - 1] + [n - 1];
  }

  lemma NotReached(active: seq<nat>, n: nat)
    requires n > 0 && Increasing(active) && (active == [] || active[|active| - 1] != n - 1)
    requires forall k | 0 <= k < |active| :: active[k] < n
    ensures n - 1 !in active && forall k | 0 <= k < |active| :: active[k] < n - 1
  {
    forall k | 0 <= k < |active| ensures active[k] < n - 1 {
      var last := active[|active| - 1];
    }
  }

  lemma {:induction false} PlannedSome(sends: seq<SendRecord>, plan: map<nat, nat>, w: Wallet, n: nat)
    requires n <= |sends|
    ensures forall i | i in plan && i < n && sends[i].recipient == w :: plan[i] <= PlannedTo(sends, plan, w, n)
  {
    if n > 0 {
      PlannedSome(sends, plan, w, n - 1);
    }
  }

  /** A coin with burners, at the moment its amounts were worked out. */
  datatype Round = Round(sends: seq<SendRecord>, active: seq<nat>, balance: int,
                         known: nat, shares: seq<Share>)

  ghost predicate RoundStarts(r: Round, c: Chain, sent: seq<Tx>) {
    && ValidChain(c) && AllRecordsOk(r.sends, c, sent)
    && Increasing(r.active) && ValidIds(r.sends, r.active)
    && r.balance > 0 && TotalBet(r.sends) > 0
  }

  ghost predicate RoundOk(r: Round, plan: map<nat, nat>, c: Chain, sent: seq<Tx>) {
    && RoundStarts(r, c, sent) && OnlyFree(r.sends, plan)
    && AllPositive(plan) && (forall i | i in plan :: i in r.active)
    && var ws := RecipientsOf(r.sends, r.active); var d := RoundDeficits(r);
       forall i | 0 <= i < |ws| ::
         SumOver(plan, IdsOf(r.sends, r.active, ws[i])) == if Sum(d) == 0 then 0 else Given(d, i, r.balance)
  }

  ghost function RoundDeficits(r: Round): seq<nat>
    requires TotalBet(r.sends) > 0 && ValidIds(r.sends, r.active)
  {
    DeficitsOf(r.sends, RecipientsOf(r.sends, r.active), r.balance, Some(Basis(r.known, r.shares)))
  }

  ghost function DeficitOf(r: Round, w: Wallet): nat
    requires TotalBet(r.sends) > 0
  {
    Deficit(r.sends, w, r.balance, Some(Basis(r.known, r.shares)))
  }

  /** The round takes this wallet above what it is owed, or may: it is given its
      shortfall while an uncounted delivery of its own may still count, or it takes
      the rounding dust of a scaled-down round beyond its shortfall. */
  ghost predicate Overserved(r: Round, c: Chain, w: Wallet)
    requires TotalBet(r.sends) > 0 && ValidIds(r.sends, r.active)
  {
    var ws := RecipientsOf(r.sends, r.active);
    var d := RoundDeficits(r);
    exists i :: 0 <= i < |ws| && ws[i] == w
                && ((d[i] > 0 && Loose(r.sends, c, w)) || (0 < r.balance < Sum(d) && Given(d, i, r.balance) > d[i]))
  }

  lemma SumCovers(d: seq<nat>, i: nat)
    requires i < |d|
    ensures d[i] <= Sum(d)
  {
    var n := |d| - 1;
    if i < n {
      SumCovers(d[..n], i);
    }
  }

  /** What a wallet of the round is given. */
  lemma GivenTo(r: Round, plan: map<nat, nat>, c: Chain, sent: seq<Tx>, i: nat)
    requires RoundOk(r, plan, c, sent) && i < |RecipientsOf(r.sends, r.active)|
    ensures var d := RoundDeficits(r); var given :=
            PlannedTo(r.sends, plan, RecipientsOf(r.sends, r.active)[i], |r.sends|);
            && (Sum(d) <= r.balance ==> given == d[i])
            && (Sum(d) > r.balance ==> given == Given(d, i, r.balance))
  {
    var d, w := RoundDeficits(r), RecipientsOf(r.sends, r.active)[i];
    PlannedIsGiven(r.sends, r.active, plan, w, |r.sends|);
    SumCovers(d, i);
    if Sum(d) > 0 {
      SharedOut(d, r.balance);
    }
  }

  /** Everything a wallet may take once this round's amounts are signed. */
  ghost function ClaimAfter(r: Round, plan: map<nat, nat>, c: Chain, w: Wallet): nat {
    ClaimTo(r.sends, PlanClaim(r.sends, c, plan), w)
  }

  /** A wallet the round gives nothing is no worse off than before it. */
  lemma UnservedKeeps(sends: seq<SendRecord>, plan: map<nat, nat>, c: Chain, w: Wallet)
    requires AllPositive(plan) && PlannedTo(sends, plan, w, |sends|) == 0
    ensures ClaimTo(sends, PlanClaim(sends, c, plan), w) <= PotentialTo(sends, c, w)
  {
    PlannedSome(sends, plan, w, |sends|);
    ClaimMonotone(sends, sends, PlanClaim(sends, c, plan), Potentials(sends, c), w);
  }

  lemma {:induction false} PlannedNone(sends: seq<SendRecord>, active: seq<nat>, plan: map<nat, nat>, w: Wallet, n: nat)
    requires ValidIds(sends, active) && w !in RecipientsOf(sends, active) && n <= |sends|
    requires forall i | i in plan :: i in active
    ensures PlannedTo(sends, plan, w, n) == 0
  {
    if n > 0 {
      PlannedNone(sends, active, plan, w, n - 1);
      RecipientsAre(sends, active);
      if n - 1 in plan {
        var k :| 0 <= k < |active| && active[k] == n - 1;
      }
    }
  }

  /** The promise through one round: a wallet within what it is owed stays within it,
      unless the round overserves it. */
  lemma RoundKeepsPromise(r: Round, plan: map<nat, nat>, c: Chain, sent: seq<Tx>, w: Wallet)
    requires RoundOk(r, plan, c, sent) && PotentialTo(r.sends, c, w) <= DeliveryOwed(r.known, w, r.shares)
    requires !Overserved(r, c, w)
    ensures ClaimAfter(r, plan, c, w) <= DeliveryOwed(r.known, w, r.shares)
  {
    var ws, d := RecipientsOf(r.sends, r.active), RoundDeficits(r);
    if w in ws {
      var i :| 0 <= i < |ws| && ws[i] == w;
      GivenTo(r, plan, c, sent, i);
      if PlannedTo(r.sends, plan, w, |r.sends|) == 0 {
        UnservedKeeps(r.sends, plan, c, w);
      } else {
        assert d[i] == DeficitOf(r, w);
        assert !(d[i] > 0 && Loose(r.sends, c, w)) && !(r.balance < Sum(d) && Given(d, i, r.balance) > d[i]);
        ServedWithin(r, plan, c, sent, w);
      }
    } else {
      PlannedNone(r.sends, r.active, plan, w, |r.sends|);
      UnservedKeeps(r.sends, plan, c, w);
    }
  }

  lemma WholeClaim(r: Round, plan: map<nat, nat>, c: Chain, sent: seq<Tx>, w: Wallet)
    requires RoundOk(r, plan, c, sent)
    ensures ClaimAfter(r, plan, c, w) == DeliveredTo(r.sends, w, true) + UncountedTo(r.sends, c, w)
            + PlannedTo(r.sends, plan, w, |r.sends|)
  {
    hide Parts, DeliveredTo, UncountedTo, PlannedTo, ClaimTo, TotalBet;
    var claim := PlanClaim(r.sends, c, plan);
    forall i | 0 <= i < |r.sends| ensures claim[i] == Parts(r.sends[i], i, c, plan) {
      ClaimOfOne(r.sends, c, sent, plan, i);
    }
    ClaimSplits(r.sends, c, plan, claim, w, |r.sends|);
    assert r.sends[..|r.sends|] == r.sends && claim[..|r.sends|] == claim;
  }

  lemma ServedWithin(r: Round, plan: map<nat, nat>, c: Chain, sent: seq<Tx>, w: Wallet)
    requires RoundOk(r, plan, c, sent)
    requires 0 < PlannedTo(r.sends, plan, w, |r.sends|) <= DeficitOf(r, w) && !Loose(r.sends, c, w)
    ensures ClaimAfter(r, plan, c, w) <= DeliveryOwed(r.known, w, r.shares)
  {
    WholeClaim(r, plan, c, sent, w);
    UncountedIffLoose(r.sends, c, w);
  }

  /** And exactly then: with enough on the keeper, a round takes a wallet above what
      it is owed if and only if it serves it while something of it is uncounted. */
  lemma OverservedExactly(r: Round, plan: map<nat, nat>, c: Chain, sent: seq<Tx>, w: Wallet)
    requires RoundOk(r, plan, c, sent) && PotentialTo(r.sends, c, w) <= DeliveryOwed(r.known, w, r.shares)
    requires Sum(RoundDeficits(r)) <= r.balance
    ensures ClaimAfter(r, plan, c, w) > DeliveryOwed(r.known, w, r.shares) <==> Overserved(r, c, w)
    ensures Overserved(r, c, w) ==>
              ClaimAfter(r, plan, c, w) == DeliveryOwed(r.known, w, r.shares) + UncountedTo(r.sends, c, w)
  {
    if Overserved(r, c, w) {
      var ws, d := RecipientsOf(r.sends, r.active), RoundDeficits(r);
      var i :| 0 <= i < |ws| && ws[i] == w && d[i] > 0 && Loose(r.sends, c, w);
      GivenTo(r, plan, c, sent, i);
      WholeClaim(r, plan, c, sent, w);
      UncountedIffLoose(r.sends, c, w);
    } else {
      RoundKeepsPromise(r, plan, c, sent, w);
    }
  }

  // --- The balance is always enough ----------------------------------------------------------

  lemma {:induction false} DeficitsFit(sends: seq<SendRecord>, c: Chain, sent: seq<Tx>, balance: int, known: nat,
                                       shares: seq<Share>, ws: seq<Wallet>)
    requires ValidChain(c) && AllRecordsOk(sends, c, sent) && TotalBet(sends) > 0
    requires forall w | w in ws :: PotentialTo(sends, c, w) <= DeliveryOwed(known, w, shares)
    requires forall w | w in ws :: Loose(sends, c, w) ==> Deficit(sends, w, balance, Some(Basis(known, shares))) == 0
    ensures Sum(DeficitsOf(sends, ws, balance, Some(Basis(known, shares))))
            <= Over(LeftFunction(sends, c, known, shares), ws)
  {
    if ws != [] {
      var n := |ws| - 1;
      var d := DeficitsOf(sends, ws, balance, Some(Basis(known, shares)));
      assert ws[n] in ws && forall w | w in ws[..n] :: w in ws;
      DeficitsFit(sends, c, sent, balance, known, shares, ws[..n]);
      assert d[..n] == DeficitsOf(sends, ws[..n], balance, Some(Basis(known, shares)));
      if !Loose(sends, c, ws[n]) {
        NothingLoose(sends, c, sent, ws[n], |sends|);
        assert sends[..|sends|] == sends && Potentials(sends, c)[..|sends|] == Potentials(sends, c);
      }
    }
  }

  lemma {:induction false} NothingLoose(sends: seq<SendRecord>, c: Chain, sent: seq<Tx>, w: Wallet, n: nat)
    requires ValidChain(c) && AllRecordsOk(sends, c, sent) && !Loose(sends, c, w) && n <= |sends|
    ensures ClaimTo(sends[..n], Potentials(sends, c)[..n], w) <= DeliveredTo(sends[..n], w, true)
  {
    if n > 0 {
      NothingLoose(sends, c, sent, w, n - 1);
      assert sends[..n][..n - 1] == sends[..n - 1]
             && Potentials(sends, c)[..n][..n - 1] == Potentials(sends, c)[..n - 1];
      assert RecordOk(sends[n - 1], n - 1, c, sent);
      assert sends[n - 1].recipient == w ==> !LooseEnd(sends[n - 1], c);
    }
  }

  /** Of this round's wallets, those that are short have nothing uncounted. */
  ghost predicate ShortOnesCounted(r: Round, c: Chain)
    requires TotalBet(r.sends) > 0 && ValidIds(r.sends, r.active)
  {
    forall w | w in RecipientsOf(r.sends, r.active) :: Loose(r.sends, c, w) ==> DeficitOf(r, w) == 0
  }

  /** While no wallet has been overserved, and none that is short now has anything
      uncounted, the shortfalls of a round always fit what the keeper holds: nothing is
      ever scaled down, even while other wallets' transfers are of unknown fate. */
  lemma NeverScaledDown(r: Round, c: Chain, sent: seq<Tx>, burns: seq<CoinState.BurnRecord>, burnedRaw: nat,
                        bought: nat)
    requires RoundStarts(r, c, sent) && SendsOk(r.sends, c, sent) && WalletsOk(r.sends, c, r.known, r.shares, {})
    requires WellFormed(r.shares) && r.known <= bought
    requires BurnsOk(burns, burnedRaw, c, sent) && WithinOwed(burns, burnedRaw, r.known, r.shares)
    requires r.balance == KeeperBalance(bought, sent, c, |r.sends|)
    requires ShortOnesCounted(r, c)
    ensures Sum(RoundDeficits(r)) <= r.balance
  {
    var ws := RecipientsOf(r.sends, r.active);
    RecipientsAre(r.sends, r.active);
    ShortfallsFit(r.sends, burns, burnedRaw, r.known, bought, r.shares, c, sent, ws);
    NoneOwedLess(r.sends, c, r.known, r.shares, ws);
    DeficitsFit(r.sends, c, sent, r.balance, r.known, r.shares, ws);
  }

  lemma NoneOverserved(r: Round, c: Chain, w: Wallet)
    requires TotalBet(r.sends) > 0 && ValidIds(r.sends, r.active) && Sum(RoundDeficits(r)) <= r.balance
    requires ShortOnesCounted(r, c)
    ensures !Overserved(r, c, w)
  {
  }

  lemma ShortOnesOverserved(r: Round, c: Chain)
    requires TotalBet(r.sends) > 0 && ValidIds(r.sends, r.active)
    requires forall w | w in RecipientsOf(r.sends, r.active) :: !Overserved(r, c, w)
    ensures ShortOnesCounted(r, c)
  {
    var ws, d := RecipientsOf(r.sends, r.active), RoundDeficits(r);
    forall w | w in ws && Loose(r.sends, c, w) ensures DeficitOf(r, w) == 0 {
      var i :| 0 <= i < |ws| && ws[i] == w;
      assert d[i] == DeficitOf(r, w);
      assert !Overserved(r, c, w);
    }
  }

  lemma NoneOwedLess(sends: seq<SendRecord>, c: Chain, known: nat, shares: seq<Share>, ws: seq<Wallet>)
    requires WalletsOk(sends, c, known, shares, {})
    ensures forall w | w in ws :: PotentialTo(sends, c, w) <= DeliveryOwed(known, w, shares)
  {
  }

  // --- After the round -------------------------------------------------------------------------

  /** Every record takes no more than the plan's claim for it. */
  ghost predicate WithinPlan(before: seq<SendRecord>, c: Chain, plan: map<nat, nat>, after: seq<SendRecord>, d: Chain) {
    SameRecipients(before, after) && forall i | 0 <= i < |before| ::
      Potential(after[i], d) <= PlanClaim(before, c, plan)[i]
  }

  lemma WalletsAfterRound(r: Round, plan: map<nat, nat>, c: Chain, sent: seq<Tx>, after: seq<SendRecord>, d: Chain,
                          tainted: set<Wallet>, overserved: set<Wallet>)
    requires RoundOk(r, plan, c, sent) && WalletsOk(r.sends, c, r.known, r.shares, tainted)
    requires forall w :: Overserved(r, c, w) ==> w in overserved
    requires WithinPlan(r.sends, c, plan, after, d)
    ensures WalletsOk(after, d, r.known, r.shares, tainted + overserved)
  {
    forall w | w !in tainted + overserved ensures PotentialTo(after, d, w) <= DeliveryOwed(r.known, w, r.shares) {
      assert PotentialTo(r.sends, c, w) <= DeliveryOwed(r.known, w, r.shares);
      RoundKeepsPromise(r, plan, c, sent, w);
      ClaimMonotone(after, r.sends, Potentials(after, d), PlanClaim(r.sends, c, plan), w);
    }
  }

  /** Everything planned for one wallet was delivered and nothing else was. */
  ghost predicate AllDelivered(before: seq<SendRecord>, plan: map<nat, nat>, after: seq<SendRecord>, w: Wallet) {
    && SameRecipients(before, after)
    && forall i: nat | i < |before| && before[i].recipient == w ::
         Counted(after[i], true) == Counted(before[i], true) + AmountOf(plan, i)
  }

  lemma DeliveredNext(sends: seq<SendRecord>, w: Wallet, n: nat)
    requires 0 < n <= |sends|
    ensures DeliveredTo(sends[..n], w, true)
            == DeliveredTo(sends[..n - 1], w, true) + if sends[n - 1].recipient == w then Counted(sends[n - 1], true)
              else 0
  {
    assert sends[..n][..n - 1] == sends[..n - 1];
  }

  lemma {:induction false} DeliveredAfter(before: seq<SendRecord>, plan: map<nat, nat>, after: seq<SendRecord>,
                                          w: Wallet, n: nat)
    requires AllDelivered(before, plan, after, w) && n <= |before|
    ensures DeliveredTo(after[..n], w, true) == DeliveredTo(before[..n], w, true) + PlannedTo(before, plan, w, n)
  {
    if n > 0 {
      DeliveredAfter(before, plan, after, w, n - 1);
      DeliveredNext(before, w, n);
      DeliveredNext(after, w, n);
      assert SameOwner(before[n - 1], after[n - 1]);
    }
  }

  lemma DeliveredInFull(before: seq<SendRecord>, plan: map<nat, nat>, after: seq<SendRecord>, w: Wallet)
    requires AllDelivered(before, plan, after, w)
    ensures DeliveredTo(after, w, true) == DeliveredTo(before, w, true) + PlannedTo(before, plan, w, |before|)
  {
    DeliveredAfter(before, plan, after, w, |before|);
    assert before[..|before|] == before && after[..|before|] == after;
  }

  lemma {:induction false} DeliveredWithin(sends: seq<SendRecord>, c: Chain, sent: seq<Tx>, w: Wallet, n: nat)
    requires ValidChain(c) && AllRecordsOk(sends, c, sent) && n <= |sends|
    ensures DeliveredTo(sends[..n], w, true) <= ClaimTo(sends[..n], Potentials(sends, c)[..n], w)
  {
    if n > 0 {
      DeliveredWithin(sends, c, sent, w, n - 1);
      ClaimStep(sends, Potentials(sends, c), n, w);
      assert sends[..n][..n - 1] == sends[..n - 1];
      assert RecordOk(sends[n - 1], n - 1, c, sent);
    }
  }

  lemma DeliveredIsWithin(sends: seq<SendRecord>, c: Chain, sent: seq<Tx>, w: Wallet)
    requires ValidChain(c) && AllRecordsOk(sends, c, sent)
    ensures DeliveredTo(sends, w, true) <= PotentialTo(sends, c, w)
  {
    DeliveredWithin(sends, c, sent, w, |sends|);
    assert sends[..|sends|] == sends && Potentials(sends, c)[..|sends|] == Potentials(sends, c);
  }

  /** A round that goes through brings each of its wallets to exactly what it is owed. */
  lemma RoundMakesWhole(r: Round, plan: map<nat, nat>, c: Chain, sent: seq<Tx>, after: seq<SendRecord>, w: Wallet)
    requires RoundOk(r, plan, c, sent) && AllDelivered(r.sends, plan, after, w)
    requires PotentialTo(r.sends, c, w) <= DeliveryOwed(r.known, w, r.shares)
    requires w in RecipientsOf(r.sends, r.active) && Sum(RoundDeficits(r)) <= r.balance
    ensures DeliveredTo(after, w, true) == DeliveryOwed(r.known, w, r.shares)
  {
    var ws, d := RecipientsOf(r.sends, r.active), RoundDeficits(r);
    var i :| 0 <= i < |ws| && ws[i] == w;
    GivenTo(r, plan, c, sent, i);
    DeliveredIsWithin(r.sends, c, sent, w);
    DeliveredInFull(r.sends, plan, after, w);
    assert d[i] == DeficitOf(r, w);
  }

  /** With nothing on the keeper, and nothing uncounted, a wallet that is short is owed
      nothing more. */
  lemma NothingHeldNothingOwed(sends: seq<SendRecord>, active: seq<nat>, c: Chain, sent: seq<Tx>,
                               burns: seq<CoinState.BurnRecord>,
                               burnedRaw: nat, known: nat, bought: nat, shares: seq<Share>, w: Wallet)
    requires ValidChain(c) && SendsOk(sends, c, sent) && WalletsOk(sends, c, known, shares, {})
    requires WellFormed(shares) && known <= bought
    requires BurnsOk(burns, burnedRaw, c, sent) && WithinOwed(burns, burnedRaw, known, shares)
    requires KeeperBalance(bought, sent, c, |sends|) <= 0 && !Loose(sends, c, w)
    ensures DeliveredTo(sends, w, true) == DeliveryOwed(known, w, shares)
  {
    ShortfallsFit(sends, burns, burnedRaw, known, bought, shares, c, sent, [w]);
    assert [w][..0] == [];
    NothingLoose(sends, c, sent, w, |sends|);
    DeliveredIsWithin(sends, c, sent, w);
    assert sends[..|sends|] == sends && Potentials(sends, c)[..|sends|] == Potentials(sends, c);
  }

  // --- What may happen does --------------------------------------------------------------------

  /** The future in which everything that still can land does. */
  ghost function AllLand(c: Chain, sent: seq<Tx>): Chain {
    Chain(c.height + 1,
          c.landed + (map t | t in sent && t !in c.landed && !Dead(c, t) :: Landing(c.height + 1, true)),
          c.neverLeft)
  }

  lemma AllLandIsAFuture(c: Chain, sent: seq<Tx>)
    requires ValidChain(c)
    ensures Extends(c, AllLand(c, sent))
    ensures forall t | t in sent :: !Dead(c, t) ==> Succeeded(AllLand(c, sent), t)
  {
  }

  ghost function PaidTo(sends: seq<SendRecord>, sent: seq<Tx>, c: Chain, w: Wallet, n: nat): nat
    requires n <= |sends|
  {
    if n == 0 then 0
    else PaidTo(sends, sent, c, w, n - 1) + if sends[n - 1].recipient == w then Paid(sent, c, n - 1) else 0
  }

  lemma {:induction false} PaidToWithin(sends: seq<SendRecord>, c: Chain, sent: seq<Tx>, w: Wallet, n: nat)
    requires SendsOk(sends, c, sent) && ValidChain(c) && n <= |sends|
    ensures PaidTo(sends, sent, c, w, n) <= ClaimTo(sends[..n], Potentials(sends, c)[..n], w)
  {
    if n > 0 {
      PaidToWithin(sends, c, sent, w, n - 1);
      assert sends[..n][..n - 1] == sends[..n - 1]
             && Potentials(sends, c)[..n][..n - 1] == Potentials(sends, c)[..n - 1];
      PaidIsPotential(sends, c, sent, n - 1);
    }
  }

  lemma PaidWhenAllLand(sends: seq<SendRecord>, c: Chain, sent: seq<Tx>, id: nat)
    requires SendsOk(sends, c, sent) && ValidChain(c) && id < |sends|
    ensures Paid(sent, AllLand(c, sent), id) == Potential(sends[id], c)
  {
    var d, r := AllLand(c, sent), sends[id];
    AllLandIsAFuture(c, sent);
    SendsStayOk(sends, c, d, sent);
    PaidIsPotential(sends, d, sent, id);
    assert RecordOk(r, id, c, sent);
    if Named(r).Some? && !Dead(c, Named(r).value) {
      OneDeliveryLands(sends, c, d, sent, id, Named(r).value, Named(r).value);
    }
  }

  lemma {:induction false} PaidToWhenAllLand(sends: seq<SendRecord>, c: Chain, sent: seq<Tx>, w: Wallet, n: nat)
    requires SendsOk(sends, c, sent) && ValidChain(c) && n <= |sends|
    ensures PaidTo(sends, sent, AllLand(c, sent), w, n) == ClaimTo(sends[..n], Potentials(sends, c)[..n], w)
  {
    if n > 0 {
      PaidToWhenAllLand(sends, c, sent, w, n - 1);
      assert sends[..n][..n - 1] == sends[..n - 1]
             && Potentials(sends, c)[..n][..n - 1] == Potentials(sends, c)[..n - 1];
      PaidWhenAllLand(sends, c, sent, n - 1);
    }
  }

  /** A wallet's claims are within what it is owed if and only if no future of the
      chain brings it more, with nothing further signed. */
  lemma PromiseOnChain(sends: seq<SendRecord>, c: Chain, sent: seq<Tx>, w: Wallet, owed: int)
    requires SendsOk(sends, c, sent) && ValidChain(c)
    ensures PotentialTo(sends, c, w) <= owed <==> forall d | Extends(c, d) :: PaidTo(sends, sent, d, w, |sends|) <= owed
  {
    var n, p := |sends|, Potentials(sends, c);
    assert sends[..n] == sends && p[..n] == p;
    AllLandIsAFuture(c, sent);
    PaidToWhenAllLand(sends, c, sent, w, n);
    forall d | Extends(c, d) ensures PaidTo(sends, sent, d, w, n) <= PotentialTo(sends, c, w) {
      SendsStayOk(sends, c, d, sent);
      PaidToWithin(sends, d, sent, w, n);
      assert Potentials(sends, d)[..n] == Potentials(sends, d);
      ClaimMonotone(sends, sends, Potentials(sends, d), p, w);
    }
  }
}
