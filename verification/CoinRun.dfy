/** A coin through a whole round: delivery rounds, settlement, sweep, last burns, and
    a restart at any moment (offchain/orchestrator/orchestrator.ts, settle.ts,
    resume.ts). */
module CoinRun {
  import opened Solana
  import opened Shares
  import opened SendRecords
  import opened CoinState
  import opened Deficits
  import opened DeliveryLedger
  import opened Burns
  import opened Conservation
  import opened Deliveries
  import opened Promises
  import opened SendRounds
  import opened Settlement
  import opened Sweep
  import PurchaseLedger
  import PurchaseTokens

  // --- Settlement ------------------------------------------------------------------------

  const READ_RETRIES: nat := 4
  const FINISH_RETRIES: nat := 4

  /** Reads the purchases, a few times if some cannot be read yet. */
  method ReadPurchases(coin: Coin, world: World) returns (unread: bool, crashed: bool)
    requires Kept(coin, world)
    modifies coin`known, world
    ensures Kept(coin, world) && Extends(old(world.chain), world.chain) && old(world.bought) <= world.bought
            && old(world.mishaps) <= world.mishaps
    ensures old(coin.known) <= coin.known
    ensures world.mishaps == old(world.mishaps) ==> !crashed
    ensures world.deaths == old(world.deaths) + (if crashed then 1 else 0)
  {
    crashed := false;
    unread := *;
    var tries := 0;
    while tries < READ_RETRIES && unread
      invariant world.deaths == old(world.deaths)
      invariant Kept(coin, world) && Extends(old(world.chain), world.chain) && old(world.bought) <= world.bought
                && old(world.mishaps) <= world.mishaps
      invariant old(coin.known) <= coin.known && !crashed
    {
      crashed := Pass(coin, world);
      Recount(coin, world);
      if crashed { return; }
      unread := *;
      tries := tries + 1;
    }
  }

  /** Burning is blocked, or done: nothing is open, and the last burn took what was due as
      far as the balance last read allowed. */
  ghost predicate BurnedOut(coin: Coin, read: Option<nat>)
    reads coin
  {
    coin.burnBlocked || FireServed(coin)
    || (!HasOpen(coin.burns) && LastBurnTook(coin.burns, coin.burnedRaw, BurnOwed(coin.known, coin.shares), read))
  }

  /** Where nobody burns, the deliveries after a settlement in which nothing goes wrong: the
      given-up ones looked up, and a top-up for every wallet short of its part of the pot
      inferred from some balance read. */
  ghost predicate SettledByBet(before: seq<SendRecord>, verdicts: seq<Outcome>, c: Chain, settled: seq<SendRecord>,
                               shares: seq<Share>, spent: nat, rounds: nat)
  {
    && |verdicts| == |before| && Told(before, verdicts, c, |verdicts|)
    && exists held :: Inferred(AllLookedUp(before, verdicts), settled, {}, held, shares, spent, rounds)
  }

  /** The burn, final, then the top-ups. `waiting` is a burn to be finished later. If
      nothing goes wrong and no wallet is tainted, the fire has all it is owed of what is
      known to have been bought. */
  method Settle(coin: Coin, world: World, spent: nat, rounds: nat)
    returns (waiting: bool, crashed: bool, ghost verdicts: seq<Outcome>)
    requires Kept(coin, world)
    modifies coin`known, coin`burns, coin`burnedRaw, coin`burnBlocked, coin`sends, world
    ensures Kept(coin, world) && Extends(old(world.chain), world.chain) && old(world.bought) <= world.bought
            && old(world.mishaps) <= world.mishaps
    ensures old(coin.known) <= coin.known && old(coin.burnedRaw) <= coin.burnedRaw
    ensures !crashed && !waiting && HasBurn(coin.shares) ==> BurnedOut(coin, world.read)
    ensures !crashed ==> |verdicts| == |old(coin.sends)| && Told(old(coin.sends), verdicts, world.chain, |verdicts|)
    ensures !crashed && HasBurn(coin.shares) ==>
              coin.sends == SettledBy(old(coin.sends), verdicts, Books(true, coin.known, coin.shares, spent, rounds))
    ensures world.mishaps == old(world.mishaps) ==>
              !crashed && coin.burnBlocked == old(coin.burnBlocked) && UnsureOf(old(coin.sends), verdicts) == {}
    ensures world.mishaps == old(world.mishaps) && HasBurn(coin.shares) && coin.tainted == {} && !coin.burnBlocked ==>
              FireServed(coin)
    ensures !HasBurn(coin.shares) ==> !waiting && world.sent == old(world.sent)
    ensures world.mishaps == old(world.mishaps) && !HasBurn(coin.shares) ==>
              SettledByBet(old(coin.sends), verdicts, world.chain, coin.sends, coin.shares, spent, rounds)
    ensures world.deaths == old(world.deaths) + (if crashed then 1 else 0)
  {
    waiting, crashed, verdicts := false, false, [];
    if HasBurn(coin.shares) {
      waiting, crashed := SettleBurn(coin, world);
      if crashed { return; }
    }
    crashed, verdicts := TopUpsFor(coin, world, spent, rounds);
  }

  method SettleBurn(coin: Coin, world: World) returns (waiting: bool, crashed: bool)
    requires Kept(coin, world)
    modifies coin`known, coin`burns, coin`burnedRaw, coin`burnBlocked, world
    ensures Kept(coin, world) && Extends(old(world.chain), world.chain) && old(world.bought) <= world.bought
            && old(world.mishaps) <= world.mishaps
    ensures old(coin.known) <= coin.known && old(coin.burnedRaw) <= coin.burnedRaw
    ensures !crashed && !waiting ==> BurnedOut(coin, world.read)
    ensures world.mishaps == old(world.mishaps) ==> !crashed && coin.burnBlocked == old(coin.burnBlocked)
    ensures world.mishaps == old(world.mishaps) && HasBurn(coin.shares) && coin.tainted == {} && !coin.burnBlocked ==>
              FireServed(coin)
    ensures world.deaths == old(world.deaths) + (if crashed then 1 else 0)
  {
    waiting, crashed := ReadPurchases(coin, world);
    if crashed || coin.burnBlocked { return; }
    var result;
    result, crashed := LastBurn(coin, world);
    waiting := waiting || result == Waiting;
  }

  /** The last word on the burn, after the sweep. `waiting` is what a person has to
      finish by hand. */
  method FinishBurns(coin: Coin, world: World) returns (waiting: bool, crashed: bool)
    requires Kept(coin, world)
    modifies coin`known, coin`burns, coin`burnedRaw, coin`burnBlocked, world
    ensures Kept(coin, world) && Extends(old(world.chain), world.chain) && old(world.bought) <= world.bought
            && old(world.mishaps) <= world.mishaps
    ensures old(coin.known) <= coin.known && old(coin.burnedRaw) <= coin.burnedRaw
    ensures !crashed && !waiting ==> BurnedOut(coin, world.read)
    ensures world.mishaps == old(world.mishaps) ==> !crashed && coin.burnBlocked == old(coin.burnBlocked)
    ensures world.mishaps == old(world.mishaps) && HasBurn(coin.shares) && coin.tainted == {} && !coin.burnBlocked ==>
              FireServed(coin)
    ensures world.deaths == old(world.deaths) + (if crashed then 1 else 0)
  {
    waiting, crashed := true, false;
    var tries := 0;
    while tries < FINISH_RETRIES && waiting
      invariant world.deaths == old(world.deaths)
      invariant Kept(coin, world) && Extends(old(world.chain), world.chain) && old(world.bought) <= world.bought
                && old(world.mishaps) <= world.mishaps
      invariant old(coin.known) <= coin.known && old(coin.burnedRaw) <= coin.burnedRaw
      invariant !waiting ==> BurnedOut(coin, world.read)
      invariant tries == 0 ==> waiting
      invariant world.mishaps == old(world.mishaps) ==> coin.burnBlocked == old(coin.burnBlocked)
      invariant tries > 0 && world.mishaps == old(world.mishaps) && HasBurn(coin.shares) && coin.tainted == {}
                && !coin.burnBlocked ==>
                  FireServed(coin)
    {
      waiting, crashed := FinishBurn(coin, world);
      if crashed { return; }
      tries := tries + 1;
    }
  }

  method FinishBurn(coin: Coin, world: World) returns (waiting: bool, crashed: bool)
    requires Kept(coin, world)
    modifies coin`known, coin`burns, coin`burnedRaw, coin`burnBlocked, world
    ensures Kept(coin, world) && Extends(old(world.chain), world.chain) && old(world.bought) <= world.bought
            && old(world.mishaps) <= world.mishaps
    ensures old(coin.known) <= coin.known && old(coin.burnedRaw) <= coin.burnedRaw
    ensures !crashed && !waiting ==> BurnedOut(coin, world.read)
    ensures world.mishaps == old(world.mishaps) ==> !crashed && coin.burnBlocked == old(coin.burnBlocked)
    ensures world.mishaps == old(world.mishaps) && HasBurn(coin.shares) && coin.tainted == {} && !coin.burnBlocked ==>
              FireServed(coin)
    ensures world.deaths == old(world.deaths) + (if crashed then 1 else 0)
  {
    waiting := true;
    crashed := Pass(coin, world);
    Recount(coin, world);
    if crashed { return; }
    var unread := *;
    var result;
    result, crashed := LastBurn(coin, world);
    if crashed { return; }
    waiting := result == Waiting || (unread && result != Blocked);
  }

  /** A burn that counts as the last one. */
  method LastBurn(coin: Coin, world: World) returns (result: BurnResult, crashed: bool)
    requires Kept(coin, world)
    modifies coin`burns, coin`burnedRaw, coin`burnBlocked, world
    ensures Kept(coin, world) && Extends(old(world.chain), world.chain) && old(world.bought) <= world.bought
            && old(world.mishaps) <= world.mishaps
    ensures old(coin.burnedRaw) <= coin.burnedRaw
    ensures !crashed && result == Blocked ==> coin.burnBlocked
    ensures !crashed && result != Waiting ==> BurnedOut(coin, world.read)
    ensures world.mishaps == old(world.mishaps) ==> !crashed && coin.burnBlocked == old(coin.burnBlocked)
    ensures world.mishaps == old(world.mishaps) && HasBurn(coin.shares) && coin.tainted == {} && !coin.burnBlocked ==>
              FireServed(coin)
    ensures world.deaths == old(world.deaths) + (if crashed then 1 else 0)
  {
    result, crashed := BurnShare(coin, world, true);
  }

  // --- What a settlement leaves ----------------------------------------------------------

  /** No delivery given up can still land. */
  ghost predicate GivenUpAreDead(sends: seq<SendRecord>, c: Chain) {
    forall i | 0 <= i < |sends| && GivenUp(sends[i]) :: Dead(c, sends[i].pending.value)
  }

  /** The same deliveries, and perhaps more after them. */
  ghost predicate Descends(before: seq<SendRecord>, after: seq<SendRecord>) {
    |before| <= |after| && forall i | 0 <= i < |before| :: SameOwner(before[i], after[i])
  }

  lemma LookedUpAre(before: seq<SendRecord>, verdicts: seq<Outcome>, c: Chain)
    requires |before| == |verdicts| && Told(before, verdicts, c, |verdicts|)
    ensures var looked := AllLookedUp(before, verdicts);
            && SameRecipients(before, looked) && (Resting(before) ==> Resting(looked))
               && (Tidy(before) ==> Tidy(looked))
            && (UnsureOf(before, verdicts) == {} ==> GivenUpAreDead(looked, c))
  {
    var looked := AllLookedUp(before, verdicts);
    forall i | 0 <= i < |before|
      ensures Tidy(before) ==> TidyRecord(looked[i])
      ensures UnsureOf(before, verdicts) == {} && GivenUp(looked[i]) ==> Dead(c, looked[i].pending.value)
    {
      assert Tidy(before) ==> TidyRecord(before[i]);
      if GivenUp(before[i]) && verdicts[i] == Unknown {
        assert before[i].recipient in UnsureOf(before, verdicts);
      }
    }
  }

  lemma TopUpsRest(sends: seq<SendRecord>, added: seq<SendRecord>, rounds: nat)
    requires forall i | 0 <= i < |added| :: IsTopUp(added[i], sends, rounds)
    ensures Resting(added) && Tidy(added) && forall i | 0 <= i < |added| :: !GivenUp(added[i])
  {
    forall i | 0 <= i < |added| ensures added[i].status == Pending && TidyRecord(added[i]) {
      assert IsTopUp(added[i], sends, rounds);
    }
  }

  lemma RestTogether(before: seq<SendRecord>, looked: seq<SendRecord>, added: seq<SendRecord>, sure: bool, c: Chain)
    requires (Resting(before) ==> Resting(looked)) && (Tidy(before) ==> Tidy(looked))
             && (sure ==> GivenUpAreDead(looked, c))
    requires Resting(added) && Tidy(added) && forall i | 0 <= i < |added| :: !GivenUp(added[i])
    ensures var settled := looked + added;
            && (Resting(before) ==> Resting(settled)) && (Tidy(before) ==> Tidy(settled))
               && (sure ==> GivenUpAreDead(settled, c))
  {
    var settled := looked + added;
    forall i | 0 <= i < |settled|
      ensures i < |looked| ==> settled[i] == looked[i]
      ensures i >= |looked| ==> settled[i] == added[i - |looked|] && TidyRecord(settled[i])
    {
    }
    assert forall i | 0 <= i < |looked| && Tidy(before) :: TidyRecord(looked[i]);
  }

  lemma SettledByIs(before: seq<SendRecord>, verdicts: seq<Outcome>, b: Books, c: Chain)
    requires |before| == |verdicts| && Told(before, verdicts, c, |verdicts|)
    ensures var settled := SettledBy(before, verdicts, b);
            && (Resting(before) ==> Resting(settled)) && (Tidy(before) ==> Tidy(settled))
            && (UnsureOf(before, verdicts) == {} ==> GivenUpAreDead(settled, c))
            && TotalBet(settled) == TotalBet(before)
            && Descends(before, settled)
  {
    hide Resting, Tidy, GivenUpAreDead, Told, TotalBet, UnsureOf, Wants;
    var looked, unsure := AllLookedUp(before, verdicts), UnsureOf(before, verdicts);
    var added := NewTopUps(looked, unsure, b);
    var settled := looked + added;
    RecipientsAreThose(looked);
    TopUpsAre(looked, unsure, Recipients(looked), b, added);
    assert settled[..|before|] == looked;
    LookedUpAre(before, verdicts, c);
    TopUpsRest(looked, added, b.rounds);
    RestTogether(before, looked, added, unsure == {}, c);
    TotalBetSame(before, looked);
    forall i | 0 <= i < |added| ensures Receives(looked, added[i].recipient) {
    }
    TotalBetAdded(looked, added);
  }

  lemma TotalBetKnown(sends: seq<SendRecord>, s: SendRecord)
    requires Receives(sends, s.recipient)
    ensures TotalBet(sends + [s]) == TotalBet(sends)
  {
    assert (sends + [s])[..|sends|] == sends;
  }

  lemma {:induction false} TotalBetAdded(sends: seq<SendRecord>, added: seq<SendRecord>)
    requires forall i | 0 <= i < |added| :: Receives(sends, added[i].recipient)
    ensures TotalBet(sends + added) == TotalBet(sends)
  {
    if added == [] {
      assert sends + added == sends;
    } else {
      var n := |added| - 1;
      TotalBetAdded(sends, added[..n]);
      AddedReceive(sends, added[..n]);
      TotalBetKnown(sends + added[..n], added[n]);
      assert sends + added == sends + added[..n] + [added[n]];
    }
  }

  // --- Settlement and sweep together ------------------------------------------------------------

  /** Short, but by less than the fee of a delivery is worth. */
  ghost predicate ShortByDust(sends: seq<SendRecord>, b: Books, w: Wallet) {
    0 < ShortOf(sends, w, b) && Dust(ShortOf(sends, w, b), b)
  }

  lemma DustShrinks(more: int, less: int, b: Books)
    requires less <= more && Dust(more, b)
    ensures Dust(less, b)
  {
    assert less * b.spent <= more * b.spent;
  }

  /** A wallet the settlement gave no delivery, and none of whose deliveries waits, has its
      share already, up to dust. */
  lemma Unqueued(coin: Coin, world: World, before: seq<SendRecord>, verdicts: seq<Outcome>, b: Books, w: Wallet)
    requires Kept(coin, world) && HasBurn(coin.shares) && w !in coin.tainted
    requires b.exact && b.bought == coin.known && b.shares == coin.shares
    requires |before| == |verdicts| && coin.sends == SettledBy(before, verdicts, b)
    requires Receives(coin.sends, w) && !Busy(coin.sends, w) && w !in UnsureOf(before, verdicts)
    ensures ShortOf(coin.sends, w, b) == 0 || ShortByDust(coin.sends, b, w)
  {
    var looked, unsure := AllLookedUp(before, verdicts), UnsureOf(before, verdicts);
    SettledWallets(looked, unsure, b, w);
    StillUnwanted(looked, unsure, unsure, b, w);
    DeliveredIsWithin(coin.sends, world.chain, world.sent, w);
  }

  /** The wallets with nothing in the queue have their share, up to dust. */
  ghost predicate UnqueuedDone(sends: seq<SendRecord>, b: Books, tainted: set<Wallet>) {
    forall w | w !in tainted && Receives(sends, w) && !Busy(sends, w) ::
      ShortOf(sends, w, b) == 0 || ShortByDust(sends, b, w)
  }

  lemma UnqueuedOnes(coin: Coin, world: World, before: seq<SendRecord>, verdicts: seq<Outcome>, b: Books)
    requires Kept(coin, world) && HasBurn(coin.shares)
    requires b.exact && b.bought == coin.known && b.shares == coin.shares
    requires |before| == |verdicts| && coin.sends == SettledBy(before, verdicts, b)
    ensures UnsureOf(before, verdicts) == {} ==> UnqueuedDone(coin.sends, b, coin.tainted)
  {
    forall w | UnsureOf(before, verdicts) == {} && w !in coin.tainted && Receives(coin.sends, w) && !Busy(coin.sends, w)
      ensures ShortOf(coin.sends, w, b) == 0 || ShortByDust(coin.sends, b, w)
    {
      Unqueued(coin, world, before, verdicts, b, w);
    }
  }

  /** A delivery of the wallet is in line when the sweep begins. */
  ghost predicate InLineFor(sends: seq<SendRecord>, w: Wallet) {
    exists i :: 0 <= i < |sends| && sends[i].recipient == w && AllRevived(sends)[i].status == Pending
  }

  /** All the wallet's deliveries in line had arrived already: it got what they brought,
      and what it is short of is what they leave. */
  ghost predicate CameLate(settled: seq<SendRecord>, after: seq<SendRecord>, b: Books, w: Wallet) {
    && InLineFor(settled, w) && LateOnly(AllRevived(settled), after, w)
    && ShortOf(after, w, b) == ShortOf(settled, w, b) - ArrivingTo(AllRevived(settled), w)
  }

  /** Where settlement and sweep leave a wallet: with exactly what it is owed, short by
      dust, without an account, or with what had arrived late. */
  ghost predicate SettledTo(settled: seq<SendRecord>, after: seq<SendRecord>, b: Books, w: Wallet) {
    ShortOf(after, w, b) == 0 || ShortByDust(after, b, w) || Mismatched(after, w) || CameLate(settled, after, b, w)
  }

  ghost predicate AllSettled(settled: seq<SendRecord>, after: seq<SendRecord>, b: Books) {
    forall w | Receives(settled, w) :: SettledTo(settled, after, b, w)
  }

  /** At the settlement nothing is uncounted but what waits, and deliveries closed as a
      mismatch. */
  lemma NothingLooseOutside(settled: seq<SendRecord>, c: Chain, sent: seq<Tx>, w: Wallet)
    requires AllRecordsOk(AllRevived(settled), c, sent) && Resting(settled) && GivenUpAreDead(settled, c)
    requires LooseOutside(InLine(AllRevived(settled)), AllRevived(settled), c, w)
    ensures Mismatched(AllRevived(settled), w)
  {
    var revived := AllRevived(settled);
    InLineIs(revived);
    var i: nat :| i < |revived| && i !in InLine(revived) && revived[i].recipient == w && LooseEnd(revived[i], c);
    assert RecordOk(revived[i], i, c, sent) && revived[i] == Revived(settled[i]);
    assert GivenUp(revived[i]) ==> GivenUp(settled[i]);
  }

  lemma {:induction false} RevivedCounts(sends: seq<SendRecord>, revived: seq<SendRecord>, w: Wallet)
    requires |sends| == |revived| && forall i | 0 <= i < |sends| :: revived[i] == Revived(sends[i])
    ensures DeliveredTo(revived, w, true) == DeliveredTo(sends, w, true)
  {
    if sends != [] {
      RevivedCounts(sends[..|sends| - 1], revived[..|sends| - 1], w);
    }
  }

  lemma SweptIsSettled(coin: Coin, world: World, settled: seq<SendRecord>, c: Chain, sent: seq<Tx>, b: Books,
                       tainted: set<Wallet>)
    requires Kept(coin, world) && HasBurn(coin.shares) && coin.tainted == {} && tainted == {}
    requires b.exact && b.bought == coin.known && b.shares == coin.shares
    requires Swept(AllRevived(settled), c, coin.sends, coin.known, coin.shares)
    requires StillStay(settled, coin.sends) && StillStay(AllRevived(settled), coin.sends)
    requires AllRecordsOk(AllRevived(settled), c, sent) && Resting(settled) && GivenUpAreDead(settled, c)
    requires UnqueuedDone(settled, b, tainted)
    ensures AllSettled(settled, coin.sends, b)
  {
    forall w | Receives(settled, w) ensures SettledTo(settled, coin.sends, b, w) {
      if InLineFor(settled, w) {
        InLineIsSettled(coin, settled, c, sent, b, w);
      } else {
        if Busy(settled, w) {
          BusyIsInLine(settled, w);
        }
        DeliveredStays(settled, coin.sends, w, |settled|);
        assert settled[..|settled|] == settled && coin.sends[..|settled|] == coin.sends;
        DeliveredIsWithin(coin.sends, world.chain, world.sent, w);
        if ShortOf(settled, w, b) != 0 {
          DustShrinks(ShortOf(settled, w, b), ShortOf(coin.sends, w, b), b);
        }
      }
    }
  }

  lemma BusyIsInLine(settled: seq<SendRecord>, w: Wallet)
    requires Resting(settled) && Busy(settled, w)
    ensures InLineFor(settled, w)
  {
    var s :| s in settled && s.recipient == w && Settlement.Queued(s);
    var i :| 0 <= i < |settled| && settled[i] == s;
    assert AllRevived(settled)[i].status == Pending;
  }

  lemma InLineIsSettled(coin: Coin, settled: seq<SendRecord>, c: Chain, sent: seq<Tx>, b: Books, w: Wallet)
    requires b.exact && b.bought == coin.known && b.shares == coin.shares && InLineFor(settled, w)
    requires Swept(AllRevived(settled), c, coin.sends, coin.known, coin.shares)
    requires StillStay(AllRevived(settled), coin.sends)
    requires AllRecordsOk(AllRevived(settled), c, sent) && Resting(settled) && GivenUpAreDead(settled, c)
    ensures SettledTo(settled, coin.sends, b, w)
  {
    var revived := AllRevived(settled);
    var i :| 0 <= i < |settled| && settled[i].recipient == w && revived[i].status == Pending;
    assert SweptRight(revived, c, coin.sends, coin.known, coin.shares, revived[i].recipient);
    if LooseOutside(InLine(revived), revived, c, w) {
      NothingLooseOutside(settled, c, sent, w);
      MismatchedStays(revived, coin.sends, w);
    } else if LateOnly(revived, coin.sends, w) {
      LateIsExact(revived, coin.sends, c, sent, coin.known, coin.shares, w);
      RevivedCounts(settled, revived, w);
    }
  }

  /** What a run's last settlement left: the records, what was known to be bought, and how
      much had gone wrong when it began. */
  datatype Ending = Ending(settled: seq<SendRecord>, known: nat, mishaps: nat)

  /** The coin's books as they stand. */
  ghost function BooksOf(coin: Coin, spent: nat, rounds: nat): Books
    reads coin
  {
    Books(true, coin.known, coin.shares, spent, rounds)
  }

  /** The ending is one of this run. */
  ghost predicate Tied(end: Ending, known: nat, more: nat, mishaps: nat, worse: nat, sends: seq<SendRecord>) {
    known <= end.known <= more && mishaps <= end.mishaps <= worse && SameRecipients(end.settled, sends)
  }

  /** The settlement's records are those of the settlement function, on what the chain
      said. */
  ghost predicate SettledAs(before: seq<SendRecord>, verdicts: seq<Outcome>, c: Chain, b: Books, end: Ending) {
    && |verdicts| == |before| && Told(before, verdicts, c, |verdicts|)
    && end.settled == SettledBy(before, verdicts, b.(bought := end.known))
  }

  /** For a coin with burners, if nothing has gone wrong since the settlement began, no
      purchase was read since it and no wallet is tainted, every wallet is settled. */
  ghost predicate EndsWell(sends: seq<SendRecord>, tainted: set<Wallet>, mishaps: nat, b: Books, end: Ending) {
    HasBurn(b.shares) && tainted == {} && TotalBet(sends) > 0 && b.bought == end.known && mishaps == end.mishaps ==>
      AllSettled(end.settled, sends, b)
  }

  /** Every wallet has exactly what it is owed, is short by dust, or has lost its
      account. */
  ghost predicate AllServed(sends: seq<SendRecord>, b: Books) {
    forall w | Receives(sends, w) :: ShortOf(sends, w, b) == 0 || ShortByDust(sends, b, w) || Mismatched(sends, w)
  }

  /** What a run from a tidy start comes to if nothing goes wrong: every wallet is served,
      the fire has all it is owed unless burning is blocked, and no wallet was
      overserved. */
  ghost predicate EndsRight(sends: seq<SendRecord>, tainted: set<Wallet>, burnedRaw: nat, blocked: bool, b: Books,
                            end: Ending) {
    && Tidy(sends) && tainted == {}
    && (TotalBet(sends) > 0 && b.bought == end.known ==>
          AllServed(sends, b) && (!blocked ==> burnedRaw == BurnOwed(b.bought, b.shares)))
  }

  /** What the sweep starts from. */
  ghost predicate ReadyToSweep(settled: seq<SendRecord>, c: Chain, b: Books) {
    TotalBet(settled) > 0 && Resting(settled) && GivenUpAreDead(settled, c) && UnqueuedDone(settled, b, {})
  }

  /** The sweep of a coin just settled. */
  method SweepSettled(coin: Coin, world: World, ghost b: Books) returns (crashed: bool)
    requires Kept(coin, world) && b.exact && b.bought == coin.known && b.shares == coin.shares
    modifies coin`sends, coin`known, coin`burns, coin`burnedRaw, coin`burnBlocked, coin`tainted, world
    ensures Kept(coin, world) && Extends(old(world.chain), world.chain)
    ensures old(world.bought) <= world.bought && old(world.mishaps) <= world.mishaps
    ensures old(coin.known) <= coin.known && old(coin.tainted) <= coin.tainted && old(coin.burnedRaw) <= coin.burnedRaw
    ensures SameRecipients(old(coin.sends), coin.sends)
    ensures world.mishaps == old(world.mishaps) ==> !crashed && coin.burnBlocked == old(coin.burnBlocked)
    ensures world.mishaps == old(world.mishaps) && Tidy(old(coin.sends)) && old(coin.tainted) == {} ==>
              Tidy(coin.sends) && coin.tainted == {}
    ensures world.mishaps == old(world.mishaps) && HasBurn(coin.shares) && coin.tainted == {}
            && coin.known == old(coin.known)
            && ReadyToSweep(old(coin.sends), old(world.chain), b) ==>
              AllSettled(old(coin.sends), coin.sends, b)
    ensures world.mishaps == old(world.mishaps) && !HasBurn(coin.shares)
            && Holds(old(world.bought), old(world.sent), old(world.chain), |coin.sends|, 1) ==>
              SweptByBet(AllRevived(old(coin.sends)), coin.sends, world.read)
    ensures world.deaths == old(world.deaths) + (if crashed then 1 else 0)
  {
    hide SweptByBet, Holds, Kept, Swept, GivenUpAreDead, UnqueuedDone, Resting, Tidy, AllRecordsOk, AllSettled;
    ghost var settled, c, sent := coin.sends, world.chain, world.sent;
    KeptInOrder(coin, world);
    RevivedInOrder(settled, c, sent);
    crashed := SweepDeliveries(coin, world);
    if world.mishaps == old(world.mishaps) && HasBurn(coin.shares) && coin.tainted == {} && coin.known == b.bought
       && ReadyToSweep(settled, c, b) {
      SweptIsSettled(coin, world, settled, c, sent, b, {});
    }
  }

  lemma RevivedInOrder(sends: seq<SendRecord>, c: Chain, sent: seq<Tx>)
    requires AllRecordsOk(sends, c, sent)
    ensures AllRecordsOk(AllRevived(sends), c, sent)
  {
    forall i | 0 <= i < |sends| ensures RecordOk(AllRevived(sends)[i], i, c, sent) {
      assert RecordOk(sends[i], i, c, sent);
    }
  }

  /** How a settlement leaves the deliveries. */
  ghost predicate SettledWell(before: seq<SendRecord>, verdicts: seq<Outcome>, settled: seq<SendRecord>,
                              tainted: set<Wallet>, c: Chain, b: Books, calm: bool)
  {
    && |verdicts| == |before| && Told(before, verdicts, c, |verdicts|) && settled == SettledBy(before, verdicts, b)
    && Descends(before, settled) && (Resting(before) ==> Resting(settled)) && (Tidy(before) ==> Tidy(settled))
    && (calm ==> GivenUpAreDead(settled, c) && UnqueuedDone(settled, b, tainted))
  }

  method SettleCoin(coin: Coin, world: World, spent: nat, rounds: nat)
    returns (waiting: bool, crashed: bool, ghost verdicts: seq<Outcome>)
    requires Kept(coin, world)
    modifies coin`known, coin`burns, coin`burnedRaw, coin`burnBlocked, coin`sends, world
    ensures Kept(coin, world) && Extends(old(world.chain), world.chain)
    ensures old(world.bought) <= world.bought && old(world.mishaps) <= world.mishaps
    ensures old(coin.known) <= coin.known
    ensures !crashed && HasBurn(coin.shares) ==>
              SettledWell(old(coin.sends), verdicts, coin.sends, coin.tainted, world.chain,
                          BooksOf(coin, spent, rounds),
                          world.mishaps == old(world.mishaps))
    ensures world.mishaps == old(world.mishaps) ==> !crashed && coin.burnBlocked == old(coin.burnBlocked)
    ensures world.mishaps == old(world.mishaps) && HasBurn(coin.shares) && coin.tainted == {} && !coin.burnBlocked ==>
              FireServed(coin)
    ensures !HasBurn(coin.shares) ==> !waiting && world.sent == old(world.sent)
    ensures world.mishaps == old(world.mishaps) && !HasBurn(coin.shares) ==>
              SettledByBet(old(coin.sends), verdicts, world.chain, coin.sends, coin.shares, spent, rounds)
    ensures world.deaths == old(world.deaths) + (if crashed then 1 else 0)
  {
    hide SettledByBet, Kept, SettledBy, Told, FireServed, GivenUpAreDead, UnqueuedDone, Resting, Tidy, Descends,
      UnsureOf, BurnedOut;
    waiting, crashed, verdicts := Settle(coin, world, spent, rounds);
    if HasBurn(coin.shares) && !crashed {
      SettledByIs(old(coin.sends), verdicts, BooksOf(coin, spent, rounds), world.chain);
      UnqueuedOnes(coin, world, old(coin.sends), verdicts, BooksOf(coin, spent, rounds));
    }
  }

  /** How a coin nobody burns ends if nothing goes wrong and the keeper holds anything:
      settled by the bets; and after the sweep nothing waits, and whoever was sent something
      has its bet's share. */
  ghost predicate EndsByBet(before: seq<SendRecord>, verdicts: seq<Outcome>, c: Chain, end: Ending,
                            after: seq<SendRecord>, shares: seq<Share>, spent: nat, rounds: nat, read: Option<nat>)
  {
    && SettledByBet(before, verdicts, c, end.settled, shares, spent, rounds)
    && SweptByBet(AllRevived(end.settled), after, read)
  }

  lemma SettledByBetLater(before: seq<SendRecord>, verdicts: seq<Outcome>, c: Chain, d: Chain, settled: seq<SendRecord>,
                          shares: seq<Share>, spent: nat, rounds: nat)
    requires SettledByBet(before, verdicts, c, settled, shares, spent, rounds) && Extends(c, d)
    ensures SettledByBet(before, verdicts, d, settled, shares, spent, rounds)
  {
    ToldLater(before, verdicts, c, d, |verdicts|);
  }

  lemma SameLength(a: seq<SendRecord>, b: seq<SendRecord>)
    requires SameRecipients(a, b)
    ensures |a| == |b|
  {
  }

  /** Settlement and sweep, before the last burns. */
  method SettleThenSweep(coin: Coin, world: World, spent: nat, rounds: nat)
    returns (waiting: bool, crashed: bool, ghost end: Ending, ghost verdicts: seq<Outcome>)
    requires Kept(coin, world)
    modifies coin`sends, coin`known, coin`burns, coin`burnedRaw, coin`burnBlocked, coin`tainted, world
    ensures Kept(coin, world) && Extends(old(world.chain), world.chain)
    ensures old(world.bought) <= world.bought && old(world.mishaps) <= world.mishaps
    ensures old(coin.known) <= coin.known && old(coin.tainted) <= coin.tainted
    ensures !crashed ==> Tied(end, old(coin.known), coin.known, old(world.mishaps), world.mishaps, coin.sends)
    ensures !crashed && HasBurn(coin.shares) ==>
              SettledAs(old(coin.sends), verdicts, world.chain, BooksOf(coin, spent, rounds), end)
    ensures !crashed && HasBurn(coin.shares) ==> Descends(old(coin.sends), coin.sends)
    ensures !crashed && HasBurn(coin.shares) && Resting(old(coin.sends)) ==>
              EndsWell(coin.sends, coin.tainted, world.mishaps, BooksOf(coin, spent, rounds), end)
    ensures world.mishaps == old(world.mishaps) ==> !crashed && coin.burnBlocked == old(coin.burnBlocked)
    ensures world.mishaps == old(world.mishaps) && HasBurn(coin.shares) && Tidy(old(coin.sends))
            && old(coin.tainted) == {} ==>
              EndsRight(coin.sends, coin.tainted, coin.burnedRaw, coin.burnBlocked, BooksOf(coin, spent, rounds), end)
    ensures !HasBurn(coin.shares) ==> !waiting
    ensures world.mishaps == old(world.mishaps) && !HasBurn(coin.shares)
            && Holds(old(world.bought), old(world.sent), old(world.chain), |coin.sends|, 1) ==>
              EndsByBet(old(coin.sends), verdicts, world.chain, end, coin.sends, coin.shares, spent, rounds,
                        world.read)
    ensures world.deaths == old(world.deaths) + (if crashed then 1 else 0)
  {
    hide SweptByBet, SettledByBet, Holds, Kept, SettledBy, Told, GivenUpAreDead, UnqueuedDone, Resting, Tidy, Descends,
      SameRecipients, AllSettled,
      Extends;
    end := Ending([], 0, world.mishaps);
    waiting, crashed, verdicts := SettleCoin(coin, world, spent, rounds);
    if crashed { return; }
    end := Ending(coin.sends, coin.known, old(world.mishaps));
    ghost var c, burned, tainted := world.chain, coin.burnedRaw, coin.tainted;
    HoldsLater(old(world.bought), world.bought, world.sent, old(world.chain), c, |coin.sends|);
    crashed := SweepSettled(coin, world, BooksOf(coin, spent, rounds));
    SameLength(end.settled, coin.sends);
    if world.mishaps == old(world.mishaps) && !HasBurn(coin.shares) {
      SettledByBetLater(old(coin.sends), verdicts, c, world.chain, end.settled, coin.shares, spent, rounds);
    }
    ExtendsTransitive(old(world.chain), c, world.chain);
    TotalBetSame(end.settled, coin.sends);
    assert coin.tainted == {} ==> tainted == {};
    TidyIsResting(old(coin.sends));
    if HasBurn(coin.shares) {
      ToldLater(old(coin.sends), verdicts, c, world.chain, |verdicts|);
      DescendsToSame(old(coin.sends), end.settled, coin.sends);
    }
    if world.mishaps == old(world.mishaps) && HasBurn(coin.shares) && Tidy(old(coin.sends)) && old(coin.tainted) == {} {
      EndedRight(coin, world, burned, end, spent, rounds);
    }
  }

  lemma TidyIsResting(sends: seq<SendRecord>)
    ensures Tidy(sends) ==> Resting(sends)
  {
    assert forall i | 0 <= i < |sends| && Tidy(sends) :: TidyRecord(sends[i]);
  }

  lemma BurnedEnough(burns: seq<BurnRecord>, burnedRaw: nat, before: nat, known: nat, shares: seq<Share>)
    requires WithinOwed(burns, burnedRaw, known, shares) && before <= burnedRaw && before == BurnOwed(known, shares)
    ensures burnedRaw == BurnOwed(known, shares)
  {
  }

  lemma EndedRight(coin: Coin, world: World, burned: nat, end: Ending, spent: nat, rounds: nat)
    requires Kept(coin, world) && Tidy(end.settled) && Tidy(coin.sends) && coin.tainted == {}
             && burned <= coin.burnedRaw
    requires SameRecipients(end.settled, coin.sends)
    requires TotalBet(end.settled) > 0 && coin.known == end.known ==>
               AllSettled(end.settled, coin.sends, BooksOf(coin, spent, rounds))
    requires !coin.burnBlocked ==> burned == BurnOwed(end.known, coin.shares)
    ensures EndsRight(coin.sends, coin.tainted, coin.burnedRaw, coin.burnBlocked, BooksOf(coin, spent, rounds), end)
  {
    TotalBetSame(end.settled, coin.sends);
    if TotalBet(coin.sends) > 0 && coin.known == end.known {
      TidyServed(end.settled, coin.sends, BooksOf(coin, spent, rounds));
      if !coin.burnBlocked {
        BurnedEnough(coin.burns, coin.burnedRaw, burned, coin.known, coin.shares);
      }
    }
  }

  lemma DescendsToSame(a: seq<SendRecord>, b: seq<SendRecord>, c: seq<SendRecord>)
    requires SameRecipients(b, c)
    ensures Descends(a, b) ==> Descends(a, c)
  {
  }

  lemma TidyServed(settled: seq<SendRecord>, sends: seq<SendRecord>, b: Books)
    requires Tidy(settled) && SameRecipients(settled, sends) && AllSettled(settled, sends, b)
    ensures AllServed(sends, b)
  {
    TotalBetSame(settled, sends);
    forall w | Receives(sends, w)
      ensures ShortOf(sends, w, b) == 0 || ShortByDust(sends, b, w) || Mismatched(sends, w)
    {
      assert SettledTo(settled, sends, b, w);
      LateWasSigned(settled, sends, b, w);
      TidyIsUnsigned(settled);
    }
  }

  ghost predicate SomeSigned(sends: seq<SendRecord>) {
    exists i :: 0 <= i < |sends| && sends[i].pending.Some?
  }

  lemma LateWasSigned(settled: seq<SendRecord>, after: seq<SendRecord>, b: Books, w: Wallet)
    ensures CameLate(settled, after, b, w) ==> SomeSigned(settled)
  {
    if CameLate(settled, after, b, w) {
      var i :| 0 <= i < |settled| && settled[i].recipient == w && AllRevived(settled)[i].status == Pending;
      assert HasArrived(AllRevived(settled)[i], after[i]);
      assert settled[i].pending.Some?;
    }
  }

  lemma TidyIsUnsigned(sends: seq<SendRecord>)
    ensures Tidy(sends) ==> !SomeSigned(sends)
  {
    assert forall i | 0 <= i < |sends| && Tidy(sends) :: TidyRecord(sends[i]);
  }

  lemma BooksAre(coin: Coin, spent: nat, rounds: nat)
    ensures BooksOf(coin, spent, rounds) == Books(true, coin.known, coin.shares, spent, rounds)
  {
  }

  /** The last burns change neither what was delivered nor what the ending says of it. */
  lemma EndingStays(sends: seq<SendRecord>, tainted: set<Wallet>, end: Ending, b: Books, mishaps: nat, known: nat,
                    worse: nat, start: nat, began: nat)
    requires 0 <= b.bought <= known && mishaps <= worse && Tied(end, start, b.bought, began, mishaps, sends)
    ensures Tied(end, start, known, began, worse, sends) && end.known <= b.bought
    ensures EndsWell(sends, tainted, mishaps, b, end) ==> EndsWell(sends, tainted, worse, b.(bought := known), end)
  {
  }

  lemma RightStays(coin: Coin, world: World, burned: nat, b: Books, end: Ending)
    requires Kept(coin, world) && burned <= coin.burnedRaw && 0 <= b.bought <= coin.known && b.shares == coin.shares
    requires end.known <= b.bought && EndsRight(coin.sends, coin.tainted, burned, coin.burnBlocked, b, end)
    ensures EndsRight(coin.sends, coin.tainted, coin.burnedRaw, coin.burnBlocked, b.(bought := coin.known), end)
  {
    if coin.known == b.bought && burned == BurnOwed(coin.known, coin.shares) {
      BurnedEnough(coin.burns, coin.burnedRaw, burned, coin.known, coin.shares);
    }
  }

  lemma SettledLater(before: seq<SendRecord>, verdicts: seq<Outcome>, c: Chain, d: Chain, b: Books, known: nat,
                     end: Ending)
    requires SettledAs(before, verdicts, c, b, end) && Extends(c, d)
    ensures SettledAs(before, verdicts, d, b.(bought := known), end)
  {
    ToldLater(before, verdicts, c, d, |verdicts|);
  }

  /** The settlement, the sweep and the last burns. */
  method SettleAndSweep(coin: Coin, world: World, spent: nat, rounds: nat)
    returns (crashed: bool, ghost end: Ending, ghost verdicts: seq<Outcome>)
    requires Kept(coin, world)
    modifies coin`sends, coin`known, coin`burns, coin`burnedRaw, coin`burnBlocked, coin`tainted, world
    ensures Kept(coin, world) && Extends(old(world.chain), world.chain)
    ensures old(world.bought) <= world.bought && old(world.mishaps) <= world.mishaps
    ensures old(coin.known) <= coin.known && old(coin.tainted) <= coin.tainted
    ensures !crashed ==> Tied(end, old(coin.known), coin.known, old(world.mishaps), world.mishaps, coin.sends)
    ensures !crashed && HasBurn(coin.shares) ==>
              SettledAs(old(coin.sends), verdicts, world.chain, BooksOf(coin, spent, rounds), end)
    ensures !crashed && HasBurn(coin.shares) ==> Descends(old(coin.sends), coin.sends)
    ensures !crashed && HasBurn(coin.shares) && Resting(old(coin.sends)) ==>
              EndsWell(coin.sends, coin.tainted, world.mishaps, BooksOf(coin, spent, rounds), end)
    ensures world.mishaps == old(world.mishaps) ==> !crashed && coin.burnBlocked == old(coin.burnBlocked)
    ensures world.mishaps == old(world.mishaps) && HasBurn(coin.shares) && Tidy(old(coin.sends))
            && old(coin.tainted) == {} ==>
              EndsRight(coin.sends, coin.tainted, coin.burnedRaw, coin.burnBlocked, BooksOf(coin, spent, rounds), end)
    ensures world.mishaps == old(world.mishaps) && !HasBurn(coin.shares)
            && Holds(old(world.bought), old(world.sent), old(world.chain), |coin.sends|, 1) ==>
              EndsByBet(old(coin.sends), verdicts, world.chain, end, coin.sends, coin.shares, spent, rounds,
                        world.read)
    ensures world.deaths == old(world.deaths) + (if crashed then 1 else 0)
  {
    hide *;
    var waiting;
    waiting, crashed, end, verdicts := SettleThenSweep(coin, world, spent, rounds);
    if crashed || !waiting { return; }
    ghost var c, burned, b, mishaps := world.chain, coin.burnedRaw, BooksOf(coin, spent, rounds), world.mishaps;
    BooksAre(coin, spent, rounds);
    waiting, crashed := FinishBurns(coin, world);
    ExtendsTransitive(old(world.chain), c, world.chain);
    BooksAre(coin, spent, rounds);
    EndingStays(coin.sends, coin.tainted, end, b, mishaps, coin.known, world.mishaps, old(coin.known),
                old(world.mishaps));
    if HasBurn(coin.shares) && !crashed {
      SettledLater(old(coin.sends), verdicts, c, world.chain, b, coin.known, end);
      if world.mishaps == old(world.mishaps) && Tidy(old(coin.sends)) && old(coin.tainted) == {} {
        RightStays(coin, world, burned, b, end);
      }
    }
  }

  // --- Whole runs ------------------------------------------------------------------------------

  /** Deliveries as a round starts with: waiting, with nothing signed. */
  ghost predicate AllNew(sends: seq<SendRecord>) {
    forall i | 0 <= i < |sends| ::
      sends[i].status == Pending && sends[i].attempts == 0 && sends[i].pending.None? && sends[i].signature.None?
  }

  method Begin(shares: seq<Share>, sends: seq<SendRecord>) returns (coin: Coin, world: World)
    requires WellFormed(shares) && AllNew(sends)
    ensures fresh(coin) && fresh(world) && Kept(coin, world) && coin.tainted == {} && !coin.burnBlocked
    ensures Resting(coin.sends) && Tidy(coin.sends)
    ensures coin.sends == sends && coin.shares == shares && world.sent == []
    ensures world.bought == world.mishaps == world.deaths == 0
  {
    coin := new Coin(shares, sends);
    world := new World();
    forall id | 0 <= id < |sends| ensures RecordOk(sends[id], id, world.chain, []) {
    }
    forall w ensures PotentialTo(sends, world.chain, w) <= DeliveryOwed(0, w, shares) {
      NothingClaimed(sends, world.chain, w, |sends|);
      assert sends[..|sends|] == sends && Potentials(sends, world.chain)[..|sends|] == Potentials(sends, world.chain);
    }
  }

  lemma {:induction false} NothingClaimed(sends: seq<SendRecord>, c: Chain, w: Wallet, n: nat)
    requires AllNew(sends) && n <= |sends|
    ensures ClaimTo(sends[..n], Potentials(sends, c)[..n], w) == 0
  {
    if n > 0 {
      NothingClaimed(sends, c, w, n - 1);
      ClaimStep(sends, Potentials(sends, c), n, w);
    }
  }

  /** One round's visit, after its purchases. */
  method Visit(coin: Coin, world: World, round: nat, last: bool) returns (crashed: bool)
    requires Kept(coin, world)
    modifies coin`sends, coin`known, coin`burns, coin`burnedRaw, coin`burnBlocked, coin`tainted, world
    ensures Kept(coin, world) && Extends(old(world.chain), world.chain)
    ensures old(world.bought) <= world.bought && old(world.mishaps) <= world.mishaps
    ensures SameRecipients(old(coin.sends), coin.sends) && old(coin.known) <= coin.known
    ensures !crashed && Resting(old(coin.sends)) ==> Resting(coin.sends)
    ensures world.mishaps == old(world.mishaps) ==> !crashed && coin.burnBlocked == old(coin.burnBlocked)
    ensures world.mishaps == old(world.mishaps) && Tidy(old(coin.sends)) && old(coin.tainted) == {} ==>
              Tidy(coin.sends) && coin.tainted == {}
    ensures world.deaths == old(world.deaths) + (if crashed then 1 else 0)
  {
    crashed := Pass(coin, world);
    if crashed { return; }
    if Tidy(coin.sends) {
      TidyHasNothingLoose(coin.sends, world.chain, Chosen(coin.sends, round, false));
    }
    crashed := SendRound(coin, world, round, last, false);
  }

  /** The rounds of the buying window. */
  method SendRoundsUntil(coin: Coin, world: World, rounds: nat) returns (crashed: bool)
    requires Kept(coin, world)
    modifies coin`sends, coin`known, coin`burns, coin`burnedRaw, coin`burnBlocked, coin`tainted, world
    ensures Kept(coin, world) && Extends(old(world.chain), world.chain)
    ensures old(world.bought) <= world.bought && old(world.mishaps) <= world.mishaps
    ensures SameRecipients(old(coin.sends), coin.sends) && old(coin.known) <= coin.known
    ensures !crashed && Resting(old(coin.sends)) ==> Resting(coin.sends)
    ensures world.mishaps == old(world.mishaps) ==> !crashed && coin.burnBlocked == old(coin.burnBlocked)
    ensures world.mishaps == old(world.mishaps) && Tidy(old(coin.sends)) && old(coin.tainted) == {} ==>
              Tidy(coin.sends) && coin.tainted == {}
    ensures world.deaths == old(world.deaths) + (if crashed then 1 else 0)
  {
    hide Kept;
    crashed := false;
    ExtendsItself(coin, world);
    for round := 1 to rounds + 1
      invariant world.deaths == old(world.deaths)
      invariant Kept(coin, world) && Extends(old(world.chain), world.chain)
      invariant old(world.bought) <= world.bought && old(world.mishaps) <= world.mishaps
      invariant SameRecipients(old(coin.sends), coin.sends) && old(coin.known) <= coin.known
      invariant world.mishaps == old(world.mishaps) ==> coin.burnBlocked == old(coin.burnBlocked)
      invariant !crashed && (Resting(old(coin.sends)) ==> Resting(coin.sends))
      invariant world.mishaps == old(world.mishaps) && Tidy(old(coin.sends)) && old(coin.tainted) == {} ==>
                  Tidy(coin.sends) && coin.tainted == {}
    {
      crashed := Visit(coin, world, round, round >= rounds);
      if crashed { return; }
    }
  }

  lemma DescendsFromSame(a: seq<SendRecord>, b: seq<SendRecord>, c: seq<SendRecord>)
    requires SameRecipients(a, b)
    ensures Descends(b, c) ==> Descends(a, c)
  {
  }

  lemma TiedFrom(end: Ending, least: nat, known: nat, more: nat, fewer: nat, mishaps: nat, worse: nat,
                 sends: seq<SendRecord>)
    requires least <= known && fewer <= mishaps
    ensures Tied(end, known, more, mishaps, worse, sends) ==> Tied(end, least, more, fewer, worse, sends)
  {
  }

  /** The rounds of the buying window, then settlement and sweep. */
  method BuyAndSend(coin: Coin, world: World, rounds: nat, spent: nat) returns (crashed: bool, ghost end: Ending)
    requires Kept(coin, world)
    modifies coin`sends, coin`known, coin`burns, coin`burnedRaw, coin`burnBlocked, coin`tainted, world
    ensures Kept(coin, world) && Extends(old(world.chain), world.chain)
    ensures old(world.bought) <= world.bought && old(world.mishaps) <= world.mishaps
    ensures old(coin.known) <= coin.known
            && (!crashed && HasBurn(coin.shares) ==> Descends(old(coin.sends), coin.sends))
    ensures !crashed ==> Tied(end, old(coin.known), coin.known, old(world.mishaps), world.mishaps, coin.sends)
    ensures !crashed && HasBurn(coin.shares) && Resting(old(coin.sends)) ==>
              EndsWell(coin.sends, coin.tainted, world.mishaps, BooksOf(coin, spent, rounds), end)
    ensures world.mishaps == old(world.mishaps) ==> !crashed && coin.burnBlocked == old(coin.burnBlocked)
    ensures world.mishaps == old(world.mishaps) && HasBurn(coin.shares) && Tidy(old(coin.sends))
            && old(coin.tainted) == {} ==>
              EndsRight(coin.sends, coin.tainted, coin.burnedRaw, coin.burnBlocked, BooksOf(coin, spent, rounds), end)
    ensures world.deaths == old(world.deaths) + (if crashed then 1 else 0)
  {
    hide *;
    end := Ending([], 0, world.mishaps);
    crashed := SendRoundsUntil(coin, world, rounds);
    if crashed { return; }
    ghost var c, sends, known, mishaps := world.chain, coin.sends, coin.known, world.mishaps;
    ghost var verdicts;
    crashed, end, verdicts := SettleAndSweep(coin, world, spent, rounds);
    ExtendsTransitive(old(world.chain), c, world.chain);
    DescendsFromSame(old(coin.sends), sends, coin.sends);
    TiedFrom(end, old(coin.known), known, coin.known, old(world.mishaps), mishaps, world.mishaps, coin.sends);
  }

  /** The coin's whole life: the process may die at any await, up to `restarts` times,
      and picks up from the saved state each time. The run that gets through ends well,
      and if nothing went wrong at all, it ends right. If nothing goes wrong but that the
      process dies, it gets through, and nothing goes wrong from its settlement on. */
  method RunCoin(coin: Coin, world: World, rounds: nat, spent: nat, restarts: nat)
    returns (finished: bool, ghost end: Ending)
    requires Kept(coin, world) && Resting(coin.sends)
    modifies coin`sends, coin`known, coin`burns, coin`burnedRaw, coin`burnBlocked, coin`tainted, world
    ensures Kept(coin, world) && Extends(old(world.chain), world.chain)
    ensures old(world.bought) <= world.bought && old(world.mishaps) <= world.mishaps
    ensures finished ==> Tied(end, old(coin.known), coin.known, old(world.mishaps), world.mishaps, coin.sends)
    ensures finished && HasBurn(coin.shares) ==>
              EndsWell(coin.sends, coin.tainted, world.mishaps, BooksOf(coin, spent, rounds), end)
    ensures world.mishaps == old(world.mishaps) ==> finished && coin.burnBlocked == old(coin.burnBlocked)
    ensures world.mishaps == old(world.mishaps) && HasBurn(coin.shares) && Tidy(old(coin.sends))
            && old(coin.tainted) == {} ==>
              && Descends(old(coin.sends), coin.sends)
              && EndsRight(coin.sends, coin.tainted, coin.burnedRaw, coin.burnBlocked, BooksOf(coin, spent, rounds),
                           end)
    ensures world.mishaps - old(world.mishaps) == world.deaths - old(world.deaths) <= restarts ==>
              finished && end.mishaps == world.mishaps
  {
    hide Kept;
    ExtendsItself(coin, world);
    finished, end := false, Ending([], 0, world.mishaps);
    for restart := 0 to restarts + 1
      invariant world.deaths == old(world.deaths) + restart
      invariant world.deaths - old(world.deaths) <= world.mishaps - old(world.mishaps)
      invariant Kept(coin, world) && Extends(old(world.chain), world.chain)
      invariant old(world.bought) <= world.bought && old(world.mishaps) <= world.mishaps
      invariant Resting(coin.sends) && old(coin.known) <= coin.known
      invariant world.mishaps == old(world.mishaps) ==>
                  && restart == 0 && coin.sends == old(coin.sends) && coin.tainted == old(coin.tainted)
                  && coin.burnBlocked == old(coin.burnBlocked)
    {
      ghost var c, known, mishaps := world.chain, coin.known, world.mishaps;
      var crashed;
      crashed, end := BuyAndSend(coin, world, rounds, spent);
      ExtendsTransitive(old(world.chain), c, world.chain);
      TiedFrom(end, old(coin.known), known, coin.known, old(world.mishaps), mishaps, world.mishaps, coin.sends);
      if !crashed {
        finished := true;
        return;
      }
      ResumeSends(coin, world);
    }
  }

  /** A coin from its first record to its last burn. If nothing goes wrong and no purchase is
      read after the settlement, no wallet is overserved, every wallet has exactly its share,
      is short by dust or has lost its account, and the fire has exactly its share. If the
      process dies on the way, no more often than it is started again, every wallet is
      settled, unless one was overserved. */
  method WholeLife(shares: seq<Share>, sends: seq<SendRecord>, rounds: nat, spent: nat, restarts: nat)
    returns (coin: Coin, world: World, finished: bool, ghost end: Ending)
    requires WellFormed(shares) && AllNew(sends)
    ensures fresh(coin) && fresh(world) && coin.shares == shares && Kept(coin, world)
    ensures finished && HasBurn(shares) ==>
              EndsWell(coin.sends, coin.tainted, world.mishaps, BooksOf(coin, spent, rounds), end)
    ensures world.mishaps == world.deaths <= restarts ==> finished
    ensures world.mishaps == world.deaths <= restarts && HasBurn(shares) && coin.tainted == {}
            && TotalBet(coin.sends) > 0 && coin.known == end.known ==>
              AllSettled(end.settled, coin.sends, BooksOf(coin, spent, rounds))
    ensures world.mishaps == 0 && HasBurn(shares) ==> finished && Descends(sends, coin.sends) && coin.tainted == {}
    ensures world.mishaps == 0 && HasBurn(shares) && TotalBet(coin.sends) > 0 && coin.known == end.known ==>
              AllServed(coin.sends, BooksOf(coin, spent, rounds)) && coin.burnedRaw == BurnOwed(coin.known, shares)
  {
    hide *;
    coin, world := Begin(shares, sends);
    finished, end := RunCoin(coin, world, rounds, spent, restarts);
    if world.mishaps == 0 && HasBurn(shares) {
      BooksAre(coin, spent, rounds);
      RightMeans(coin.sends, coin.tainted, coin.burnedRaw, coin.burnBlocked, BooksOf(coin, spent, rounds), end);
    }
    if finished && HasBurn(shares) {
      BooksAre(coin, spent, rounds);
      WellMeans(coin.sends, coin.tainted, world.mishaps, BooksOf(coin, spent, rounds), end);
    }
  }

  lemma WellMeans(sends: seq<SendRecord>, tainted: set<Wallet>, mishaps: nat, b: Books, end: Ending)
    requires EndsWell(sends, tainted, mishaps, b, end)
    ensures HasBurn(b.shares) && tainted == {} && TotalBet(sends) > 0 && b.bought == end.known
            && mishaps == end.mishaps ==>
              AllSettled(end.settled, sends, b)
  {
  }

  lemma RightMeans(sends: seq<SendRecord>, tainted: set<Wallet>, burnedRaw: nat, blocked: bool, b: Books, end: Ending)
    requires EndsRight(sends, tainted, burnedRaw, blocked, b, end)
    ensures tainted == {}
    ensures TotalBet(sends) > 0 && b.bought == end.known ==>
              AllServed(sends, b) && (!blocked ==> burnedRaw == BurnOwed(b.bought, b.shares))
  {
  }

  /** What the invariant promises, at any moment of any run and in every future of the
      chain: the fire never gets more than it is owed out of what was really bought; a
      wallet never gets more than it is owed, unless it is tainted; all together never
      more than was bought; and no delivery is tried more often than it may be. */
  lemma PromiseKept(coin: Coin, world: World, d: Chain, w: Wallet)
    requires Kept(coin, world) && Extends(world.chain, d)
    ensures coin.burnedRaw == BurnedBy(coin.burns) && forall i | 0 <= i < |coin.burns| - 1 ::
              coin.burns[i].status != Open
    ensures BurnedOnChain(world.sent, d) <= BurnOwed(coin.known, coin.shares) <= BurnOwed(world.bought, coin.shares)
    ensures HasBurn(coin.shares) && w !in coin.tainted ==>
              PaidTo(coin.sends, world.sent, d, w, |coin.sends|) <= DeliveryOwed(coin.known, w, coin.shares)
                <= DeliveryOwed(world.bought, w, coin.shares)
    ensures HasBurn(coin.shares) && coin.tainted == {} ==>
              BurnedOnChain(world.sent, d) + PaidToAll(world.sent, d, |coin.sends|) <= coin.known <= world.bought
    ensures forall i | 0 <= i < |coin.sends| :: coin.sends[i].attempts <= MAX_SEND_ATTEMPTS
    ensures forall i | 0 <= i < |coin.sends| ::
              coin.sends[i].attempts == MAX_SEND_ATTEMPTS ==>
                !Settlement.Queued(coin.sends[i]) && !Sweep.Revivable(coin.sends[i])
  {
    var c := world.chain;
    NeverBurnsTooMuch(coin.burns, coin.burnedRaw, coin.known, world.bought, coin.shares, c, d, world.sent);
    OwedGrows(coin.known, world.bought, w, coin.shares);
    if HasBurn(coin.shares) && w !in coin.tainted {
      PromiseOnChain(coin.sends, c, world.sent, w, DeliveryOwed(coin.known, w, coin.shares));
    }
    if HasBurn(coin.shares) && coin.tainted == {} {
      AllTogether(coin, world, d);
    }
    forall i | 0 <= i < |coin.sends| ensures RecordOk(coin.sends[i], i, c, world.sent) {
    }
  }

  lemma AllTogether(coin: Coin, world: World, d: Chain)
    requires Kept(coin, world) && Extends(world.chain, d) && HasBurn(coin.shares) && coin.tainted == {}
    ensures BurnedOnChain(world.sent, d) + PaidToAll(world.sent, d, |coin.sends|) <= coin.known <= world.bought
  {
    TheBurnIsThere(coin, world);
    NeverBurnsTooMuch(coin.burns, coin.burnedRaw, coin.known, world.bought, coin.shares, world.chain, d, world.sent);
    assert PaidToAll(world.sent, d, |coin.sends|) + BurnOwed(coin.known, coin.shares) <= coin.known;
  }

  /** With the coin's figure read from its purchases, in every future what is burned and
      delivered together is within what those purchases really brought. */
  lemma WithinThePurchases(coin: Coin, world: World, d: Chain, all: seq<PurchaseLedger.Purchase>,
                           recorded: map<Tx, nat>, purchases: seq<Tx>, c: Chain, brings: Tx -> nat)
    requires Kept(coin, world) && Extends(world.chain, d) && HasBurn(coin.shares) && coin.tainted == {}
    requires PurchaseLedger.LedgerOk(all, c, purchases) && PurchaseTokens.Truthful(recorded, c, brings)
    requires coin.known <= PurchaseTokens.Known(all, recorded)
    ensures BurnedOnChain(world.sent, d) + PaidToAll(world.sent, d, |coin.sends|)
            <= PurchaseTokens.BoughtOnChain(purchases, c, brings)
  {
    AllTogether(coin, world, d);
    PurchaseTokens.KnownIsBought(all, recorded, purchases, c, brings);
  }
}
