/** Putting deliveries back in the queue, and the sweep after the settlement
    (offchain/orchestrator/orchestrator.ts, resume.ts). */
module Sweep {
  import opened Solana
  import opened Shares
  import opened SendRecords
  import opened CoinState
  import opened Deficits
  import opened BetShares
  import opened DeliveryLedger
  import opened Burns
  import opened Conservation
  import opened Deliveries
  import opened Promises
  import opened SendRounds

  // --- Putting deliveries back in the queue -------------------------------------------

  /** A delivery that failed for a reason that may pass, with attempts left. */
  predicate Revivable(r: SendRecord) {
    r.status == Abandoned && r.errorClass.Some? && r.attempts < MAX_SEND_ATTEMPTS && r.errorClass.value != NonRetryable
  }

  function Revived(r: SendRecord): SendRecord {
    if Revivable(r) then r.(status := Pending) else r
  }

  /** Deliveries a dead process left in progress wait again; their signature stays. */
  function Resumed(r: SendRecord): SendRecord {
    if r.status == InProgress then r.(status := Pending) else r
  }

  lemma RequeueOk(coin: Coin, world: World, i: nat, r: SendRecord)
    requires Kept(coin, world) && i < |coin.sends| && (r == Revived(coin.sends[i]) || r == Resumed(coin.sends[i]))
    ensures SendsOk(coin.sends[i := r], world.chain, world.sent)
    ensures NoWorse(coin.sends, world.chain, coin.sends[i := r], world.chain)
  {
    assert RecordOk(coin.sends[i], i, world.chain, world.sent);
    UpdateOne(coin.sends, world.chain, world.sent, i, r);
  }

  method RevivePendingSends(coin: Coin, world: World)
    requires Kept(coin, world)
    modifies coin`sends
    ensures Kept(coin, world) && |coin.sends| == |old(coin.sends)|
    ensures forall i | 0 <= i < |coin.sends| :: coin.sends[i] == Revived(old(coin.sends)[i])
    ensures forall i | 0 <= i < |coin.sends| ::
              var r := old(coin.sends)[i];
              && coin.sends[i].(status := r.status) == r
              && (coin.sends[i].status == Pending <==>
                    r.status == Pending
                    || (r.status == Abandoned && (r.errorClass == Some(Retryable) || r.errorClass == Some(UnknownClass))
                        && r.attempts < 3))
  {
    for i := 0 to |coin.sends|
      invariant Kept(coin, world) && |coin.sends| == |old(coin.sends)|
      invariant forall j | 0 <= j < i :: coin.sends[j] == Revived(old(coin.sends)[j])
      invariant forall j | i <= j < |coin.sends| :: coin.sends[j] == old(coin.sends)[j]
    {
      if Revivable(coin.sends[i]) {
        Requeue(coin, world, i, coin.sends[i].(status := Pending));
      }
    }
  }

  method Requeue(coin: Coin, world: World, i: nat, r: SendRecord)
    requires Kept(coin, world) && i < |coin.sends| && (r == Revived(coin.sends[i]) || r == Resumed(coin.sends[i]))
    modifies coin`sends
    ensures Kept(coin, world) && coin.sends == old(coin.sends)[i := r]
  {
    RequeueOk(coin, world, i, r);
    coin.sends := coin.sends[i := r];
    KeptOverTime(coin, world, old(coin.sends), world.chain, coin.known);
  }

  method ResumeSends(coin: Coin, world: World)
    requires Kept(coin, world)
    modifies coin`sends
    ensures Kept(coin, world) && |coin.sends| == |old(coin.sends)|
    ensures forall i | 0 <= i < |coin.sends| :: coin.sends[i] == Resumed(old(coin.sends)[i])
  {
    for i := 0 to |coin.sends|
      invariant Kept(coin, world) && |coin.sends| == |old(coin.sends)|
      invariant forall j | 0 <= j < i :: coin.sends[j] == Resumed(old(coin.sends)[j])
      invariant forall j | i <= j < |coin.sends| :: coin.sends[j] == old(coin.sends)[j]
    {
      if coin.sends[i].status == InProgress {
        Requeue(coin, world, i, coin.sends[i].(status := Pending));
      }
    }
  }

  // --- What a round does not touch -------------------------------------------------------

  /** Neither waits nor can be put back in line. */
  predicate Still(r: SendRecord) {
    r.status != Pending && !Revivable(r)
  }

  /** Still records stay as they are, the others keep their owner. */
  ghost predicate StillStay(before: seq<SendRecord>, after: seq<SendRecord>) {
    SameRecipients(before, after) && forall i: nat | i < |before| && Still(before[i]) :: after[i] == before[i]
  }

  lemma RoundLeavesStill(before: seq<SendRecord>, after: seq<SendRecord>, round: nat, sweep: bool)
    requires SameRecipients(before, after)
    requires forall i: nat | i < |after| && i !in Chosen(before, round, sweep) :: after[i] == before[i]
    ensures StillStay(before, after)
  {
    ChosenIs(before, round, sweep);
    var chosen := Chosen(before, round, sweep);
    assert forall k | 0 <= k < |chosen| :: Waits(before[chosen[k]], round, sweep) && !Still(before[chosen[k]]);
  }

  lemma StillStayTwice(a: seq<SendRecord>, b: seq<SendRecord>, c: seq<SendRecord>)
    requires StillStay(a, b) && StillStay(b, c)
    ensures StillStay(a, c)
  {
  }

  lemma {:induction false} DeliveredStays(before: seq<SendRecord>, after: seq<SendRecord>, w: Wallet, n: nat)
    requires StillStay(before, after) && n <= |before|
    ensures DeliveredTo(before[..n], w, true) <= DeliveredTo(after[..n], w, true)
  {
    if n > 0 {
      DeliveredStays(before, after, w, n - 1);
      assert before[..n][..n - 1] == before[..n - 1] && after[..n][..n - 1] == after[..n - 1];
    }
  }

  /** A wallet that has exactly what it is owed keeps exactly that. */
  lemma MadeStays(coin: Coin, world: World, before: seq<SendRecord>, w: Wallet)
    requires Kept(coin, world) && HasBurn(coin.shares) && w !in coin.tainted
    requires StillStay(before, coin.sends) && Made(before, coin.known, coin.shares, w)
    ensures Made(coin.sends, coin.known, coin.shares, w)
  {
    DeliveredStays(before, coin.sends, w, |before|);
    assert before[..|before|] == before && coin.sends[..|before|] == coin.sends;
    DeliveredIsWithin(coin.sends, world.chain, world.sent, w);
  }

  lemma MismatchedStays(before: seq<SendRecord>, after: seq<SendRecord>, w: Wallet)
    requires StillStay(before, after) && Mismatched(before, w)
    ensures Mismatched(after, w)
  {
    var i :| 0 <= i < |before| && before[i].recipient == w && before[i].status == AtaMismatch;
    assert after[i] == before[i];
  }

  // --- Wallets all of whose waiting deliveries had arrived -----------------------------------

  /** All the wallet's waiting deliveries turned out to have arrived, and nothing else of
      the wallet changed. */
  ghost predicate LateOnly(before: seq<SendRecord>, after: seq<SendRecord>, w: Wallet) {
    && SameRecipients(before, after)
    && forall i: nat | i < |before| && before[i].recipient == w ::
         if before[i].status == Pending then HasArrived(before[i], after[i]) else after[i] == before[i]
  }

  /** What a wallet's waiting deliveries bring if they have arrived already. */
  function ArrivingTo(sends: seq<SendRecord>, w: Wallet): nat {
    if sends == [] then 0
    else
      var s := sends[|sends| - 1];
      ArrivingTo(sends[..|sends| - 1], w)
      + if s.recipient == w && s.status == Pending && s.amount.Some? then s.amount.value else 0
  }

  lemma {:induction false} LateSum(before: seq<SendRecord>, after: seq<SendRecord>, w: Wallet, n: nat)
    requires LateOnly(before, after, w) && n <= |before|
    requires forall i | 0 <= i < |before| && before[i].pending.Some? :: before[i].amount.Some?
    ensures DeliveredTo(after[..n], w, true) == DeliveredTo(before[..n], w, true) + ArrivingTo(before[..n], w)
  {
    if n > 0 {
      LateSum(before, after, w, n - 1);
      assert before[..n][..n - 1] == before[..n - 1] && after[..n][..n - 1] == after[..n - 1];
      assert SameOwner(before[n - 1], after[n - 1]);
    }
  }

  /** Such a wallet ends with what it had and what has arrived, and is made whole exactly
      if that is what it is owed. */
  lemma LateIsExact(before: seq<SendRecord>, after: seq<SendRecord>, c: Chain, sent: seq<Tx>, known: nat,
                    shares: seq<Share>, w: Wallet)
    requires AllRecordsOk(before, c, sent) && LateOnly(before, after, w)
    ensures DeliveredTo(after, w, true) == DeliveredTo(before, w, true) + ArrivingTo(before, w)
    ensures Made(after, known, shares, w)
            <==> DeliveredTo(before, w, true) + ArrivingTo(before, w) == DeliveryOwed(known, w, shares)
  {
    forall i | 0 <= i < |before| && before[i].pending.Some? ensures before[i].amount.Some? {
      assert RecordOk(before[i], i, c, sent);
    }
    LateSum(before, after, w, |before|);
    assert before[..|before|] == before && after[..|before|] == after;
  }

  // --- The passes ----------------------------------------------------------------------------

  /** The deliveries in line. */
  function InLine(sends: seq<SendRecord>): seq<nat> {
    Chosen(sends, 1, true)
  }

  lemma InLineIs(sends: seq<SendRecord>)
    ensures ValidIds(sends, InLine(sends)) && forall i: nat | i < |sends| ::
              i in InLine(sends) <==> sends[i].status == Pending
  {
    ChosenIs(sends, 1, true);
    var chosen := InLine(sends);
    forall i: nat | i < |sends| ensures i in chosen <==> sends[i].status == Pending {
      if sends[i].status == Pending {
        assert Waits(sends[i], 1, true);
      }
      if i in chosen {
        var k :| 0 <= k < |chosen| && chosen[k] == i;
      }
    }
  }

  /** How the sweep leaves a wallet that had a delivery in line. */
  ghost predicate SweptRight(before: seq<SendRecord>, c: Chain, after: seq<SendRecord>, known: nat, shares: seq<Share>,
                             w: Wallet) {
    || Made(after, known, shares, w) || LateOnly(before, after, w)
    || Mismatched(after, w) || LooseOutside(InLine(before), before, c, w)
  }

  ghost predicate Swept(before: seq<SendRecord>, c: Chain, after: seq<SendRecord>, known: nat, shares: seq<Share>) {
    forall i | 0 <= i < |before| && before[i].status == Pending ::
      SweptRight(before, c, after, known, shares, before[i].recipient)
  }

  lemma TidyHasNothingLoose(sends: seq<SendRecord>, c: Chain, chosen: seq<nat>)
    requires Tidy(sends)
    ensures LooseOnlyIn(chosen, sends, c)
  {
    assert forall i: nat | i < |sends| :: TidyRecord(sends[i]);
  }

  /** Nothing waits any more: it had arrived, is cleared, or was closed as a mismatch. */
  predicate Settled(before: SendRecord, after: SendRecord) {
    HasArrived(before, after) || Cleared(after) || after.status == AtaMismatch
  }

  /** How the sweep leaves a coin nobody burns: nothing in line waits any more, and whoever
      was sent something has its bet's share of the balance read. */
  ghost predicate SweptByBet(before: seq<SendRecord>, after: seq<SendRecord>, read: Option<nat>) {
    && SameRecipients(before, after) && ValidIds(before, InLine(before))
    && (forall i | 0 <= i < |before| && before[i].status == Pending :: Settled(before[i], after[i]))
    && (InLine(before) != [] ==> read.Some? && SharedByBet(before, after, InLine(before), read.value))
  }

  lemma VisitedIsSwept(before: seq<SendRecord>, after: seq<SendRecord>, shares: seq<Share>, read: Option<nat>)
    requires SameRecipients(before, after) && ValidIds(before, InLine(before)) && !HasBurn(shares)
    requires InLine(before) != [] ==>
               Visited(before, after, InLine(before), true, shares, read) && read != Some(0)
    ensures SweptByBet(before, after, read)
  {
    InLineIs(before);
    var chosen := InLine(before);
    forall i | 0 <= i < |before| && before[i].status == Pending ensures Settled(before[i], after[i]) {
      var k :| 0 <= k < |chosen| && chosen[k] == i;
      assert MovedOn(before, after, chosen, k, true, false);
    }
  }

  /** Then nothing is left for another pass. */
  lemma NothingLeft(before: seq<SendRecord>, after: seq<SendRecord>, read: Option<nat>)
    requires SweptByBet(before, after, read) && forall i | 0 <= i < |before| :: !Revivable(before[i])
    requires forall i: nat | i < |after| && before[i].status != Pending :: after[i] == before[i]
    ensures AllRevived(after) == after && InLine(after) == []
  {
    forall i: nat | i < |after| ensures after[i].status != Pending && !Revivable(after[i]) {
      if before[i].status == Pending {
        assert Settled(before[i], after[i]);
      }
    }
    SomeInLine(after);
  }

  lemma SomeInLine(sends: seq<SendRecord>)
    ensures InLine(sends) != [] ==> exists i: nat :: i < |sends| && sends[i].status == Pending
  {
    InLineIs(sends);
    if InLine(sends) != [] {
      assert InLine(sends)[0] in InLine(sends);
    }
  }

  /** One pass over everything in line. */
  method OnePass(coin: Coin, world: World) returns (crashed: bool)
    requires Kept(coin, world)
    modifies coin`sends, coin`known, coin`burns, coin`burnedRaw, coin`burnBlocked, coin`tainted, world
    ensures Kept(coin, world) && Extends(old(world.chain), world.chain) && old(world.bought) <= world.bought
            && old(world.mishaps) <= world.mishaps
    ensures StillStay(old(coin.sends), coin.sends) && old(coin.burnedRaw) <= coin.burnedRaw
    ensures old(coin.known) <= coin.known && old(coin.tainted) <= coin.tainted
    ensures !crashed && Resting(old(coin.sends)) ==> Resting(coin.sends)
    ensures world.mishaps == old(world.mishaps) ==> !crashed && coin.burnBlocked == old(coin.burnBlocked)
    ensures world.mishaps == old(world.mishaps) && HasBurn(coin.shares) && coin.tainted == {}
            && TotalBet(old(coin.sends)) > 0 ==>
              Swept(old(coin.sends), old(world.chain), coin.sends, coin.known, coin.shares)
    ensures world.mishaps == old(world.mishaps) && Tidy(old(coin.sends)) && old(coin.tainted) == {} ==>
              Tidy(coin.sends) && coin.tainted == {}
    ensures world.mishaps == old(world.mishaps) && !HasBurn(coin.shares)
            && Holds(old(world.bought), old(world.sent), old(world.chain), |coin.sends|, 1) ==>
              SweptByBet(old(coin.sends), coin.sends, world.read)
    ensures world.deaths == old(world.deaths) + (if crashed then 1 else 0)
  {
    hide Visited, Holds;
    ghost var sends, c := coin.sends, world.chain;
    crashed := SendRound(coin, world, 1, true, true);
    RoundLeavesStill(sends, coin.sends, 1, true);
    if world.mishaps == old(world.mishaps) && !HasBurn(coin.shares)
       && Holds(old(world.bought), old(world.sent), old(world.chain), |coin.sends|, 1) {
      VisitedIsSwept(sends, coin.sends, coin.shares, world.read);
    }
    if world.mishaps == old(world.mishaps) && HasBurn(coin.shares) && coin.tainted == {} && TotalBet(sends) > 0 {
      FinishedIsSwept(sends, c, coin.sends, coin.known, coin.shares);
    }
  }

  lemma FinishedIsSwept(before: seq<SendRecord>, c: Chain, after: seq<SendRecord>, known: nat, shares: seq<Share>)
    requires ValidIds(before, InLine(before)) && ValidIds(after, InLine(before)) && SameRecipients(before, after)
    requires forall i: nat | i < |after| && i !in InLine(before) :: after[i] == before[i]
    requires Finished(before, c, InLine(before), after, known, shares, true)
    ensures Swept(before, c, after, known, shares)
  {
    InLineIs(before);
    var chosen := InLine(before);
    forall i: nat | i < |before| && before[i].status == Pending
      ensures SweptRight(before, c, after, known, shares, before[i].recipient)
    {
      var w := before[i].recipient;
      var k :| 0 <= k < |chosen| && chosen[k] == i;
      assert LeftRight(before, c, chosen, after, known, shares, before[chosen[k]].recipient);
      if AllArrived(before, after, chosen, w) {
        ArrivedIsLate(before, after, w);
      }
    }
  }

  lemma ArrivedIsLate(before: seq<SendRecord>, after: seq<SendRecord>, w: Wallet)
    requires ValidIds(before, InLine(before)) && ValidIds(after, InLine(before)) && SameRecipients(before, after)
    requires forall i: nat | i < |after| && i !in InLine(before) :: after[i] == before[i]
    requires AllArrived(before, after, InLine(before), w)
    ensures LateOnly(before, after, w)
  {
    InLineIs(before);
    var chosen := InLine(before);
    forall i: nat | i < |before| && before[i].recipient == w
      ensures if before[i].status == Pending then HasArrived(before[i], after[i]) else after[i] == before[i]
    {
      if before[i].status == Pending {
        var k :| 0 <= k < |chosen| && chosen[k] == i;
      }
    }
  }

  const SWEEP_PASSES: nat := 3

  /** Everything that can be is put back in line. */
  function AllRevived(sends: seq<SendRecord>): (r: seq<SendRecord>)
    ensures |r| == |sends| && forall i | 0 <= i < |r| :: r[i] == Revived(sends[i])
  {
    seq(|sends|, i requires 0 <= i < |sends| => Revived(sends[i]))
  }

  lemma RevivedLeavesStill(sends: seq<SendRecord>)
    ensures StillStay(sends, AllRevived(sends))
    ensures Tidy(sends) ==> AllRevived(sends) == sends
    ensures Resting(sends) ==> Resting(AllRevived(sends))
    ensures forall i | 0 <= i < |sends| :: !Revivable(AllRevived(sends)[i])
  {
    assert forall i | 0 <= i < |sends| && Tidy(sends) :: TidyRecord(sends[i]);
  }

  /** The passes that follow wait longer, and take what the first one left. */
  method LaterPasses(coin: Coin, world: World) returns (crashed: bool)
    requires Kept(coin, world)
    modifies coin`sends, coin`known, coin`burns, coin`burnedRaw, coin`burnBlocked, coin`tainted, world
    ensures Kept(coin, world) && Extends(old(world.chain), world.chain) && old(world.bought) <= world.bought
            && old(world.mishaps) <= world.mishaps
    ensures StillStay(old(coin.sends), coin.sends) && old(coin.burnedRaw) <= coin.burnedRaw
    ensures old(coin.known) <= coin.known && old(coin.tainted) <= coin.tainted
    ensures !crashed && Resting(old(coin.sends)) ==> Resting(coin.sends)
    ensures world.mishaps == old(world.mishaps) ==> !crashed && coin.burnBlocked == old(coin.burnBlocked)
    ensures world.mishaps == old(world.mishaps) && Tidy(old(coin.sends)) && old(coin.tainted) == {} ==>
              Tidy(coin.sends) && coin.tainted == {}
    ensures AllRevived(old(coin.sends)) == old(coin.sends) && InLine(old(coin.sends)) == [] ==>
              coin.sends == old(coin.sends) && world.read == old(world.read)
    ensures world.deaths == old(world.deaths) + (if crashed then 1 else 0)
  {
    crashed := false;
    for pass := 1 to SWEEP_PASSES
      invariant world.deaths == old(world.deaths)
      invariant Kept(coin, world) && Extends(old(world.chain), world.chain) && old(world.bought) <= world.bought
                && old(world.mishaps) <= world.mishaps
      invariant StillStay(old(coin.sends), coin.sends) && old(coin.burnedRaw) <= coin.burnedRaw
      invariant old(coin.known) <= coin.known && old(coin.tainted) <= coin.tainted
      invariant !crashed && (Resting(old(coin.sends)) ==> Resting(coin.sends))
      invariant world.mishaps == old(world.mishaps) ==> coin.burnBlocked == old(coin.burnBlocked)
      invariant world.mishaps == old(world.mishaps) && Tidy(old(coin.sends)) && old(coin.tainted) == {} ==>
                  Tidy(coin.sends) && coin.tainted == {}
      invariant AllRevived(old(coin.sends)) == old(coin.sends) && InLine(old(coin.sends)) == [] ==>
                  coin.sends == old(coin.sends) && world.read == old(world.read)
    {
      ghost var sends := coin.sends;
      crashed := LaterPass(coin, world);
      StillStayTwice(old(coin.sends), sends, coin.sends);
      if crashed { return; }
    }
  }

  method LaterPass(coin: Coin, world: World) returns (crashed: bool)
    requires Kept(coin, world)
    modifies coin`sends, coin`known, coin`burns, coin`burnedRaw, coin`burnBlocked, coin`tainted, world
    ensures Kept(coin, world) && Extends(old(world.chain), world.chain) && old(world.bought) <= world.bought
            && old(world.mishaps) <= world.mishaps
    ensures StillStay(old(coin.sends), coin.sends) && old(coin.burnedRaw) <= coin.burnedRaw
    ensures old(coin.known) <= coin.known && old(coin.tainted) <= coin.tainted
    ensures !crashed && Resting(old(coin.sends)) ==> Resting(coin.sends)
    ensures world.mishaps == old(world.mishaps) ==> !crashed && coin.burnBlocked == old(coin.burnBlocked)
    ensures world.mishaps == old(world.mishaps) && Tidy(old(coin.sends)) && old(coin.tainted) == {} ==>
              Tidy(coin.sends) && coin.tainted == {}
    ensures AllRevived(old(coin.sends)) == old(coin.sends) && InLine(old(coin.sends)) == [] ==>
              coin.sends == old(coin.sends) && world.read == old(world.read)
    ensures world.deaths == old(world.deaths) + (if crashed then 1 else 0)
  {
    ghost var sends := coin.sends;
    RevivePendingSends(coin, world);
    assert coin.sends == AllRevived(sends);
    RevivedLeavesStill(sends);
    if InLine(coin.sends) == [] { return false; }
    crashed := Pass(coin, world);
    if crashed { return; }
    ghost var revived := coin.sends;
    crashed := OnePass(coin, world);
    StillStayTwice(sends, revived, coin.sends);
  }

  /** The passes of the sweep, with everything that can be put back in line. */
  method SweepLine(coin: Coin, world: World) returns (crashed: bool)
    requires Kept(coin, world) && forall i | 0 <= i < |coin.sends| :: !Revivable(coin.sends[i])
    modifies coin`sends, coin`known, coin`burns, coin`burnedRaw, coin`burnBlocked, coin`tainted, world
    ensures Kept(coin, world) && Extends(old(world.chain), world.chain) && old(world.bought) <= world.bought
            && old(world.mishaps) <= world.mishaps
    ensures StillStay(old(coin.sends), coin.sends) && old(coin.burnedRaw) <= coin.burnedRaw
    ensures old(coin.known) <= coin.known && old(coin.tainted) <= coin.tainted
    ensures !crashed && Resting(old(coin.sends)) ==> Resting(coin.sends)
    ensures world.mishaps == old(world.mishaps) ==> !crashed && coin.burnBlocked == old(coin.burnBlocked)
    ensures world.mishaps == old(world.mishaps) && coin.known == old(coin.known) && HasBurn(coin.shares)
            && coin.tainted == {} && TotalBet(old(coin.sends)) > 0 ==>
              Swept(old(coin.sends), old(world.chain), coin.sends, coin.known, coin.shares)
    ensures world.mishaps == old(world.mishaps) && Tidy(old(coin.sends)) && old(coin.tainted) == {} ==>
              Tidy(coin.sends) && coin.tainted == {}
    ensures world.mishaps == old(world.mishaps) && !HasBurn(coin.shares)
            && Holds(old(world.bought), old(world.sent), old(world.chain), |coin.sends|, 1) ==>
              SweptByBet(old(coin.sends), coin.sends, world.read)
    ensures world.deaths == old(world.deaths) + (if crashed then 1 else 0)
  {
    hide Kept, SweptRight, Resting, Tidy, Extends, Holds, SweptByBet, Swept;
    ghost var revived, c := coin.sends, world.chain;
    crashed := OnePass(coin, world);
    if crashed { return; }
    ghost var first, known, d := coin.sends, coin.known, world.chain;
    if world.mishaps == old(world.mishaps) && !HasBurn(coin.shares)
       && Holds(old(world.bought), old(world.sent), old(world.chain), |coin.sends|, 1) {
      LineOnly(revived, coin.sends);
      NothingLeft(revived, coin.sends, world.read);
    }
    crashed := LaterPasses(coin, world);
    ExtendsTransitive(old(world.chain), d, world.chain);
    StillStayTwice(revived, first, coin.sends);
    if world.mishaps == old(world.mishaps) && coin.known == known && HasBurn(coin.shares) && coin.tainted == {}
       && TotalBet(revived) > 0 {
      SweptStays(coin, world, revived, c, first);
    }
  }

  /** The sweep. If nothing goes wrong and no purchase is read on the way, every wallet with
      a delivery in line when it began is made whole; or all its deliveries in line had
      arrived already; or its account is gone, or it has an uncounted delivery out of
      line. Where nobody burns, while the keeper holds anything, nothing in line waits any
      more and whoever was sent something has its bet's share. */
  method SweepDeliveries(coin: Coin, world: World) returns (crashed: bool)
    requires Kept(coin, world)
    modifies coin`sends, coin`known, coin`burns, coin`burnedRaw, coin`burnBlocked, coin`tainted, world
    ensures Kept(coin, world) && Extends(old(world.chain), world.chain) && old(world.bought) <= world.bought
            && old(world.mishaps) <= world.mishaps
    ensures StillStay(AllRevived(old(coin.sends)), coin.sends) && StillStay(old(coin.sends), coin.sends)
    ensures old(coin.burnedRaw) <= coin.burnedRaw
    ensures old(coin.known) <= coin.known && old(coin.tainted) <= coin.tainted
    ensures !crashed && Resting(old(coin.sends)) ==> Resting(coin.sends)
    ensures world.mishaps == old(world.mishaps) ==> !crashed && coin.burnBlocked == old(coin.burnBlocked)
    ensures world.mishaps == old(world.mishaps) && coin.known == old(coin.known) && HasBurn(coin.shares)
            && coin.tainted == {} && TotalBet(old(coin.sends)) > 0 ==>
              Swept(AllRevived(old(coin.sends)), old(world.chain), coin.sends, coin.known, coin.shares)
    ensures world.mishaps == old(world.mishaps) && Tidy(old(coin.sends)) && old(coin.tainted) == {} ==>
              Tidy(coin.sends) && coin.tainted == {}
    ensures world.mishaps == old(world.mishaps) && !HasBurn(coin.shares)
            && Holds(old(world.bought), old(world.sent), old(world.chain), |coin.sends|, 1) ==>
              SweptByBet(AllRevived(old(coin.sends)), coin.sends, world.read)
    ensures world.deaths == old(world.deaths) + (if crashed then 1 else 0)
  {
    hide Kept, SweptRight, Resting, Tidy, Extends, Holds;
    ghost var sends := coin.sends;
    RevivePendingSends(coin, world);
    assert coin.sends == AllRevived(sends);
    RevivedLeavesStill(sends);
    ExtendsItself(coin, world);
    crashed := false;
    InLineIs(coin.sends);
    TotalBetSame(sends, coin.sends);
    if InLine(coin.sends) == [] { return; }
    ghost var revived := coin.sends;
    crashed := SweepLine(coin, world);
    StillStayTwice(sends, revived, coin.sends);
  }

  lemma LineOnly(before: seq<SendRecord>, after: seq<SendRecord>)
    requires StillStay(before, after) && forall i | 0 <= i < |before| :: !Revivable(before[i])
    ensures forall i: nat | i < |after| && before[i].status != Pending :: after[i] == before[i]
  {
    assert forall i: nat | i < |before| && before[i].status != Pending :: Still(before[i]);
  }

  lemma SweptStays(coin: Coin, world: World, revived: seq<SendRecord>, c: Chain, first: seq<SendRecord>)
    requires Kept(coin, world) && HasBurn(coin.shares) && coin.tainted == {}
    requires forall i | 0 <= i < |revived| :: !Revivable(revived[i])
    requires Swept(revived, c, first, coin.known, coin.shares) && StillStay(first, coin.sends)
    ensures Swept(revived, c, coin.sends, coin.known, coin.shares)
  {
    forall i | 0 <= i < |revived| && revived[i].status == Pending
      ensures SweptRight(revived, c, coin.sends, coin.known, coin.shares, revived[i].recipient)
    {
      var w := revived[i].recipient;
      assert SweptRight(revived, c, first, coin.known, coin.shares, w);
      if Made(first, coin.known, coin.shares, w) {
        MadeStays(coin, world, first, w);
      } else if Mismatched(first, w) {
        MismatchedStays(first, coin.sends, w);
      } else if LateOnly(revived, first, w) {
        LateStays(revived, first, coin.sends, w);
      }
    }
  }

  lemma LateStays(revived: seq<SendRecord>, first: seq<SendRecord>, last: seq<SendRecord>, w: Wallet)
    requires forall i | 0 <= i < |revived| :: !Revivable(revived[i])
    requires LateOnly(revived, first, w) && StillStay(first, last)
    ensures LateOnly(revived, last, w)
  {
    forall i: nat | i < |revived|
      ensures SameOwner(revived[i], last[i])
      ensures revived[i].recipient == w ==>
                if revived[i].status == Pending then HasArrived(revived[i], last[i]) else last[i] == revived[i]
    {
      assert SameOwner(revived[i], first[i]) && SameOwner(first[i], last[i]);
      if revived[i].recipient == w {
        assert Still(first[i]);
      }
    }
  }
}
