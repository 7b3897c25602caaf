/** Buying a coin in a batch: the main loop with its recoveries, and the retry phase
    (offchain/scheduler/batch.ts). */
module BatchBuy {
  import opened Solana
  import opened PurchaseLedger
  import opened Batch

  const IN_FLIGHT_POLLS: nat := 24
  const MAX_EXPIRY_RESIGNS: nat := 2
  const MAX_RETRIES: nat := 3
  const MIN_PURCHASE: nat := 1_000_000
  const ATA_FEE: nat := 2_040_000
  const BUY_TX_FEE: nat := 105_000
  /** How often a purchase can be signed for while it is being made: once, again after an
      expiry, again for a smaller amount, and at two steps of the ladder. */
  const AT_ONCE: nat := 1 + MAX_EXPIRY_RESIGNS + 1 + 2

  // --- What became of an attempt ------------------------------------------------------

  datatype Verdict = HasLanded | Clear | InFlight

  /** Asked once, and again for as long as the answer is "do not know" and there is a
      limit to wait for. */
  method SignatureVerdict(batch: BatchStateManager, world: World, t: Tx, limit: Option<nat>, polls: nat)
    returns (verdict: Verdict, crashed: bool)
    requires Tracked(batch, world)
    modifies world
    ensures Tracked(batch, world) && Later(world) && world.read == old(world.read)
    ensures !crashed && verdict == HasLanded ==> Succeeded(world.chain, t)
    ensures !crashed && verdict == Clear && limit == Some(t.limit) ==> Dead(world.chain, t)
    ensures world.mishaps == old(world.mishaps) ==> !crashed && verdict != InFlight
    ensures world.deaths == old(world.deaths) + (if crashed then 1 else 0)
  {
    verdict, crashed := InFlight, false;
    for poll := 0 to polls + 1
      invariant world.deaths == old(world.deaths)
      invariant Tracked(batch, world) && Later(world) && world.read == old(world.read)
      invariant poll > 0 ==> world.mishaps > old(world.mishaps)
    {
      ghost var c := world.chain;
      var outcome;
      outcome, crashed := world.SignatureOutcome(t, limit);
      LaterTracked(batch, world, c);
      if crashed { return; }
      match outcome
      case Landed => return HasLanded, false;
      case Absent => return Clear, false;
      case Failed => return Clear, false;
      case Unknown =>
      if limit.None? { return Clear, false; }
      if poll >= polls { return InFlight, false; }
      crashed := Await(batch, world);
      if crashed { return; }
    }
  }

  /** The verdict on the transaction behind an error. */
  method PendingVerdict(batch: BatchStateManager, world: World, i: nat, e: BuyError, polls: nat)
    returns (verdict: Verdict, crashed: bool)
    requires Tracked(batch, world) && i < |batch.purchases| && ErrorOk(e, batch.purchases[i], world.chain)
    modifies world
    ensures Tracked(batch, world) && Later(world) && world.read == old(world.read)
    ensures ErrorOk(e, batch.purchases[i], world.chain)
    ensures !crashed && verdict == HasLanded ==> e.sent.Some? && Succeeded(world.chain, e.sent.value)
    ensures !crashed && verdict == Clear ==> NothingInFlight(batch.purchases[i], world.chain)
    ensures verdict == InFlight ==> e.sent.Some? || crashed
    ensures world.mishaps == old(world.mishaps) ==> !crashed && verdict != InFlight
    ensures world.deaths == old(world.deaths) + (if crashed then 1 else 0)
  {
    if e.sent.None? { return Clear, false; }
    ghost var c := world.chain;
    verdict, crashed := SignatureVerdict(batch, world, e.sent.value, Some(e.sent.value.limit), polls);
    StillInFlightOrNot(batch.purchases[i], c, world.chain);
  }

  lemma NotBoth(c: Chain, t: Tx)
    requires ValidChain(c)
    ensures Dead(c, t) ==> !Succeeded(c, t)
  {
  }

  lemma StillInFlightOrNot(p: Purchase, c: Chain, d: Chain)
    requires Extends(c, d)
    ensures NothingInFlight(p, c) ==> NothingInFlight(p, d)
  {
    if p.pending.Some? {
      DeadStaysDead(c, d, p.pending.value);
    }
  }

  /** A purchase whose last transaction has landed is closed. */
  method Complete(batch: BatchStateManager, world: World, i: nat, t: Tx)
    requires Tracked(batch, world) && i < |batch.purchases|
    requires batch.purchases[i].pending == Some(t) && Succeeded(world.chain, t)
    modifies batch
    ensures Tracked(batch, world) && Only(old(batch.purchases), batch.purchases, i)
            && Tried(old(batch.purchases), batch.purchases, i, 0)
    ensures batch.purchases[i].status == Completed
    ensures batch.purchases[i].solAmount == old(batch.purchases[i].solAmount)
  {
    Save(batch, world, i, MarkedCompleted(batch.purchases[i], t));
  }

  /** Before any decision to retry: the transaction may have arrived. */
  method TryConfirmPending(batch: BatchStateManager, world: World, i: nat, e: BuyError)
    returns (confirmed: bool, crashed: bool)
    requires Tracked(batch, world) && i < |batch.purchases| && ErrorOk(e, batch.purchases[i], world.chain)
    modifies batch, world
    ensures Tracked(batch, world) && Later(world) && world.read == old(world.read)
    ensures Only(old(batch.purchases), batch.purchases, i) && Tried(old(batch.purchases), batch.purchases, i, 0)
    ensures !crashed && confirmed ==> batch.purchases[i].status == Completed
    ensures !crashed && !confirmed ==>
              batch.purchases == old(batch.purchases) && ErrorOk(e, batch.purchases[i], world.chain)
    ensures batch.purchases[i].solAmount == old(batch.purchases[i].solAmount)
    ensures world.mishaps == old(world.mishaps) ==>
              !crashed && (confirmed <==> e.sent.Some? && Succeeded(world.chain, e.sent.value))
    ensures world.deaths == old(world.deaths) + (if crashed then 1 else 0)
  {
    var verdict;
    verdict, crashed := PendingVerdict(batch, world, i, e, 0);
    ghost var sent := e.sent;
    if sent.Some? { NotBoth(world.chain, sent.value); }
    if crashed || verdict != HasLanded { return false, crashed; }
    Complete(batch, world, i, e.sent.value);
    confirmed := true;
  }

  /** The purchase is signed for again: everything before is dead. */
  method BuyAgain(batch: BatchStateManager, world: World, i: nat) returns (done: bool, e: BuyError, crashed: bool)
    requires Tracked(batch, world) && i < |batch.purchases|
    requires batch.purchases[i].status != Completed && NothingInFlight(batch.purchases[i], world.chain)
    modifies batch, world
    ensures Tracked(batch, world) && Later(world) && world.read == old(world.read)
    ensures Only(old(batch.purchases), batch.purchases, i) && Tried(old(batch.purchases), batch.purchases, i, 1)
    ensures !crashed && done ==> batch.purchases[i].status == Completed
    ensures !crashed && !done ==> ErrorOk(e, batch.purchases[i], world.chain)
    ensures batch.purchases[i].solAmount == old(batch.purchases[i].solAmount)
    ensures world.mishaps == old(world.mishaps) ==> !crashed && done
    ensures world.deaths == old(world.deaths) + (if crashed then 1 else 0)
  {
    Save(batch, world, i, MarkedInProgress(batch.purchases[i]));
    var r;
    r, crashed := Buy(batch, world, i);
    e := BuyError(None, Other, false);
    if crashed { return false, e, true; }
    match r
    case Bought(t) =>
      Complete(batch, world, i, t);
      done := true;
    case Threw(error) =>
      done, e := false, error;
  }

  /** The same, and one look at the chain if it failed. */
  method BuyAndConfirm(batch: BatchStateManager, world: World, i: nat) returns (done: bool, e: BuyError, crashed: bool)
    requires Tracked(batch, world) && i < |batch.purchases|
    requires batch.purchases[i].status != Completed && NothingInFlight(batch.purchases[i], world.chain)
    modifies batch, world
    ensures Tracked(batch, world) && Later(world) && world.read == old(world.read)
    ensures Only(old(batch.purchases), batch.purchases, i) && Tried(old(batch.purchases), batch.purchases, i, 1)
    ensures !crashed && done ==> batch.purchases[i].status == Completed
    ensures !crashed && !done ==> ErrorOk(e, batch.purchases[i], world.chain)
    ensures batch.purchases[i].solAmount == old(batch.purchases[i].solAmount)
    ensures world.mishaps == old(world.mishaps) ==> !crashed && done
    ensures world.deaths == old(world.deaths) + (if crashed then 1 else 0)
  {
    done, e, crashed := BuyAgain(batch, world, i);
    if crashed || done { return; }
    done, crashed := TryConfirmPending(batch, world, i, e);
  }

  /** The purchase is bought, for the amount it was to be. */
  predicate IsBoughtFor(before: Purchase, after: Purchase) {
    after.status == Completed && after.solAmount == before.solAmount
  }

  // --- The recoveries of the main loop -----------------------------------------------------

  predicate IsExpiry(e: BuyError) {
    e.sent.Some? && e.kind == Expired
  }

  /** One look at the old transaction, and another in its place if it is dead. `open` is
      whether the chain told in time; if it did not, the retry phase takes over. */
  method ResignOnce(batch: BatchStateManager, world: World, i: nat, first: BuyError)
    returns (settled: bool, open: bool, e: BuyError, crashed: bool)
    requires Tracked(batch, world) && i < |batch.purchases| && ErrorOk(first, batch.purchases[i], world.chain)
    requires IsExpiry(first)
    modifies batch, world
    ensures Tracked(batch, world) && Later(world) && world.read == old(world.read)
    ensures Only(old(batch.purchases), batch.purchases, i) && Tried(old(batch.purchases), batch.purchases, i, 1)
    ensures !crashed && settled ==> batch.purchases[i].status == Completed
    ensures !crashed && !settled ==> ErrorOk(e, batch.purchases[i], world.chain)
    ensures batch.purchases[i].solAmount == old(batch.purchases[i].solAmount)
    ensures world.mishaps == old(world.mishaps) ==> !crashed && settled
    ensures world.deaths == old(world.deaths) + (if crashed then 1 else 0)
  {
    hide LedgerOk;
    settled, open, e := false, false, first;
    var verdict;
    verdict, crashed := PendingVerdict(batch, world, i, e, IN_FLIGHT_POLLS);
    if crashed { return; }
    if verdict == HasLanded {
      Complete(batch, world, i, e.sent.value);
      settled := true;
      return;
    }
    if verdict == InFlight { return; }
    open := true;
    settled, e, crashed := BuyAndConfirm(batch, world, i);
  }

  /** The blockhash ran out before the transaction reached a block: signed again here,
      but only once the old transaction is provably dead. */
  method ResignExpired(batch: BatchStateManager, world: World, i: nat, first: BuyError)
    returns (settled: bool, e: BuyError, crashed: bool)
    requires Tracked(batch, world) && i < |batch.purchases| && ErrorOk(first, batch.purchases[i], world.chain)
    modifies batch, world
    ensures Tracked(batch, world) && Later(world) && world.read == old(world.read)
    ensures Only(old(batch.purchases), batch.purchases, i)
            && Tried(old(batch.purchases), batch.purchases, i, MAX_EXPIRY_RESIGNS)
    ensures !crashed && settled ==> batch.purchases[i].status == Completed
    ensures !crashed && !settled ==> ErrorOk(e, batch.purchases[i], world.chain)
    ensures batch.purchases[i].solAmount == old(batch.purchases[i].solAmount)
    ensures !IsExpiry(first) ==> && !crashed && !settled && e == first && batch.purchases == old(batch.purchases)
                                 && world.mishaps == old(world.mishaps)
    ensures world.mishaps == old(world.mishaps) && IsExpiry(first) ==> !crashed && settled
    ensures world.deaths == old(world.deaths) + (if crashed then 1 else 0)
  {
    hide LedgerOk, ErrorOk;
    settled, e, crashed := false, first, false;
    var resigns, open := 0, true;
    while resigns < MAX_EXPIRY_RESIGNS && IsExpiry(e) && open && !settled
      invariant world.deaths == old(world.deaths)
      invariant Tracked(batch, world) && Later(world) && world.read == old(world.read)
      invariant Only(old(batch.purchases), batch.purchases, i) && !crashed
      invariant if settled then batch.purchases[i].status == Completed
                else ErrorOk(e, batch.purchases[i], world.chain)
      invariant Tried(old(batch.purchases), batch.purchases, i, resigns) && resigns <= MAX_EXPIRY_RESIGNS
      invariant batch.purchases[i].solAmount == old(batch.purchases[i].solAmount)
      invariant if resigns == 0 then e == first && !settled && open && batch.purchases == old(batch.purchases)
                                     && world.mishaps == old(world.mishaps)
                else IsExpiry(first) && (world.mishaps == old(world.mishaps) ==> settled)
    {
      settled, open, e, crashed := ResignOnce(batch, world, i, e);
      if crashed { return; }
      resigns := resigns + 1;
    }
  }

  /** What the keeper has to keep back: a token account, if it is not there yet, and the
      fees of two transactions. */
  function KeeperFloor(needsAta: bool): nat {
    (if needsAta then ATA_FEE else 0) + 2 * BUY_TX_FEE
  }

  /** The balance is read, or cannot be. */
  method ReadKeeper(batch: BatchStateManager, world: World, needed: nat) returns (balance: Option<nat>, crashed: bool)
    requires Tracked(batch, world)
    modifies world
    ensures Tracked(batch, world) && Later(world)
    ensures world.sent == old(world.sent) && world.read == balance
    ensures world.mishaps == old(world.mishaps)
                             + if crashed || balance.None? || balance.value < needed then 1 else 0
    ensures forall i: nat | i < |batch.purchases| && NothingInFlight(batch.purchases[i], old(world.chain)) ::
              NothingInFlight(batch.purchases[i], world.chain)
    ensures world.deaths == old(world.deaths) + (if crashed then 1 else 0)
  {
    ghost var c := world.chain;
    balance, crashed := world.ReadSol(needed);
    LaterTracked(batch, world, c);
  }

  /** What the keeper can spend on this purchase: the least of what was planned and what
      its balance leaves above the floor; as planned if the balance cannot be read; nothing
      if neither the plan nor the smallest purchase fits. */
  method ResolveSpendableAmount(batch: BatchStateManager, world: World, scheduled: nat, needsAta: bool)
    returns (amount: Option<nat>, crashed: bool)
    requires Tracked(batch, world)
    modifies world
    ensures Tracked(batch, world) && Later(world)
    ensures world.sent == old(world.sent)
    ensures !crashed && world.read.None? ==> amount == Some(scheduled)
    ensures !crashed && world.read.Some? ==>
              var left := world.read.value - KeeperFloor(needsAta);
              && (amount.None? <==> left < scheduled && left < MIN_PURCHASE)
              && (amount.Some? ==>
                  amount.value <= left && amount.value <= scheduled
                    && (amount.value == left || amount.value == scheduled))
    ensures amount.Some? ==> amount.value == scheduled || MIN_PURCHASE <= amount.value < scheduled
    ensures world.mishaps == old(world.mishaps)
              + if crashed || world.read.None? || world.read.value < scheduled + KeeperFloor(needsAta) then 1 else 0
    ensures forall i: nat | i < |batch.purchases| && NothingInFlight(batch.purchases[i], old(world.chain)) ::
              NothingInFlight(batch.purchases[i], world.chain)
    ensures world.deaths == old(world.deaths) + (if crashed then 1 else 0)
  {
    var balance;
    balance, crashed := ReadKeeper(batch, world, scheduled + KeeperFloor(needsAta));
    if crashed || balance.None? { return Some(scheduled), crashed; }
    var spendable: int := balance.value - ((if needsAta then ATA_FEE else 0) + 2 * BUY_TX_FEE);
    amount := if spendable >= scheduled then Some(scheduled)
              else if spendable < MIN_PURCHASE then None
              else Some(spendable);
  }

  /** What a balance that does not cover a purchase makes of it: it is bought for what
      there is, or given up and the keeper noted as drained. */
  predicate ShrunkTo(before: Purchase, after: Purchase, left: int, drained: bool) {
    left < before.solAmount ==>
      if left < MIN_PURCHASE then after.status == Abandoned && drained
      else after.status == Completed && after.solAmount == left && !drained
  }

  /** Out of money: shrink to what is there, or give the purchase up and note that the
      keeper is drained. */
  method ShrinkToFit(batch: BatchStateManager, world: World, i: nat, first: BuyError, needsAta: bool)
    returns (settled: bool, drained: bool, e: BuyError, crashed: bool)
    requires Tracked(batch, world) && i < |batch.purchases| && ErrorOk(first, batch.purchases[i], world.chain)
    requires first.kind == InsufficientFunds
    modifies batch, world
    ensures Tracked(batch, world) && Later(world)
    ensures Only(old(batch.purchases), batch.purchases, i) && Tried(old(batch.purchases), batch.purchases, i, 1)
    ensures !crashed && settled ==>
              batch.purchases[i].status == Completed || (drained && batch.purchases[i].status == Abandoned)
    ensures !crashed && !settled ==> ErrorOk(e, batch.purchases[i], world.chain) && !drained
    ensures world.mishaps == old(world.mishaps) ==>
              && !crashed && !settled && e == first && batch.purchases == old(batch.purchases)
              && world.read.Some? && world.read.value >= batch.purchases[i].solAmount + KeeperFloor(needsAta)
    ensures !crashed && world.mishaps == old(world.mishaps) + 1 && world.read.Some? ==>
              ShrunkTo(old(batch.purchases[i]), batch.purchases[i], world.read.value - KeeperFloor(needsAta), drained)
    ensures world.deaths == old(world.deaths) + (if crashed then 1 else 0)
  {
    settled, drained, e := false, false, first;
    var spendable := batch.purchases[i].solAmount;
    var shrunk;
    shrunk, crashed := ResolveSpendableAmount(batch, world, spendable, needsAta);
    if crashed { return; }
    if shrunk.None? {
      Save(batch, world, i, MarkedAbandoned(batch.purchases[i]));
      return true, true, e, false;
    }
    if shrunk.value < spendable {
      Save(batch, world, i, batch.purchases[i].(solAmount := shrunk.value));
      settled, e, crashed := BuyAndConfirm(batch, world, i);
    }
  }

  /** A slippage refusal: up the ladder at once, at the second and third step. */
  method ClimbLadder(batch: BatchStateManager, world: World, i: nat, first: BuyError)
    returns (settled: bool, e: BuyError, crashed: bool)
    requires Tracked(batch, world) && i < |batch.purchases| && ErrorOk(first, batch.purchases[i], world.chain)
    requires first.kind == Slippage
    modifies batch, world
    ensures Tracked(batch, world) && Later(world) && world.read == old(world.read)
    ensures Only(old(batch.purchases), batch.purchases, i) && Tried(old(batch.purchases), batch.purchases, i, 2)
    ensures !crashed && settled ==> batch.purchases[i].status == Completed
    ensures !crashed && !settled ==> ErrorOk(e, batch.purchases[i], world.chain)
    ensures world.mishaps == old(world.mishaps) ==>
              !crashed && settled && batch.purchases[i].solAmount == old(batch.purchases[i].solAmount)
    ensures world.deaths == old(world.deaths) + (if crashed then 1 else 0)
  {
    hide LedgerOk;
    settled, e, crashed := false, first, false;
    var attempt := 2;
    while attempt <= 3 && e.kind == Slippage
      invariant world.deaths == old(world.deaths)
      invariant Tracked(batch, world) && Later(world) && world.read == old(world.read)
      invariant attempt > 2 ==> world.mishaps > old(world.mishaps)
      invariant Only(old(batch.purchases), batch.purchases, i) && ErrorOk(e, batch.purchases[i], world.chain)
      invariant 2 <= attempt <= 4 && Tried(old(batch.purchases), batch.purchases, i, attempt - 2)
      invariant attempt == 2 ==> e == first && batch.purchases == old(batch.purchases)
    {
      settled, e, crashed := BuyAgain(batch, world, i);
      if crashed || settled { return; }
      attempt := attempt + 1;
    }
    // The last error decides: it may carry the signature of a transaction that flew.
    settled, crashed := TryConfirmPending(batch, world, i, e);
  }

  /** The only place where a failed purchase is given its status. The last signature is
      on the record already. */
  method RecordFailure(batch: BatchStateManager, world: World, i: nat, e: BuyError)
    requires Tracked(batch, world) && i < |batch.purchases| && ErrorOk(e, batch.purchases[i], world.chain)
    modifies batch
    ensures Tracked(batch, world) && Only(old(batch.purchases), batch.purchases, i)
            && Tried(old(batch.purchases), batch.purchases, i, 0)
    ensures batch.purchases[i].status == if e.lasting then Abandoned else PurchaseStatus.Failed
  {
    if e.lasting {
      Save(batch, world, i, MarkedAbandoned(batch.purchases[i]));
      return;
    }
    Save(batch, world, i, MarkedFailed(batch.purchases[i]));
    if e.sent.Some? {
      Save(batch, world, i, batch.purchases[i].(pending := e.sent));
    }
  }

  predicate Decided(p: Purchase) {
    p.status == Completed || p.status == Abandoned || p.status == PurchaseStatus.Failed
  }

  /** The main loop's body. */
  method BuyOne(batch: BatchStateManager, world: World, i: nat, keeperDrained: bool, needsAta: bool)
    returns (drained: bool, crashed: bool)
    requires Tracked(batch, world) && i < |batch.purchases|
    requires batch.purchases[i].status == Waiting && NothingInFlight(batch.purchases[i], world.chain)
    modifies batch, world
    ensures Tracked(batch, world) && Later(world)
    ensures Only(old(batch.purchases), batch.purchases, i) && Tried(old(batch.purchases), batch.purchases, i, AT_ONCE)
    ensures !crashed ==> Decided(batch.purchases[i])
    ensures !crashed && keeperDrained ==> drained && world.sent == old(world.sent)
                                          && batch.purchases[i] == MarkedAbandoned(old(batch.purchases[i]))
    ensures world.mishaps == old(world.mishaps) && !keeperDrained ==>
              !crashed && !drained && IsBoughtFor(old(batch.purchases[i]), batch.purchases[i])
    ensures world.deaths == old(world.deaths) + (if crashed then 1 else 0)
  {
    hide LedgerOk;
    drained := keeperDrained;
    crashed := Await(batch, world);  // until the purchase is due
    if crashed { return; }
    if drained {
      Save(batch, world, i, MarkedAbandoned(batch.purchases[i]));
      return;
    }
    var done, e;
    done, e, crashed := BuyAndConfirm(batch, world, i);
    if crashed || done { return; }
    drained, crashed := Recover(batch, world, i, e, needsAta);
  }

  /** What a failure that is no expiry comes to if nothing goes wrong while it is dealt
      with: a slippage refusal is bought at a later step of the ladder; any other is
      recorded, for lack of funds only with a balance that covers the purchase. A balance
      that does not is the one mishap that has its own way out. */
  ghost predicate DealtWith(before: Purchase, after: Purchase, e: BuyError, floor: nat, read: Option<nat>, mishaps: nat,
                            drained: bool)
  {
    && (mishaps == 0 ==>
          && !drained && after.status == (if e.kind == Slippage then Completed
                                          else if e.lasting then Abandoned else PurchaseStatus.Failed)
          && (e.kind == InsufficientFunds ==> read.Some? && read.value >= before.solAmount + floor))
    && (mishaps == 1 && e.kind == InsufficientFunds && read.Some? ==>
        ShrunkTo(before, after, read.value - floor, drained))
  }

  /** What is tried on the spot when the first attempt failed. */
  method Recover(batch: BatchStateManager, world: World, i: nat, first: BuyError, needsAta: bool)
    returns (drained: bool, crashed: bool)
    requires Tracked(batch, world) && i < |batch.purchases| && ErrorOk(first, batch.purchases[i], world.chain)
    modifies batch, world
    ensures Tracked(batch, world) && Later(world)
    ensures Only(old(batch.purchases), batch.purchases, i)
            && Tried(old(batch.purchases), batch.purchases, i, AT_ONCE - 1)
    ensures !crashed ==> Decided(batch.purchases[i])
    ensures world.mishaps == old(world.mishaps) ==>
              !crashed && (IsExpiry(first) ==> batch.purchases[i].status == Completed)
    ensures !crashed && !IsExpiry(first) ==>
              DealtWith(old(batch.purchases[i]), batch.purchases[i], first, KeeperFloor(needsAta), world.read,
                        world.mishaps - old(world.mishaps), drained)
    ensures world.deaths == old(world.deaths) + (if crashed then 1 else 0)
  {
    hide LedgerOk, ErrorOk, DealtWith;
    drained := false;
    var settled, e;
    settled, e, crashed := ResignExpired(batch, world, i, first);
    if crashed || settled { return; }
    drained, crashed := FallBack(batch, world, i, e, needsAta);
  }

  /** What is tried when the attempt did not simply run out of time: less money, or more
      slippage. */
  method FallBack(batch: BatchStateManager, world: World, i: nat, first: BuyError, needsAta: bool)
    returns (drained: bool, crashed: bool)
    requires Tracked(batch, world) && i < |batch.purchases| && ErrorOk(first, batch.purchases[i], world.chain)
    modifies batch, world
    ensures Tracked(batch, world) && Later(world)
    ensures Only(old(batch.purchases), batch.purchases, i) && Tried(old(batch.purchases), batch.purchases, i, 3)
    ensures !crashed ==> Decided(batch.purchases[i])
    ensures world.mishaps == old(world.mishaps) ==> !crashed
    ensures !crashed ==>
              DealtWith(old(batch.purchases[i]), batch.purchases[i], first, KeeperFloor(needsAta), world.read,
                        world.mishaps - old(world.mishaps), drained)
    ensures world.deaths == old(world.deaths) + (if crashed then 1 else 0)
  {
    hide LedgerOk, ErrorOk, ShrunkTo;
    drained, crashed := false, false;
    if first.kind == InsufficientFunds {
      drained, crashed := OutOfFunds(batch, world, i, first, needsAta);
    } else {
      crashed := Reprice(batch, world, i, first);
    }
  }

  method OutOfFunds(batch: BatchStateManager, world: World, i: nat, first: BuyError, needsAta: bool)
    returns (drained: bool, crashed: bool)
    requires Tracked(batch, world) && i < |batch.purchases| && ErrorOk(first, batch.purchases[i], world.chain)
    requires first.kind == InsufficientFunds
    modifies batch, world
    ensures Tracked(batch, world) && Later(world)
    ensures Only(old(batch.purchases), batch.purchases, i) && Tried(old(batch.purchases), batch.purchases, i, 3)
    ensures !crashed ==> Decided(batch.purchases[i])
    ensures world.mishaps == old(world.mishaps) ==>
              && !crashed && !drained
              && batch.purchases[i].status == (if first.lasting then Abandoned else PurchaseStatus.Failed)
              && world.read.Some? && world.read.value >= old(batch.purchases[i]).solAmount + KeeperFloor(needsAta)
    ensures !crashed && world.mishaps == old(world.mishaps) + 1 && world.read.Some? ==>
              ShrunkTo(old(batch.purchases[i]), batch.purchases[i], world.read.value - KeeperFloor(needsAta), drained)
    ensures world.deaths == old(world.deaths) + (if crashed then 1 else 0)
  {
    hide LedgerOk;
    var settled, e;
    settled, drained, e, crashed := ShrinkToFit(batch, world, i, first, needsAta);
    if crashed { return; }
    if settled { return; }
    assert world.mishaps == old(world.mishaps) + 1 && world.read.Some? ==>
             world.read.value - KeeperFloor(needsAta) >= old(batch.purchases[i]).solAmount;
    crashed := Reprice(batch, world, i, e);
  }

  /** A slippage refusal goes up the ladder, anything else on record. */
  method Reprice(batch: BatchStateManager, world: World, i: nat, first: BuyError) returns (crashed: bool)
    requires Tracked(batch, world) && i < |batch.purchases| && ErrorOk(first, batch.purchases[i], world.chain)
    modifies batch, world
    ensures Tracked(batch, world) && Later(world) && world.read == old(world.read)
    ensures Only(old(batch.purchases), batch.purchases, i) && Tried(old(batch.purchases), batch.purchases, i, 2)
    ensures !crashed ==> Decided(batch.purchases[i])
    ensures world.mishaps == old(world.mishaps) ==>
              !crashed && batch.purchases[i].status == (if first.kind == Slippage then Completed
                                                        else if first.lasting then Abandoned else PurchaseStatus.Failed)
    ensures world.deaths == old(world.deaths) + (if crashed then 1 else 0)
  {
    hide LedgerOk;
    var settled, e := false, first;
    crashed := false;
    if e.kind == Slippage {
      settled, e, crashed := ClimbLadder(batch, world, i, e);
      if crashed || settled { return; }
    }
    RecordFailure(batch, world, i, e);
  }

  // --- The retry phase ------------------------------------------------------------------------

  predicate Final(p: Purchase) {
    p.status == Completed || p.status == Abandoned
  }

  /** The transaction left over from the main loop is waited out first. `open` is
      whether the purchase may be tried again. */
  method SettleEarlier(batch: BatchStateManager, world: World, i: nat) returns (open: bool, crashed: bool)
    requires Tracked(batch, world) && i < |batch.purchases| && batch.purchases[i].status == PurchaseStatus.Failed
    modifies batch, world
    ensures Tracked(batch, world) && Later(world) && world.read == old(world.read)
    ensures Only(old(batch.purchases), batch.purchases, i) && Tried(old(batch.purchases), batch.purchases, i, 0)
    ensures !crashed && open ==>
              NothingInFlight(batch.purchases[i], world.chain) && batch.purchases[i].status == PurchaseStatus.Failed
    ensures !crashed && !open ==> Final(batch.purchases[i])
    ensures batch.purchases[i].solAmount == old(batch.purchases[i].solAmount)
    ensures world.mishaps == old(world.mishaps) ==> !crashed && (open || batch.purchases[i].status == Completed)
    ensures world.deaths == old(world.deaths) + (if crashed then 1 else 0)
  {
    var purchase := batch.purchases[i];
    if purchase.pending.None? { return true, false; }
    OkAt(batch, world, i);
    var verdict;
    verdict, crashed := SignatureVerdict(batch, world, purchase.pending.value, purchase.pendingLimit, IN_FLIGHT_POLLS);
    if crashed { return false, true; }
    match verdict
    case HasLanded =>
      Complete(batch, world, i, purchase.pending.value);
      open := false;
    case InFlight =>
      Save(batch, world, i, MarkedAbandoned(batch.purchases[i]));
      open := false;
    case Clear =>
      open := true;
  }

  /** One attempt of the retry phase. `again` is whether the ladder goes on. */
  method RetryAttempt(batch: BatchStateManager, world: World, i: nat, needsAta: bool, retryAttempts: nat)
    returns (again: bool, crashed: bool)
    requires Tracked(batch, world) && i < |batch.purchases|
    requires batch.purchases[i].status == PurchaseStatus.Failed && NothingInFlight(batch.purchases[i], world.chain)
    modifies batch, world
    ensures Tracked(batch, world) && Later(world)
    ensures Only(old(batch.purchases), batch.purchases, i) && Tried(old(batch.purchases), batch.purchases, i, 1)
    ensures !crashed && again ==>
              NothingInFlight(batch.purchases[i], world.chain) && batch.purchases[i].status == PurchaseStatus.Failed
    ensures !crashed && !again ==> Decided(batch.purchases[i])
    ensures world.mishaps == old(world.mishaps) ==>
              !crashed && IsBoughtFor(old(batch.purchases[i]), batch.purchases[i])
    ensures world.deaths == old(world.deaths) + (if crashed then 1 else 0)
  {
    again := false;
    var amount;
    amount, crashed := ResolveSpendableAmount(batch, world, batch.purchases[i].solAmount, needsAta);
    if crashed { return; }
    if amount.None? {
      Save(batch, world, i, MarkedAbandoned(batch.purchases[i]));
      return;
    }
    if amount.value < batch.purchases[i].solAmount {
      Save(batch, world, i, batch.purchases[i].(solAmount := amount.value));
    }
    var done, e;
    done, e, crashed := BuyAgain(batch, world, i);
    if crashed || done { return; }
    again, crashed := AfterRetry(batch, world, i, e, retryAttempts);
  }

  method AfterRetry(batch: BatchStateManager, world: World, i: nat, e: BuyError, retryAttempts: nat)
    returns (again: bool, crashed: bool)
    requires Tracked(batch, world) && i < |batch.purchases| && ErrorOk(e, batch.purchases[i], world.chain)
    modifies batch, world
    ensures Tracked(batch, world) && Later(world)
    ensures Only(old(batch.purchases), batch.purchases, i) && Tried(old(batch.purchases), batch.purchases, i, 0)
    ensures !crashed && again ==>
              NothingInFlight(batch.purchases[i], world.chain) && batch.purchases[i].status == PurchaseStatus.Failed
    ensures !crashed && !again ==> Decided(batch.purchases[i])
    ensures world.mishaps == old(world.mishaps) ==>
              && !crashed
              && (if e.sent.Some? && Succeeded(world.chain, e.sent.value) then batch.purchases[i].status == Completed
                  else if e.lasting || retryAttempts > MAX_RETRIES then batch.purchases[i].status == Abandoned
                  else again)
    ensures world.deaths == old(world.deaths) + (if crashed then 1 else 0)
  {
    again := false;
    var verdict;
    verdict, crashed := PendingVerdict(batch, world, i, e, IN_FLIGHT_POLLS);
    if e.sent.Some? { NotBoth(world.chain, e.sent.value); }
    if crashed { return; }
    if verdict == InFlight {
      // Signing another now is how a coin gets bought twice.
      Save(batch, world, i, MarkedFailed(batch.purchases[i].(pending := e.sent)));
      return;
    }
    if verdict == HasLanded {
      Complete(batch, world, i, e.sent.value);
      return;
    }
    if e.lasting || retryAttempts > MAX_RETRIES {
      Save(batch, world, i, MarkedAbandoned(batch.purchases[i]));
      return;
    }
    Save(batch, world, i, MarkedFailed(batch.purchases[i]));
    again := true;
  }

  method RetryOne(batch: BatchStateManager, world: World, i: nat, needsAta: bool) returns (crashed: bool)
    requires Tracked(batch, world) && i < |batch.purchases| && batch.purchases[i].status == PurchaseStatus.Failed
    modifies batch, world
    ensures Tracked(batch, world) && Later(world)
    ensures Only(old(batch.purchases), batch.purchases, i)
            && Tried(old(batch.purchases), batch.purchases, i, MAX_RETRIES + 1)
    ensures !crashed ==> Final(batch.purchases[i])
    ensures world.mishaps == old(world.mishaps) ==> !crashed && IsBoughtFor(old(batch.purchases[i]), batch.purchases[i])
    ensures world.deaths == old(world.deaths) + (if crashed then 1 else 0)
  {
    hide LedgerOk;
    crashed := Await(batch, world);
    if crashed { return; }
    var open;
    open, crashed := SettleEarlier(batch, world, i);
    if crashed || !open { return; }
    crashed := RetryLadder(batch, world, i, needsAta);
  }

  /** The attempts of the retry phase, as long as the window is open. */
  method RetryLadder(batch: BatchStateManager, world: World, i: nat, needsAta: bool) returns (crashed: bool)
    requires Tracked(batch, world) && i < |batch.purchases| && batch.purchases[i].status == PurchaseStatus.Failed
    requires NothingInFlight(batch.purchases[i], world.chain)
    modifies batch, world
    ensures Tracked(batch, world) && Later(world)
    ensures Only(old(batch.purchases), batch.purchases, i)
            && Tried(old(batch.purchases), batch.purchases, i, MAX_RETRIES + 1)
    ensures !crashed ==> Final(batch.purchases[i])
    ensures world.mishaps == old(world.mishaps) ==> !crashed && IsBoughtFor(old(batch.purchases[i]), batch.purchases[i])
    ensures world.deaths == old(world.deaths) + (if crashed then 1 else 0)
  {
    hide LedgerOk;
    crashed := false;
    var retryAttempts, again := 0, true;
    while retryAttempts <= MAX_RETRIES && again
      invariant world.deaths == old(world.deaths)
      invariant Tracked(batch, world) && Later(world) && !crashed
      invariant Only(old(batch.purchases), batch.purchases, i)
      invariant Tried(old(batch.purchases), batch.purchases, i, retryAttempts) && retryAttempts <= MAX_RETRIES + 1
      invariant again ==>
                  NothingInFlight(batch.purchases[i], world.chain) && batch.purchases[i].status == PurchaseStatus.Failed
      invariant Decided(batch.purchases[i])
      invariant if retryAttempts == 0 then again && batch.purchases == old(batch.purchases)
                else world.mishaps == old(world.mishaps) ==> IsBoughtFor(old(batch.purchases[i]), batch.purchases[i])
    {
      var inTime := world.Ask();
      if !inTime {
        Save(batch, world, i, MarkedAbandoned(batch.purchases[i]));
        return;
      }
      retryAttempts := retryAttempts + 1;
      again, crashed := RetryAttempt(batch, world, i, needsAta, retryAttempts);
      if crashed { return; }
    }
    if batch.purchases[i].status == PurchaseStatus.Failed {
      Save(batch, world, i, MarkedAbandoned(batch.purchases[i]));
    }
  }

  // --- The batch -------------------------------------------------------------------------------

  /** No purchase grows. */
  ghost predicate NoneGrow(before: seq<Purchase>, after: seq<Purchase>) {
    |after| == |before| && forall i | 0 <= i < |before| :: after[i].solAmount <= before[i].solAmount
  }

  /** Each purchase is signed for at most `n` times more. */
  ghost predicate EachTried(before: seq<Purchase>, after: seq<Purchase>, n: nat) {
    |after| == |before| && forall i | 0 <= i < |before| :: Tried(before, after, i, n)
  }

  /** One purchase further, the later ones untouched. */
  lemma OneMoreTried(start: seq<Purchase>, now: seq<Purchase>, next: seq<Purchase>, i: nat, n: nat)
    requires i < |now| && EachTried(start, now, n) && now[i..] == start[i..]
    requires Only(now, next, i) && Tried(now, next, i, n)
    ensures EachTried(start, next, n) && next[i + 1..] == start[i + 1..]
  {
    assert now[i] == now[i..][0] == start[i..][0] == start[i];
    assert next[i + 1..] == now[i + 1..] == now[i..][1..] == start[i..][1..];
    forall j | 0 <= j < |start| ensures Tried(start, next, j, n) {
      assert Tried(start, now, j, n);
    }
  }

  lemma TriedTwice(a: seq<Purchase>, b: seq<Purchase>, c: seq<Purchase>, m: nat, n: nat, most: nat)
    requires EachTried(a, b, m) && EachTried(b, c, n) && m + n <= most
    ensures EachTried(a, c, most)
  {
    forall i | 0 <= i < |a| ensures Tried(a, c, i, most) {
      assert Tried(a, b, i, m) && Tried(b, c, i, n);
    }
  }

  lemma {:induction false} PlannedShrinks(before: seq<Purchase>, after: seq<Purchase>)
    requires NoneGrow(before, after)
    ensures Planned(after) <= Planned(before)
  {
    if before != [] {
      PlannedShrinks(before[..|before| - 1], after[..|after| - 1]);
    }
  }

  /** Every purchase is bought, for the amount planned. */
  ghost predicate AllBought(before: seq<Purchase>, after: seq<Purchase>) {
    |after| == |before| && forall i | 0 <= i < |before| :: IsBoughtFor(before[i], after[i])
  }

  /** Every failed purchase is bought, for the amount planned, and no other is touched. */
  ghost predicate AllRetried(before: seq<Purchase>, after: seq<Purchase>) {
    |after| == |before| && forall i | 0 <= i < |before| :: IsRetried(before[i], after[i])
  }

  predicate IsRetried(before: Purchase, after: Purchase) {
    if before.status == PurchaseStatus.Failed then IsBoughtFor(before, after) else after == before
  }

  lemma OneMoreBought(start: seq<Purchase>, now: seq<Purchase>, next: seq<Purchase>, i: nat)
    requires i < |now| == |start| == |next| && now[i..] == start[i..]
    requires forall j | 0 <= j < |now| && j != i :: next[j] == now[j]
    ensures AllBought(start[..i], now[..i]) && IsBoughtFor(start[i], next[i]) ==>
              AllBought(start[..i + 1], next[..i + 1])
    ensures start[i] == now[i]
  {
    assert start[i] == start[i..][0] == now[i..][0];
    assert forall j | 0 <= j < i && AllBought(start[..i], now[..i]) :: IsBoughtFor(start[..i][j], now[..i][j]);
  }

  lemma OneMoreRetried(start: seq<Purchase>, now: seq<Purchase>, next: seq<Purchase>, i: nat)
    requires i < |now| == |start| == |next| && now[i..] == start[i..]
    requires forall j | 0 <= j < |now| && j != i :: next[j] == now[j]
    ensures AllRetried(start[..i], now[..i]) && IsRetried(now[i], next[i]) ==> AllRetried(start[..i + 1], next[..i + 1])
  {
    assert start[i] == start[i..][0] == now[i..][0];
    assert forall j | 0 <= j < i && AllRetried(start[..i], now[..i]) :: IsRetried(start[..i][j], now[..i][j]);
  }

  lemma {:induction false} BoughtIsLanded(batch: BatchStateManager, world: World, planned: seq<Purchase>, n: nat)
    requires Tracked(batch, world) && AllBought(planned, batch.purchases) && n <= |planned|
    ensures LandedIn(batch.purchases[..n], world.chain) == Planned(planned[..n])
    ensures LandedIn(batch.purchases, world.chain) == Planned(planned) || n < |planned|
  {
    assert batch.purchases[..|planned|] == batch.purchases && planned[..|planned|] == planned;
    if n > 0 {
      BoughtIsLanded(batch, world, planned, n - 1);
      OkAt(batch, world, n - 1);
      assert IsBoughtFor(planned[n - 1], batch.purchases[n - 1]);
      assert batch.purchases[..n][..n - 1] == batch.purchases[..n - 1] && planned[..n][..n - 1] == planned[..n - 1];
    }
  }

  lemma BoughtStays(start: seq<Purchase>, bought: seq<Purchase>, after: seq<Purchase>)
    ensures AllBought(start, bought) && AllRetried(bought, after) ==> after == bought
  {
    if AllBought(start, bought) && AllRetried(bought, after) {
      forall i | 0 <= i < |bought| ensures after[i] == bought[i] {
        assert IsBoughtFor(start[i], bought[i]) && IsRetried(bought[i], after[i]);
      }
    }
  }

  method MainLoop(batch: BatchStateManager, world: World, needsAta: bool) returns (crashed: bool)
    requires Tracked(batch, world)
    requires forall i | 0 <= i < |batch.purchases| ::
               batch.purchases[i].status == Waiting && batch.purchases[i].pending.None?
    modifies batch, world
    ensures Tracked(batch, world) && Later(world)
    ensures NoneGrow(old(batch.purchases), batch.purchases) && EachTried(old(batch.purchases), batch.purchases, AT_ONCE)
    ensures !crashed ==> forall i | 0 <= i < |batch.purchases| :: Decided(batch.purchases[i])
    ensures world.mishaps == old(world.mishaps) ==> !crashed && AllBought(old(batch.purchases), batch.purchases)
    ensures world.deaths == old(world.deaths) + (if crashed then 1 else 0)
  {
    hide LedgerOk;
    var keeperDrained := false;
    crashed := false;
    for i := 0 to |batch.purchases|
      invariant world.deaths == old(world.deaths)
      invariant Tracked(batch, world) && Later(world)
      invariant NoneGrow(old(batch.purchases), batch.purchases)
                && EachTried(old(batch.purchases), batch.purchases, AT_ONCE)
      invariant batch.purchases[i..] == old(batch.purchases)[i..]
      invariant forall j | 0 <= j < i :: Decided(batch.purchases[j])
      invariant world.mishaps == old(world.mishaps) ==>
                  !crashed && !keeperDrained && AllBought(old(batch.purchases)[..i], batch.purchases[..i])
      invariant forall j | i <= j < |batch.purchases| ::
                  batch.purchases[j].status == Waiting && batch.purchases[j].pending.None?
    {
      ghost var now := batch.purchases;
      keeperDrained, crashed := BuyOne(batch, world, i, keeperDrained, needsAta);
      OneMoreTried(old(batch.purchases), now, batch.purchases, i, AT_ONCE);
      OneMoreBought(old(batch.purchases), now, batch.purchases, i);
      if crashed { return; }
    }
  }

  method RetryPhase(batch: BatchStateManager, world: World, needsAta: bool) returns (crashed: bool)
    requires Tracked(batch, world) && forall i | 0 <= i < |batch.purchases| :: Decided(batch.purchases[i])
    modifies batch, world
    ensures Tracked(batch, world) && Later(world)
    ensures NoneGrow(old(batch.purchases), batch.purchases)
            && EachTried(old(batch.purchases), batch.purchases, MAX_RETRIES + 1)
    ensures !crashed ==> forall i | 0 <= i < |batch.purchases| :: Final(batch.purchases[i])
    ensures world.mishaps == old(world.mishaps) ==> !crashed && AllRetried(old(batch.purchases), batch.purchases)
    ensures world.deaths == old(world.deaths) + (if crashed then 1 else 0)
  {
    crashed := false;
    for i := 0 to |batch.purchases|
      invariant world.deaths == old(world.deaths)
      invariant Tracked(batch, world) && Later(world)
      invariant NoneGrow(old(batch.purchases), batch.purchases)
                && EachTried(old(batch.purchases), batch.purchases, MAX_RETRIES + 1)
      invariant batch.purchases[i..] == old(batch.purchases)[i..]
      invariant forall j | 0 <= j < i :: Final(batch.purchases[j])
      invariant world.mishaps == old(world.mishaps) ==>
                  !crashed && AllRetried(old(batch.purchases)[..i], batch.purchases[..i])
      invariant forall j | i <= j < |batch.purchases| :: Decided(batch.purchases[j])
    {
      ghost var now := batch.purchases;
      if batch.purchases[i].status == PurchaseStatus.Failed {
        crashed := RetryOne(batch, world, i, needsAta);
        OneMoreTried(old(batch.purchases), now, batch.purchases, i, MAX_RETRIES + 1);
        if crashed { return; }
      }
      OneMoreRetried(old(batch.purchases), now, batch.purchases, i);
    }
  }

  /** The whole batch. Whatever happens, the records account for every transaction
      signed, none is forgotten, no purchase is signed for more than ten times and none
      is for more than was planned for it; at the end each is either bought or given up,
      and the summary adds up what was bought. If nothing goes wrong every purchase is
      bought, and what lands for them is exactly what was planned. */
  method BuyBatch(batch: BatchStateManager, world: World, needsAta: bool) returns (crashed: bool)
    requires Tracked(batch, world)
    requires forall i | 0 <= i < |batch.purchases| ::
               batch.purchases[i].status == Waiting && batch.purchases[i].pending.None?
    modifies batch, world
    ensures Tracked(batch, world) && Later(world)
    ensures NoneGrow(old(batch.purchases), batch.purchases)
            && EachTried(old(batch.purchases), batch.purchases, AT_ONCE + MAX_RETRIES + 1)
    ensures !crashed ==> forall i | 0 <= i < |batch.purchases| :: Final(batch.purchases[i])
    ensures world.mishaps == old(world.mishaps) ==>
              && !crashed && AllBought(old(batch.purchases), batch.purchases)
              && LandedIn(batch.purchases, world.chain) == Planned(old(batch.purchases))
    ensures world.deaths == old(world.deaths) + (if crashed then 1 else 0)
  {
    crashed := MainLoop(batch, world, needsAta);
    ghost var tried := batch.purchases;
    TriedTwice(old(batch.purchases), tried, tried, AT_ONCE, 0, AT_ONCE + MAX_RETRIES + 1);
    if crashed { return; }
    crashed := RetryPhase(batch, world, needsAta);
    BoughtStays(old(batch.purchases), tried, batch.purchases);
    TriedTwice(old(batch.purchases), tried, batch.purchases, AT_ONCE, MAX_RETRIES + 1, AT_ONCE + MAX_RETRIES + 1);
    if world.mishaps == old(world.mishaps) {
      BoughtIsLanded(batch, world, old(batch.purchases), |batch.purchases|);
    }
  }
}
