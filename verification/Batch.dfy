/** A batch of purchases of one coin: its saved state, and one purchase through its
    venues (offchain/scheduler/state.ts, offchain/buy.ts). */
module Batch {
  import opened Solana
  import opened PurchaseLedger

  // --- The saved state ------------------------------------------------------------------

  function CountOf(purchases: seq<Purchase>, status: PurchaseStatus): nat {
    if purchases == [] then 0
    else CountOf(purchases[..|purchases| - 1], status) + if purchases[|purchases| - 1].status == status then 1 else 0
  }

  function SolCompleted(purchases: seq<Purchase>): nat {
    if purchases == [] then 0
    else
      var p := purchases[|purchases| - 1];
      SolCompleted(purchases[..|purchases| - 1]) + if p.status == Completed then p.solAmount else 0
  }

  /** Every update is saved before the next await, so what a crash leaves is exactly
      these fields. `past` are the coin's purchases from earlier batches. */
  class BatchStateManager {
    const past: seq<Purchase>
    var purchases: seq<Purchase>
    var completedPurchases: nat
    var abandonedPurchases: nat
    var totalSolSpent: nat

    constructor (past: seq<Purchase>, purchases: seq<Purchase>)
      requires forall i | 0 <= i < |purchases| :: purchases[i].status == Waiting
      ensures this.past == past && this.purchases == purchases && Valid()
    {
      this.past, this.purchases := past, purchases;
      completedPurchases, abandonedPurchases, totalSolSpent := 0, 0, 0;
      NoneDone(purchases);
    }

    /** The summary is the purchases'. */
    ghost predicate Valid()
      reads this
    {
      && completedPurchases == CountOf(purchases, Completed) && abandonedPurchases == CountOf(purchases, Abandoned)
      && totalSolSpent == SolCompleted(purchases)
    }

    method UpdateSummary()
      modifies this`completedPurchases, this`abandonedPurchases, this`totalSolSpent
      ensures Valid()
    {
      completedPurchases, abandonedPurchases, totalSolSpent := 0, 0, 0;
      for i := 0 to |purchases|
        invariant completedPurchases == CountOf(purchases[..i], Completed)
        invariant abandonedPurchases == CountOf(purchases[..i], Abandoned)
        invariant totalSolSpent == SolCompleted(purchases[..i])
      {
        assert purchases[..i + 1][..i] == purchases[..i];
        match purchases[i].status
        case Completed =>
          completedPurchases := completedPurchases + 1;
          totalSolSpent := totalSolSpent + purchases[i].solAmount;
        case Abandoned =>
          abandonedPurchases := abandonedPurchases + 1;
        case _ =>
      }
      assert purchases[..|purchases|] == purchases;
    }

    method UpdatePurchase(i: nat, p: Purchase)
      requires Valid() && i < |purchases|
      modifies this
      ensures Valid() && purchases == old(purchases)[i := p]
    {
      purchases := purchases[i := p];
      UpdateSummary();
    }

    method RecordSentAttempt(i: nat, t: Tx)
      requires Valid() && i < |purchases|
      modifies this
      ensures Valid() && purchases == old(purchases)[i := WithAttempt(old(purchases)[i], t)]
    {
      UpdatePurchase(i,
                     purchases[i].(pending := Some(t), pendingLimit := Some(t.limit),
                                   sentAttempts := purchases[i].sentAttempts + [t]));
    }
  }

  lemma {:induction false} NoneDone(purchases: seq<Purchase>)
    requires forall i | 0 <= i < |purchases| :: purchases[i].status == Waiting
    ensures CountOf(purchases, Completed) == CountOf(purchases, Abandoned) == SolCompleted(purchases) == 0
  {
    if purchases != [] {
      NoneDone(purchases[..|purchases| - 1]);
    }
  }

  function MarkedInProgress(p: Purchase): Purchase { p.(status := InProgress) }

  function MarkedCompleted(p: Purchase, t: Tx): Purchase {
    p.(status := Completed, signature := Some(t), attempts := p.attempts + 1)
  }

  function MarkedFailed(p: Purchase): Purchase { p.(status := PurchaseStatus.Failed, attempts := p.attempts + 1) }

  function MarkedAbandoned(p: Purchase): Purchase { p.(status := Abandoned) }

  // --- The batch and the chain ------------------------------------------------------------

  /** The batch's records and the chain agree. */
  ghost predicate Tracked(batch: BatchStateManager, world: World)
    reads batch, world
  {
    batch.Valid() && world.Valid() && LedgerOk(batch.past + batch.purchases, world.chain, world.sent)
  }

  /** Only purchase `i` has changed, and it has not grown. */
  ghost predicate Only(before: seq<Purchase>, after: seq<Purchase>, i: nat) {
    && |after| == |before| && i < |before| && after[i].solAmount <= before[i].solAmount
    && forall j | 0 <= j < |before| && j != i :: after[j] == before[j]
  }

  /** No attempt at purchase `i` is forgotten, and at most `n` are added. */
  ghost predicate Tried(before: seq<Purchase>, after: seq<Purchase>, i: nat, n: nat)
    requires i < |before| == |after|
  {
    before[i].sentAttempts <= after[i].sentAttempts && |after[i].sentAttempts| <= |before[i].sentAttempts| + n
  }

  /** Time has passed. */
  twostate predicate Later(world: World)
    reads world
  {
    Extends(old(world.chain), world.chain) && old(world.bought) <= world.bought && old(world.mishaps) <= world.mishaps
  }

  method Await(batch: BatchStateManager, world: World) returns (crashed: bool)
    requires Tracked(batch, world)
    modifies world
    ensures Tracked(batch, world) && Later(world)
    ensures world.sent == old(world.sent) && world.read == old(world.read)
    ensures world.mishaps == old(world.mishaps) ==> !crashed
    ensures forall i: nat | i < |batch.purchases| && NothingInFlight(batch.purchases[i], old(world.chain)) ::
              NothingInFlight(batch.purchases[i], world.chain)
    ensures world.deaths == old(world.deaths) + (if crashed then 1 else 0)
  {
    crashed := world.Await();
    LaterTracked(batch, world, old(world.chain));
  }

  lemma LaterTracked(batch: BatchStateManager, world: World, c: Chain)
    requires batch.Valid() && world.Valid() && LedgerOk(batch.past + batch.purchases, c, world.sent)
             && Extends(c, world.chain)
    ensures Tracked(batch, world)
    ensures forall i: nat | i < |batch.purchases| && NothingInFlight(batch.purchases[i], c) ::
              NothingInFlight(batch.purchases[i], world.chain)
  {
    var all := batch.past + batch.purchases;
    LedgerOverTime(all, c, world.chain, world.sent);
    forall i: nat | i < |batch.purchases|
      && NothingInFlight(batch.purchases[i], c) ensures NothingInFlight(batch.purchases[i], world.chain) {
      assert all[|batch.past| + i] == batch.purchases[i];
    }
  }

  lemma OkAt(batch: BatchStateManager, world: World, i: nat)
    requires Tracked(batch, world) && i < |batch.purchases|
    ensures PurchaseOk(batch.purchases[i], |batch.past| + i, world.chain, world.sent)
  {
    var all := batch.past + batch.purchases;
    assert all[|batch.past| + i] == batch.purchases[i];
  }

  /** A purchase's status and amount changed; its transactions are the same. */
  method Save(batch: BatchStateManager, world: World, i: nat, p: Purchase)
    requires Tracked(batch, world) && i < |batch.purchases|
    requires p.pending == batch.purchases[i].pending && p.pendingLimit == batch.purchases[i].pendingLimit
    requires p.sentAttempts == batch.purchases[i].sentAttempts
    requires p.solAmount == batch.purchases[i].solAmount
             || (p.solAmount <= batch.purchases[i].solAmount && NothingInFlight(p, world.chain))
    requires if p.status == Completed then p.signature == p.pending && p.signature.Some?
             && Succeeded(world.chain, p.signature.value)
             else batch.purchases[i].status != Completed && p.signature == batch.purchases[i].signature
    modifies batch
    ensures Tracked(batch, world) && batch.purchases == old(batch.purchases)[i := p]
    ensures Only(old(batch.purchases), batch.purchases, i)
  {
    var all := batch.past + batch.purchases;
    assert all[|batch.past| + i] == batch.purchases[i];
    assert PurchaseOk(all[|batch.past| + i], |batch.past| + i, world.chain, world.sent);
    LedgerUpdate(all, world.chain, world.sent, |batch.past| + i, p);
    batch.UpdatePurchase(i, p);
    assert batch.past + batch.purchases == all[|batch.past| + i := p];
  }

  // --- One purchase through its venues -----------------------------------------------------

  /** What an error says. The kinds other than `Other` are told by the message. */
  datatype ErrorKind = NoRoute | Slippage | InsufficientFunds | Expired | Other

  /** `sent` is the transaction behind an error that came after sending; `lasting` is
      whether the message says that trying again is of no use. */
  datatype BuyError = BuyError(sent: Option<Tx>, kind: ErrorKind, lasting: bool)

  datatype BuyResult = Bought(t: Tx) | Threw(e: BuyError)

  /** Refused by a program or for lack of funds: nothing is in flight. So is an error
      from before sending. */
  predicate Harmless(e: BuyError) {
    e.sent.None? || e.kind == Slippage || e.kind == InsufficientFunds
  }

  ghost predicate ErrorOk(e: BuyError, p: Purchase, c: Chain) {
    && p.status != Completed
    && (e.sent.Some? ==> p.pending == e.sent)
    && (Harmless(e) ==> NothingInFlight(p, c))
  }

  ghost predicate ResultOk(r: BuyResult, p: Purchase, c: Chain) {
    match r
    case Bought(t) => p.pending == Some(t) && Succeeded(c, t)
    case Threw(e) => ErrorOk(e, p, c)
  }

  /** What signing and sending may do to a purchase's record. */
  ghost predicate OnlyAttempts(before: seq<Purchase>, after: seq<Purchase>, i: nat) {
    Only(before, after, i) && Tried(before, after, i, 1)
    && after[i].status == before[i].status && after[i].solAmount == before[i].solAmount
  }

  datatype Venue = Pumpfun | Dex | Pumpswap

  /** One venue: build, sign, simulate, write the signature down, send, wait. The three
      venues do the same in this respect; only the aggregator may find no route. Anything
      else that is thrown is a mishap. */
  method BuyAt(batch: BatchStateManager, world: World, i: nat, venue: Venue) returns (r: BuyResult, crashed: bool)
    requires Tracked(batch, world) && i < |batch.purchases|
    requires batch.purchases[i].status == InProgress && NothingInFlight(batch.purchases[i], world.chain)
    modifies batch, world
    ensures Tracked(batch, world) && Later(world) && world.read == old(world.read)
    ensures OnlyAttempts(old(batch.purchases), batch.purchases, i)
    ensures !crashed ==> ResultOk(r, batch.purchases[i], world.chain)
    ensures r.Threw? && r.e.kind == NoRoute ==> r.e.sent.None?
    ensures !crashed && r.Threw? && r.e.sent.None? ==> batch.purchases == old(batch.purchases)
    ensures world.mishaps == old(world.mishaps) ==>
              !crashed && (r.Bought? || (venue == Dex && r.e.kind == NoRoute && world.sent == old(world.sent)))
    ensures world.deaths == old(world.deaths) + (if crashed then 1 else 0)
  {
    var lasting := *;
    r := Threw(BuyError(None, Other, lasting));
    crashed := Await(batch, world);
    if crashed { return; }
    if venue == Dex {
      var routed := *;
      if !routed { return Threw(BuyError(None, NoRoute, lasting)), false; }
    }
    var ready := world.Ask();
    if !ready {
      var kind: ErrorKind := *;
      return Threw(BuyError(None, if kind == NoRoute || kind == Expired then Other else kind, lasting)), false;
    }
    r, crashed := SignAndSend(batch, world, i);
  }

  method SignAndSend(batch: BatchStateManager, world: World, i: nat) returns (r: BuyResult, crashed: bool)
    requires Tracked(batch, world) && i < |batch.purchases|
    requires batch.purchases[i].status == InProgress && NothingInFlight(batch.purchases[i], world.chain)
    modifies batch, world
    ensures Tracked(batch, world) && Later(world) && world.read == old(world.read)
    ensures OnlyAttempts(old(batch.purchases), batch.purchases, i)
    ensures !crashed ==> ResultOk(r, batch.purchases[i], world.chain)
    ensures r.Threw? ==> r.e.sent.Some? && r.e.kind != NoRoute
    ensures world.mishaps == old(world.mishaps) ==> !crashed && r.Bought?
    ensures world.deaths == old(world.deaths) + (if crashed then 1 else 0)
  {
    var id := |batch.past| + i;
    ghost var all, sent := batch.past + batch.purchases, world.sent;
    assert all[id] == batch.purchases[i];
    var t := world.Sign(Effect.Purchase(id, batch.purchases[i].solAmount));
    LedgerSign(all, world.chain, sent, id, t);
    // Written down before it goes out: from the first send on it may land.
    batch.RecordSentAttempt(i, t);
    assert batch.past + batch.purchases == all[id := WithAttempt(all[id], t)];
    ghost var c := world.chain;
    var report;
    report, crashed := world.Send(t);
    LaterTracked(batch, world, c);
    var lasting := *;
    r := Threw(BuyError(Some(t), Other, lasting));
    if crashed { return; }
    var kind: ErrorKind := *;
    match report
    case Confirmed =>
      r := Bought(t);
    case Rejected =>
      r := Threw(BuyError(Some(t), if kind == NoRoute || kind == Expired then Other else kind, lasting));
    case Unconfirmed =>
      r := Threw(BuyError(Some(t), if kind == Expired then Expired else Other, lasting));
  }

  /** A graduated coin: the aggregator, or its own pool when the aggregator has no
      route. */
  method BuyGraduated(batch: BatchStateManager, world: World, i: nat) returns (r: BuyResult, crashed: bool)
    requires Tracked(batch, world) && i < |batch.purchases|
    requires batch.purchases[i].status == InProgress && NothingInFlight(batch.purchases[i], world.chain)
    modifies batch, world
    ensures Tracked(batch, world) && Later(world) && world.read == old(world.read)
    ensures OnlyAttempts(old(batch.purchases), batch.purchases, i)
    ensures !crashed ==> ResultOk(r, batch.purchases[i], world.chain)
    ensures world.mishaps == old(world.mishaps) ==> !crashed && r.Bought?
    ensures world.deaths == old(world.deaths) + (if crashed then 1 else 0)
  {
    r, crashed := BuyAt(batch, world, i, Dex);
    if crashed || r.Bought? || r.e.kind != NoRoute { return; }
    r, crashed := BuyAt(batch, world, i, Pumpswap);
  }

  /** The venue is changed only while nothing has been sent: after sending, and after a
      slippage refusal, the error goes to the caller. */
  method Buy(batch: BatchStateManager, world: World, i: nat) returns (r: BuyResult, crashed: bool)
    requires Tracked(batch, world) && i < |batch.purchases|
    requires batch.purchases[i].status == InProgress && NothingInFlight(batch.purchases[i], world.chain)
    modifies batch, world
    ensures Tracked(batch, world) && Later(world) && world.read == old(world.read)
    ensures OnlyAttempts(old(batch.purchases), batch.purchases, i)
    ensures !crashed ==> ResultOk(r, batch.purchases[i], world.chain)
    ensures world.mishaps == old(world.mishaps) ==> !crashed && r.Bought?
    ensures world.deaths == old(world.deaths) + (if crashed then 1 else 0)
  {
    r := Threw(BuyError(None, Other, false));
    crashed := Await(batch, world);
    if crashed { return; }
    var curveActive := *;
    if curveActive {
      r, crashed := BuyAt(batch, world, i, Pumpfun);
      if crashed || r.Bought? || r.e.sent.Some? || r.e.kind == Slippage { return; }
    }
    r, crashed := BuyGraduated(batch, world, i);
  }
}
