/** Buying a coin over any number of restarts (offchain/orchestrator/resume.ts,
    orchestrator.ts buyLoop). Amounts are in lamports. */
module Resume {
  import opened Solana
  import opened PurchaseLedger
  import opened Batch
  import opened BatchBuy
  import BuyAmounts

  /** A remainder smaller than this is not bought. */
  const MIN_RESUME: nat := 10_000_000

  datatype TokenStatus = NotBegun | Underway | Settled | GivenUp

  function All(files: seq<seq<Purchase>>): seq<Purchase> {
    if files == [] then [] else All(files[..|files| - 1]) + files[|files| - 1]
  }

  /** What the round keeps about buying one coin: `files` are its batch files, one for
      each pass, as they stand on disk. */
  class TokenBuy {
    const adjusted: nat
    var status: TokenStatus
    var files: seq<seq<Purchase>>
    var spent: nat

    constructor (adjusted: nat)
      ensures this.adjusted == adjusted && status == NotBegun && files == [] && spent == 0
    {
      this.adjusted := adjusted;
      status, files, spent := NotBegun, [], 0;
    }
  }

  /** The batch files account for everything signed, and all that is spent or may still
      be is within the coin's budget. */
  ghost predicate Budgeted(token: TokenBuy, world: World)
    reads token, world
  {
    && world.Valid() && LedgerOk(All(token.files), world.chain, world.sent)
    && MaySpendInAll(All(token.files), world.chain) <= token.adjusted
  }

  /** In no future of the chain do the coin's purchases take more than its budget. */
  lemma NeverOverspent(token: TokenBuy, world: World, d: Chain)
    requires Budgeted(token, world) && Extends(world.chain, d)
    ensures LandedLamports(world.sent, d) <= token.adjusted
  {
    var all := All(token.files);
    LedgerOverTime(all, world.chain, d, world.sent);
    LandedWithin(all, d, world.sent);
    MaySpendShrinks(all, world.chain, d);
  }

  method Pause(token: TokenBuy, world: World) returns (crashed: bool)
    requires Budgeted(token, world)
    modifies world
    ensures Budgeted(token, world) && Later(world) && world.sent == old(world.sent)
    ensures world.mishaps == old(world.mishaps) ==> !crashed
    ensures MaySpendInAll(All(token.files), world.chain) <= MaySpendInAll(All(token.files), old(world.chain))
    ensures world.deaths == old(world.deaths) + (if crashed then 1 else 0)
  {
    crashed := world.Await();
    TimeKeepsBudget(token, world, old(world.chain));
  }

  lemma TimeKeepsBudget(token: TokenBuy, world: World, c: Chain)
    requires world.Valid() && LedgerOk(All(token.files), c, world.sent) && Extends(c, world.chain)
    ensures LedgerOk(All(token.files), world.chain, world.sent)
    ensures MaySpendInAll(All(token.files), world.chain) <= MaySpendInAll(All(token.files), c)
  {
    LedgerOverTime(All(token.files), c, world.chain, world.sent);
    MaySpendShrinks(All(token.files), c, world.chain);
  }

  // --- One pass ------------------------------------------------------------------------------

  function NewPurchase(lamports: nat): Purchase {
    Purchase.Purchase(lamports, Waiting, None, None, None, [], 0)
  }

  /** What a pass over this amount buys for, once the fees are kept back. */
  function NetOf(amount: nat, hasAta: bool): (net: nat)
    ensures net <= amount
  {
    BuyAmounts.NetAmount(amount, BuyAmounts.CalculateN(amount), hasAta)
  }

  /** The purchases of a pass: together no more than the pass's amount. */
  method PlanPurchases(amount: nat, hasAta: bool) returns (purchases: seq<Purchase>)
    ensures forall i | 0 <= i < |purchases| ::
              purchases[i] == NewPurchase(purchases[i].solAmount)
    ensures PurchaseLedger.Planned(purchases) == NetOf(amount, hasAta) <= amount
    ensures NetOf(amount, hasAta) == 0 <==> purchases == []
  {
    var n := BuyAmounts.CalculateN(amount);
    var net := BuyAmounts.NetAmount(amount, n, hasAta);
    var scale: nat :| scale > 0;
    assert BuyAmounts.WithinTenth(seq(n, i => 9 * scale), scale);
    var weights: seq<nat> :| |weights| == n && BuyAmounts.WithinTenth(weights, scale);
    assert BuyAmounts.WithinTenth(weights, scale);
    var amounts := BuyAmounts.SplitAmount(net, n, weights, scale);
    if net == 0 || n == 0 { return []; }
    if n == 1 {
      assert amounts == [net] by { assert amounts[..0] == []; }
    } else {
      BuyAmounts.EnoughForAll(amount, hasAta);
      BuyAmounts.NoPartNegative(net, weights, scale, amounts);
    }
    purchases := seq(|amounts|, i requires 0 <= i < |amounts| && amounts[i] >= 0 => NewPurchase(amounts[i]));
    PlannedIs(purchases, amounts);
  }

  lemma {:induction false} PlannedIs(purchases: seq<Purchase>, amounts: seq<int>)
    requires |purchases| == |amounts| && forall i | 0 <= i < |amounts| :: purchases[i].solAmount == amounts[i]
    ensures PurchaseLedger.Planned(purchases) == BuyAmounts.Total(amounts)
  {
    if amounts != [] {
      PlannedIs(purchases[..|purchases| - 1], amounts[..|amounts| - 1]);
    }
  }

  /** The batch of this pass is written to its own file from the start. */
  method RunBatch(token: TokenBuy, world: World, purchases: seq<Purchase>, needsAta: bool)
    returns (crashed: bool, bought: nat, completed: nat)
    requires Budgeted(token, world) && token.files != [] && token.files[|token.files| - 1] == []
    requires forall i | 0 <= i < |purchases| ::
               purchases[i] == NewPurchase(purchases[i].solAmount)
    requires MaySpendInAll(All(token.files), world.chain) + PurchaseLedger.Planned(purchases) <= token.adjusted
    modifies token`files, world
    ensures Budgeted(token, world) && Later(world)
    ensures |token.files| == |old(token.files)|
    ensures !crashed ==> var batch := token.files[|token.files| - 1];
                         && (forall i | 0 <= i < |batch| :: Final(batch[i]))
                         && bought == SolCompleted(batch) && completed == CountOf(batch, Completed)
    ensures token.files[..|token.files| - 1] == old(token.files)[..|token.files| - 1]
    ensures world.mishaps == old(world.mishaps) ==>
              && !crashed && LandedIn(token.files[|token.files| - 1], world.chain) == PurchaseLedger.Planned(purchases)
              && bought == PurchaseLedger.Planned(purchases) && completed == |purchases|
    ensures world.deaths == old(world.deaths) + (if crashed then 1 else 0)
  {
    var past, n := All(token.files), |token.files| - 1;
    assert All(token.files) == All(token.files[..n]) + [] == All(token.files[..n]);
    var batch := new BatchStateManager(past, purchases);
    LedgerGrows(past, purchases, world.chain, world.sent);
    ghost var c := world.chain;
    crashed := BuyBatch(batch, world, needsAta);
    token.files := token.files[n := batch.purchases];
    assert token.files[..n] == old(token.files)[..n];
    bought, completed := batch.totalSolSpent, batch.completedPurchases;
    MaySpendJoined(past, batch.purchases, world.chain);
    MaySpendShrinks(past, c, world.chain);
    MaySpendIsPlanned(batch.purchases, world.chain);
    PlannedShrinks(purchases, batch.purchases);
    if world.mishaps == old(world.mishaps) {
      BoughtAddsUp(purchases, batch.purchases);
    }
  }

  lemma {:induction false} BoughtAddsUp(planned: seq<Purchase>, bought: seq<Purchase>)
    requires AllBought(planned, bought)
    ensures SolCompleted(bought) == PurchaseLedger.Planned(planned) && CountOf(bought, Completed) == |planned|
  {
    if planned != [] {
      var n := |planned| - 1;
      assert IsBoughtFor(planned[n], bought[n]);
      assert forall i | 0 <= i < n :: IsBoughtFor(planned[i], bought[i]) && planned[..n][i] == planned[i];
      BoughtAddsUp(planned[..n], bought[..n]);
    }
  }

  /** The file is fixed before buying: after a crash it shows what has been bought. */
  method StartTokenBuy(token: TokenBuy, world: World)
    requires Budgeted(token, world)
    modifies token`status, token`files
    ensures Budgeted(token, world) && token.status == Underway && token.files == old(token.files) + [[]]
    ensures All(token.files) == All(old(token.files))
  {
    token.status, token.files := Underway, token.files + [[]];
    assert token.files[..|token.files| - 1] == old(token.files)
           && All(token.files) == All(old(token.files)) + [] == All(old(token.files));
  }

  /** A pass bought what it was to buy. */
  ghost predicate PassBought(token: TokenBuy, before: seq<seq<Purchase>>, spent: nat, amount: nat, c: Chain,
                             hasAta: bool)
    reads token
  {
    var net := NetOf(amount, hasAta);
    && LandedIn(All(token.files), c) == LandedIn(All(before), c) + net && token.spent == spent + net
    && token.status == if net > 0 then Settled else GivenUp
  }

  /** With the token account there or not. */
  ghost predicate PassDone(token: TokenBuy, before: seq<seq<Purchase>>, spent: nat, amount: nat, c: Chain)
    reads token
  {
    exists hasAta :: PassBought(token, before, spent, amount, c, hasAta)
  }

  /** The purchases of the pass, once its file is there. */
  method BuyInto(token: TokenBuy, world: World, amount: nat) returns (crashed: bool, hasAta: bool)
    requires Budgeted(token, world) && token.files != [] && token.files[|token.files| - 1] == []
    requires MaySpendInAll(All(token.files), world.chain) + amount <= token.adjusted
    modifies token, world
    ensures Budgeted(token, world) && Later(world)
    ensures !crashed ==> token.status == Settled || token.status == GivenUp
    ensures world.mishaps == old(world.mishaps) ==>
              !crashed && PassBought(token, old(token.files), old(token.spent), amount, world.chain, hasAta)
    ensures world.deaths == old(world.deaths) + (if crashed then 1 else 0)
  {
    hide LedgerOk, MaySpendInAll, All, LandedIn, NetOf, PassBought, Final, SolCompleted, CountOf;
    hasAta := world.HasAccount();
    var purchases := PlanPurchases(amount, hasAta);
    var bought, completed;
    crashed, bought, completed := RunBatch(token, world, purchases, !hasAta);
    if crashed { return; }
    token.spent := token.spent + bought;
    token.status := if completed == 0 then GivenUp else Settled;
    if world.mishaps == old(world.mishaps) {
      PassIs(token, old(token.files), old(token.spent), amount, world.chain, hasAta);
    }
  }

  lemma PassIs(token: TokenBuy, before: seq<seq<Purchase>>, spent: nat, amount: nat, c: Chain, hasAta: bool)
    requires |token.files| == |before| > 0 && before[|before| - 1] == []
    requires token.files[..|before| - 1] == before[..|before| - 1]
    requires LandedIn(token.files[|before| - 1], c) == NetOf(amount, hasAta)
             && token.spent == spent + NetOf(amount, hasAta)
    requires token.status == if NetOf(amount, hasAta) > 0 then Settled else GivenUp
    ensures PassBought(token, before, spent, amount, c, hasAta)
  {
    FilesJoined(token.files, c);
    FilesJoined(before, c);
    assert LandedIn([], c) == 0;
  }

  lemma FilesJoined(files: seq<seq<Purchase>>, c: Chain)
    requires files != []
    ensures LandedIn(All(files), c) == LandedIn(All(files[..|files| - 1]), c) + LandedIn(files[|files| - 1], c)
  {
    LandedJoined(All(files[..|files| - 1]), files[|files| - 1], c);
  }

  /** One pass of buying. If nothing goes wrong, what lands for it is exactly its amount
      less the fees kept back. */
  method BuyPass(token: TokenBuy, world: World, amount: nat) returns (crashed: bool)
    requires Budgeted(token, world) && MaySpendInAll(All(token.files), world.chain) + amount <= token.adjusted
    modifies token, world
    ensures Budgeted(token, world) && Later(world)
    ensures !crashed ==> token.status == Settled || token.status == GivenUp
    ensures world.mishaps == old(world.mishaps) ==>
              !crashed && PassDone(token, old(token.files), old(token.spent), amount, world.chain)
    ensures world.deaths == old(world.deaths) + (if crashed then 1 else 0)
  {
    hide LedgerOk, MaySpendInAll, All, PassDone;
    if amount == 0 {
      token.status := GivenUp;
      NothingToBuy(token, world.chain);
      return false;
    }
    StartTokenBuy(token, world);
    crashed := Pause(token, world);
    if crashed { return; }
    var distributable := world.Ask();
    if !distributable {
      token.status := GivenUp;
      return;
    }
    ghost var files := token.files;
    var hasAta;
    crashed, hasAta := BuyInto(token, world, amount);
    FileAdded(token, old(token.files), files, old(token.spent), amount, world.chain, hasAta);
  }

  lemma NothingToBuy(token: TokenBuy, c: Chain)
    requires token.status == GivenUp
    ensures PassDone(token, token.files, token.spent, 0, c)
  {
    assert PassBought(token, token.files, token.spent, 0, c, true);
  }

  lemma FileAdded(token: TokenBuy, before: seq<seq<Purchase>>, files: seq<seq<Purchase>>, spent: nat, amount: nat,
                  c: Chain, hasAta: bool)
    requires All(files) == All(before)
    ensures PassBought(token, files, spent, amount, c, hasAta) ==> PassDone(token, before, spent, amount, c)
  {
    assert PassBought(token, files, spent, amount, c, hasAta) ==> PassBought(token, before, spent, amount, c, hasAta);
  }

  // --- After a restart ---------------------------------------------------------------------------

  /** What a restart counts as spent: bought, or signed and possibly landed. */
  predicate CountsAsSpent(p: Purchase, mayHaveLanded: set<Tx>) {
    p.status == Completed || (LastAttempt(p).Some? && LastAttempt(p).value in mayHaveLanded)
  }

  function SpentOn(purchases: seq<Purchase>, mayHaveLanded: set<Tx>): nat {
    if purchases == [] then 0
    else
      var p := purchases[|purchases| - 1];
      SpentOn(purchases[..|purchases| - 1], mayHaveLanded) + if CountsAsSpent(p, mayHaveLanded) then p.solAmount else 0
  }

  method SpentInBatch(batch: seq<Purchase>, mayHaveLanded: set<Tx>) returns (spent: nat)
    ensures spent == SpentOn(batch, mayHaveLanded)
  {
    spent := 0;
    for i := 0 to |batch|
      invariant spent == SpentOn(batch[..i], mayHaveLanded)
    {
      assert batch[..i + 1][..i] == batch[..i];
      if CountsAsSpent(batch[i], mayHaveLanded) {
        spent := spent + batch[i].solAmount;
      }
    }
    assert batch[..|batch|] == batch;
  }

  lemma {:induction false} SpentJoined(a: seq<Purchase>, b: seq<Purchase>, may: set<Tx>)
    ensures SpentOn(a + b, may) == SpentOn(a, may) + SpentOn(b, may)
  {
    if b == [] {
      assert a + b == a;
    } else {
      assert (a + b)[..|a + b| - 1] == a + b[..|b| - 1];
      SpentJoined(a, b[..|b| - 1], may);
    }
  }

  /** The last attempt of every purchase not bought was asked about, and is dead unless
      it counts as spent. */
  ghost predicate AskedAbout(purchases: seq<Purchase>, may: set<Tx>, c: Chain) {
    forall i | 0 <= i < |purchases| && !CountsAsSpent(purchases[i], may) :: NothingInFlight(purchases[i], c)
  }

  /** Looking only at the last attempts, and taking "do not know" for spent, covers
      everything that can still land. */
  lemma {:induction false} SpentCovers(purchases: seq<Purchase>, may: set<Tx>, c: Chain)
    requires AskedAbout(purchases, may, c)
    ensures MaySpendInAll(purchases, c) <= SpentOn(purchases, may)
  {
    if purchases != [] {
      SpentCovers(purchases[..|purchases| - 1], may, c);
    }
  }

  /** This is the last attempt of a purchase not bought, and it succeeded, or the chain did
      not tell. */
  ghost predicate DoubtOf(t: Tx, p: Purchase, c: Chain, untold: set<Tx>) {
    p.status != Completed && LastAttempt(p) == Some(t) && (Succeeded(c, t) || t in untold)
  }

  ghost predicate DoubtIn(t: Tx, purchases: seq<Purchase>, c: Chain, untold: set<Tx>) {
    exists i :: 0 <= i < |purchases| && DoubtOf(t, purchases[i], c, untold)
  }

  /** Nothing else counts as possibly landed. */
  ghost predicate InDoubt(may: set<Tx>, purchases: seq<Purchase>, c: Chain, untold: set<Tx>) {
    forall t | t in may :: DoubtIn(t, purchases, c, untold)
  }

  /** So after a restart in which the chain tells, what counts as spent is exactly what has
      landed, and nothing more ever lands of it. */
  lemma {:induction false} SpentIsLanded(all: seq<Purchase>, may: set<Tx>, c: Chain, d: Chain, n: nat)
    requires ValidChain(c) && Extends(c, d) && n <= |all|
    requires forall i | 0 <= i < |all| :: OnItsRecord(all[i], c)
    requires AskedAbout(all, may, c) && forall t | t in may :: Succeeded(c, t)
    ensures SpentOn(all[..n], may) == LandedIn(all[..n], c) == LandedIn(all[..n], d)
  {
    if n > 0 {
      SpentIsLanded(all, may, c, d, n - 1);
      assert all[..n][..n - 1] == all[..n - 1];
      var p := all[n - 1];
      assert OnItsRecord(p, c);
      if p.pending.Some? {
        DeadStaysDead(c, d, p.pending.value);
        NotBoth(c, p.pending.value);
        NotBoth(d, p.pending.value);
      }
    }
  }

  /** What `PurchaseOk` says of a purchase alone. */
  ghost predicate OnItsRecord(p: Purchase, c: Chain) {
    LastAttempt(p) == p.pending && (p.status == Completed ==> p.pending.Some? && Succeeded(c, p.pending.value))
  }

  /** Asking about every purchase that is not bought. What may have landed is every last
      attempt that did or that the chain would not tell about, and no other. */
  method PurchasesThatMayHaveLanded(token: TokenBuy, world: World) returns (may: set<Tx>, crashed: bool)
    requires Budgeted(token, world)
    modifies world
    ensures Budgeted(token, world) && Later(world)
    ensures world.sent == old(world.sent) && old(world.untold) <= world.untold
    ensures !crashed ==> AskedAbout(All(token.files), may, world.chain)
    ensures !crashed ==> InDoubt(may, All(token.files), world.chain, world.untold)
    ensures world.mishaps == old(world.mishaps) ==> !crashed && InDoubt(may, All(token.files), world.chain, {})
    ensures world.deaths == old(world.deaths) + (if crashed then 1 else 0)
  {
    may, crashed := {}, false;
    for f := 0 to |token.files|
      invariant world.deaths == old(world.deaths)
      invariant Budgeted(token, world) && Later(world)
      invariant world.sent == old(world.sent) && old(world.untold) <= world.untold && !crashed
      invariant AskedAbout(All(token.files[..f]), may, world.chain)
      invariant InDoubt(may, All(token.files[..f]), world.chain, world.untold)
      invariant world.mishaps == old(world.mishaps) ==> InDoubt(may, All(token.files[..f]), world.chain, {})
    {
      assert token.files[..f + 1][..f] == token.files[..f];
      may, crashed := AskFile(token, world, f, may);
      if crashed { return; }
    }
    assert token.files[..|token.files|] == token.files;
  }

  method AskFile(token: TokenBuy, world: World, f: nat, before: set<Tx>) returns (may: set<Tx>, crashed: bool)
    requires Budgeted(token, world) && f < |token.files| && AskedAbout(All(token.files[..f]), before, world.chain)
    requires InDoubt(before, All(token.files[..f]), world.chain, world.untold)
    modifies world
    ensures Budgeted(token, world) && Later(world)
    ensures world.sent == old(world.sent) && old(world.untold) <= world.untold
    ensures !crashed ==> AskedAbout(All(token.files[..f]) + token.files[f], may, world.chain)
    ensures !crashed ==> InDoubt(may, All(token.files[..f]) + token.files[f], world.chain, world.untold)
    ensures world.mishaps == old(world.mishaps) ==>
              !crashed && (InDoubt(before, All(token.files[..f]), old(world.chain), {}) ==>
                             InDoubt(may, All(token.files[..f]) + token.files[f], world.chain, {}))
    ensures world.deaths == old(world.deaths) + (if crashed then 1 else 0)
  {
    hide LedgerOk, MaySpendInAll, InDoubt, AskedAbout, CountsAsSpent, NothingInFlight, DoubtOf;
    may, crashed := before, false;
    var file := token.files[f];
    ghost var past := All(token.files[..f]);
    assert past + file[..0] == past;
    for i := 0 to |file|
      invariant world.deaths == old(world.deaths)
      invariant Budgeted(token, world) && Later(world)
      invariant world.sent == old(world.sent) && old(world.untold) <= world.untold && !crashed
      invariant AskedAbout(past + file[..i], may, world.chain)
      invariant InDoubt(may, past + file[..i], world.chain, world.untold)
      invariant world.mishaps == old(world.mishaps) && InDoubt(before, past, old(world.chain), {}) ==>
                  InDoubt(may, past + file[..i], world.chain, {})
    {
      ghost var c, untold := world.chain, world.untold;
      var known := may;
      may, crashed := AskOne(token, world, f, i, known);
      if crashed { return; }
      AskedMore(past + file[..i], known, may, c, world.chain);
      AskedNext(past, file, i, may, world.chain);
      DoubtNext(past + file[..i], file[i], known, may, c, world.chain, untold, world.untold);
      DoubtNext(past + file[..i], file[i], known, may, c, world.chain, {}, {});
      assert past + file[..i + 1] == (past + file[..i]) + [file[i]];
    }
    assert file[..|file|] == file;
  }

  lemma DoubtNext(past: seq<Purchase>, p: Purchase, before: set<Tx>, after: set<Tx>, c: Chain, d: Chain,
                  untold: set<Tx>, more: set<Tx>)
    requires Extends(c, d) && untold <= more && before <= after
    ensures InDoubt(before, past, c, untold) && (forall t | t in after && t !in before :: DoubtOf(t, p, d, more)) ==>
              InDoubt(after, past + [p], d, more)
  {
    if InDoubt(before, past, c, untold) && forall t | t in after && t !in before :: DoubtOf(t, p, d, more) {
      forall t | t in after ensures DoubtIn(t, past + [p], d, more) {
        if t in before {
          assert DoubtIn(t, past, c, untold);
          var i :| 0 <= i < |past| && DoubtOf(t, past[i], c, untold);
          assert DoubtOf(t, (past + [p])[i], d, more);
        } else {
          assert DoubtOf(t, (past + [p])[|past|], d, more);
        }
      }
    }
  }

  lemma AskedNext(past: seq<Purchase>, file: seq<Purchase>, i: nat, may: set<Tx>, c: Chain)
    requires i < |file| && AskedAbout(past + file[..i], may, c)
    requires CountsAsSpent(file[i], may) || NothingInFlight(file[i], c)
    ensures AskedAbout(past + file[..i + 1], may, c)
  {
    assert past + file[..i + 1] == (past + file[..i]) + [file[i]];
  }

  method AskOne(token: TokenBuy, world: World, f: nat, i: nat, before: set<Tx>) returns (may: set<Tx>, crashed: bool)
    requires Budgeted(token, world) && f < |token.files| && i < |token.files[f]|
    modifies world
    ensures Budgeted(token, world) && Later(world)
    ensures before <= may && world.sent == old(world.sent) && old(world.untold) <= world.untold
    ensures !crashed ==> forall t | t in may && t !in before :: DoubtOf(t, token.files[f][i], world.chain, world.untold)
    ensures world.mishaps == old(world.mishaps) ==>
              !crashed && forall t | t in may && t !in before :: DoubtOf(t, token.files[f][i], world.chain, {})
    ensures !crashed ==> CountsAsSpent(token.files[f][i], may) || NothingInFlight(token.files[f][i], world.chain)
    ensures world.deaths == old(world.deaths) + (if crashed then 1 else 0)
  {
    may, crashed := before, false;
    var purchase := token.files[f][i];
    PartOfAll(token.files, f, i);
    AttemptOnFile(token, world, f, i);
    var last := LastAttempt(purchase);
    if purchase.status == Completed || last.None? { return; }
    ghost var c := world.chain;
    var outcome;
    outcome, crashed := world.SignatureOutcome(last.value, Some(last.value.limit));
    TimeKeepsBudget(token, world, c);
    if !crashed && (outcome == Landed || outcome == Unknown) {
      may := may + {last.value};
    }
  }

  lemma AskedMore(purchases: seq<Purchase>, before: set<Tx>, after: set<Tx>, c: Chain, d: Chain)
    requires AskedAbout(purchases, before, c) && before <= after && Extends(c, d)
    ensures AskedAbout(purchases, after, d)
  {
    forall i | 0 <= i < |purchases| && !CountsAsSpent(purchases[i], after) ensures NothingInFlight(purchases[i], d) {
      assert !CountsAsSpent(purchases[i], before);
      StillInFlightOrNot(purchases[i], c, d);
    }
  }

  lemma {:induction false} PartOfAll(files: seq<seq<Purchase>>, f: nat, i: nat)
    requires f < |files| && i < |files[f]|
    ensures exists k :: 0 <= k < |All(files)| && All(files)[k] == files[f][i]
  {
    var n := |files| - 1;
    if f == n {
      assert All(files)[|All(files[..n])| + i] == files[f][i];
    } else {
      PartOfAll(files[..n], f, i);
      var k :| 0 <= k < |All(files[..n])| && All(files[..n])[k] == files[..n][f][i];
      assert All(files)[k] == files[f][i];
    }
  }

  lemma AttemptOnFile(token: TokenBuy, world: World, f: nat, i: nat)
    requires Budgeted(token, world) && f < |token.files| && i < |token.files[f]|
    requires exists k :: 0 <= k < |All(token.files)| && All(token.files)[k] == token.files[f][i]
    ensures LastAttempt(token.files[f][i]) == token.files[f][i].pending
    ensures token.files[f][i].pending.Some? ==>
              token.files[f][i].pendingLimit == Some(token.files[f][i].pending.value.limit)
  {
    var k :| 0 <= k < |All(token.files)| && All(token.files)[k] == token.files[f][i];
    assert PurchaseOk(All(token.files)[k], k, world.chain, world.sent);
  }

  method SpentInFiles(files: seq<seq<Purchase>>, may: set<Tx>) returns (spent: nat)
    ensures spent == SpentOn(All(files), may)
  {
    spent := 0;
    for f := 0 to |files|
      invariant spent == SpentOn(All(files[..f]), may)
    {
      assert files[..f + 1][..f] == files[..f];
      var inBatch := SpentInBatch(files[f], may);
      SpentJoined(All(files[..f]), files[f], may);
      spent := spent + inBatch;
    }
    assert files[..|files|] == files;
  }

  /** What is left to buy, if it is worth buying. */
  method PlanResume(token: TokenBuy, may: set<Tx>) returns (remaining: Option<nat>)
    modifies token`status, token`spent
    ensures var spent := SpentOn(All(token.files), may);
            && (remaining.Some? <==> token.adjusted - spent >= MIN_RESUME)
            && (remaining.Some? ==> remaining.value == token.adjusted - spent && token.status == old(token.status))
            && (remaining.None? ==> token.status == if spent > 0 then Settled else GivenUp)
            && token.spent == if spent > 0 then spent else old(token.spent)
  {
    var spent := SpentInFiles(token.files, may);
    var left := token.adjusted - spent;
    if spent > 0 {
      token.spent := spent;
    }
    if left < MIN_RESUME {
      token.status := if spent > 0 then Settled else GivenUp;
      return None;
    }
    remaining := Some(left);
  }

  /** What counts as spent after a restart in which the chain tells. */
  ghost predicate Settles(files: seq<seq<Purchase>>, may: set<Tx>, c: Chain) {
    && ValidChain(c) && AskedAbout(All(files), may, c) && (forall t | t in may :: Succeeded(c, t))
    && forall i | 0 <= i < |All(files)| :: OnItsRecord(All(files)[i], c)
  }

  lemma LandedStays(files: seq<seq<Purchase>>, may: set<Tx>, c: Chain, d: Chain)
    requires Settles(files, may, c) && Extends(c, d)
    ensures SpentOn(All(files), may) == LandedIn(All(files), c) == LandedIn(All(files), d)
  {
    SpentIsLanded(All(files), may, c, d, |All(files)|);
    assert All(files)[..|All(files)|] == All(files);
  }

  /** What has landed for the coin is exactly what its files count as spent. */
  lemma SpentForGood(token: TokenBuy, world: World, may: set<Tx>, d: Chain)
    requires Budgeted(token, world) && Extends(world.chain, d)
    requires AskedAbout(All(token.files), may, world.chain) && InDoubt(may, All(token.files), world.chain, {})
    ensures Settles(token.files, may, world.chain) && SpentOn(All(token.files), may) <= token.adjusted
    ensures SpentOn(All(token.files), may) == LandedLamports(world.sent, world.chain)
  {
    var all := All(token.files);
    forall i | 0 <= i < |all| ensures OnItsRecord(all[i], world.chain) {
      assert PurchaseOk(all[i], i, world.chain, world.sent);
    }
    forall t | t in may ensures Succeeded(world.chain, t) {
      assert DoubtIn(t, all, world.chain, {});
    }
    LandedStays(token.files, may, world.chain, d);
    LandedIsOnRecord(all, world.chain, world.sent);
    LandedIsMaySpend(all, world.chain);
  }

  /** What a restart in which nothing goes wrong comes to: a rest worth buying is bought,
      less its fees; otherwise nothing is. */
  ghost predicate Resumed(token: TokenBuy, before: seq<seq<Purchase>>, was: nat, c: Chain)
    reads token
  {
    var spent := LandedIn(All(before), c);
    var onRecord := if spent > 0 then spent else was;
    && spent <= token.adjusted
    && if token.adjusted - spent < MIN_RESUME then token.files == before && token.status == NothingLeft(spent)
       else PassDone(token, before, onRecord, token.adjusted - spent, c)
  }

  function NothingLeft(spent: nat): TokenStatus {
    if spent > 0 then Settled else GivenUp
  }

  /** A restart: ask the chain, then buy what is left, if anything. */
  method Restart(token: TokenBuy, world: World) returns (crashed: bool)
    requires Budgeted(token, world)
    modifies token, world
    ensures Budgeted(token, world) && Later(world)
    ensures !crashed ==> token.status == Settled || token.status == GivenUp
    ensures world.mishaps == old(world.mishaps) ==>
              !crashed && Resumed(token, old(token.files), old(token.spent), world.chain)
    ensures world.deaths == old(world.deaths) + (if crashed then 1 else 0)
  {
    hide LedgerOk, MaySpendInAll, PassDone, LandedIn, SpentOn, AskedAbout, InDoubt, Settles;
    var may;
    may, crashed := PurchasesThatMayHaveLanded(token, world);
    if crashed { return; }
    SpentCovers(All(token.files), may, world.chain);
    ghost var c, calm := world.chain, world.mishaps == old(world.mishaps);
    ghost var spent := SpentOn(All(token.files), may);
    if calm { SpentForGood(token, world, may, c); }
    var remaining := PlanResume(token, may);
    if remaining.Some? {
      crashed := BuyPass(token, world, remaining.value);
    }
    if calm { LandedStays(old(token.files), may, c, world.chain); }
  }

  /** The budget is used up: on top of what had been spent by then the last purchases took
      the rest less their fees, or the rest was not worth buying. */
  ghost predicate UsedUp(budget: nat, landed: nat) {
    exists spent, hasAta :: UsedUpFrom(budget, landed, spent, hasAta)
  }

  predicate UsedUpFrom(budget: nat, landed: nat, spent: nat, hasAta: bool) {
    && spent <= budget
    && if landed == spent then budget - spent < MIN_RESUME || NetOf(budget - spent, hasAta) == 0
       else landed == spent + NetOf(budget - spent, hasAta)
  }

  lemma ResumedUsesUp(token: TokenBuy, before: seq<seq<Purchase>>, was: nat, c: Chain)
    ensures Resumed(token, before, was, c) ==> UsedUp(token.adjusted, LandedIn(All(token.files), c))
  {
    if Resumed(token, before, was, c) {
      var spent, landed := LandedIn(All(before), c), LandedIn(All(token.files), c);
      if token.adjusted - spent < MIN_RESUME {
        assert UsedUpFrom(token.adjusted, landed, spent, true);
      } else {
        var onRecord := if spent > 0 then spent else was;
        var hasAta :| PassBought(token, before, onRecord, token.adjusted - spent, c, hasAta);
        assert UsedUpFrom(token.adjusted, landed, spent, hasAta);
      }
    }
  }

  lemma FirstPassUsesUp(token: TokenBuy, was: nat, c: Chain)
    ensures PassDone(token, [], was, token.adjusted, c) ==> UsedUp(token.adjusted, LandedIn(All(token.files), c))
  {
    if PassDone(token, [], was, token.adjusted, c) {
      var hasAta :| PassBought(token, [], was, token.adjusted, c, hasAta);
      assert UsedUpFrom(token.adjusted, LandedIn(All(token.files), c), 0, hasAta);
    }
  }

  /** The coin's whole buying: the first pass, and a restart after each crash. At every
      moment and in every future the purchases that land stay within the budget; if nothing
      goes wrong, exactly the budget less the fees kept back is bought for. If nothing goes
      wrong but that the process dies, no more often than it is started again, the run
      finishes and the budget is used up. */
  method RunToken(token: TokenBuy, world: World, restarts: nat) returns (finished: bool)
    requires token.files == [] && world.Valid() && world.sent == []
    modifies token, world
    ensures Budgeted(token, world)
    ensures forall d | Extends(world.chain, d) :: LandedLamports(world.sent, d) <= token.adjusted
    ensures finished ==> token.status == Settled || token.status == GivenUp
    ensures world.mishaps == old(world.mishaps) ==>
              finished && exists hasAta :: LandedLamports(world.sent, world.chain) == NetOf(token.adjusted, hasAta)
    ensures world.mishaps - old(world.mishaps) == world.deaths - old(world.deaths) <= restarts ==>
              finished && UsedUp(token.adjusted, LandedLamports(world.sent, world.chain))
  {
    hide UsedUp;
    var crashed := BuyPass(token, world, token.adjusted);
    FirstPassUsesUp(token, old(token.spent), world.chain);
    for restart := 0 to restarts
      invariant Budgeted(token, world)
      invariant world.deaths == old(world.deaths) + restart + (if crashed then 1 else 0)
      invariant world.deaths - old(world.deaths) <= world.mishaps - old(world.mishaps)
      invariant world.mishaps - old(world.mishaps) == world.deaths - old(world.deaths) && !crashed ==>
                  UsedUp(token.adjusted, LandedIn(All(token.files), world.chain))
      invariant !crashed ==> token.status == Settled || token.status == GivenUp
      invariant world.mishaps == old(world.mishaps) ==>
                  !crashed && exists hasAta :: LandedIn(All(token.files), world.chain) == NetOf(token.adjusted, hasAta)
    {
      if !crashed { break; }
      ghost var files, was := token.files, token.spent;
      crashed := Restart(token, world);
      ResumedUsesUp(token, files, was, world.chain);
    }
    finished := !crashed;
    LandedIsOnRecord(All(token.files), world.chain, world.sent);
    forall d | Extends(world.chain, d) ensures LandedLamports(world.sent, d) <= token.adjusted {
      NeverOverspent(token, world, d);
    }
  }
}
