/** One visit of a delivery round to one coin, from the burn to the last batch
    (offchain/orchestrator/sendRounds.ts, executeSendRounds). `crashed` says that this
    run went no further: the process died at an await, or an exception left the
    round. */
module SendRounds {
  import opened Solana
  import opened Shares
  import opened SendRecords
  import opened CoinState
  import opened Deficits
  import opened BetShares
  import opened DeliveryLedger
  import opened Burns
  import opened Conservation
  import opened Deliveries
  import opened Promises

  const HALF_SOL: nat := 500_000_000
  const ONE_SOL: nat := 1_000_000_000

  /** Everything the process promises about a coin, at any moment and after any crash.
      The wallets' part is for coins somebody burns. */
  ghost predicate Kept(coin: Coin, world: World)
    reads coin, world
  {
    && Sound(coin, world) && WellFormed(coin.shares) && coin.known <= world.bought
    && WithinOwed(coin.burns, coin.burnedRaw, coin.known, coin.shares)
    && (HasBurn(coin.shares) ==> WalletsOk(coin.sends, world.chain, coin.known, coin.shares, coin.tainted))
  }

  lemma KeptOverTime(coin: Coin, world: World, sends: seq<SendRecord>, c: Chain, known: nat)
    requires Sound(coin, world) && WellFormed(coin.shares) && coin.known <= world.bought && known <= coin.known
    requires WithinOwed(coin.burns, coin.burnedRaw, coin.known, coin.shares)
    requires HasBurn(coin.shares) ==> WalletsOk(sends, c, known, coin.shares, coin.tainted)
    requires NoWorse(sends, c, coin.sends, world.chain)
    ensures Kept(coin, world)
  {
    if HasBurn(coin.shares) {
      WalletsStayOk(sends, coin.sends, c, world.chain, known, coin.known, coin.shares, coin.tainted);
    }
  }

  lemma ExtendsItself(coin: Coin, world: World)
    requires Kept(coin, world)
    ensures Extends(world.chain, world.chain)
  {
  }

  lemma KeptInOrder(coin: Coin, world: World)
    requires Kept(coin, world)
    ensures AllRecordsOk(coin.sends, world.chain, world.sent)
  {
  }

  // --- Which deliveries ------------------------------------------------------------------

  function AllIds(n: nat): (ids: seq<nat>)
    ensures |ids| == n && forall i | 0 <= i < n :: ids[i] == i
  {
    seq(n, i => i)
  }

  predicate Waits(r: SendRecord, round: nat, sweep: bool) {
    r.status == Pending && (sweep || r.round <= round)
  }

  /** The deliveries of this round and the ones left over from earlier rounds. */
  function Chosen(sends: seq<SendRecord>, round: nat, sweep: bool): seq<nat> {
    Keep(AllIds(|sends|), (i: nat) => i < |sends| && Waits(sends[i], round, sweep))
  }

  lemma ChosenIs(sends: seq<SendRecord>, round: nat, sweep: bool)
    ensures var ids := Chosen(sends, round, sweep);
            && Increasing(ids) && Distinct(ids) && ValidIds(sends, ids)
            && (forall k | 0 <= k < |ids| :: Waits(sends[ids[k]], round, sweep))
            && (forall i: nat | i < |sends| && Waits(sends[i], round, sweep) :: i in ids)
  {
    var all := AllIds(|sends|);
    KeepIs(all, (i: nat) => i < |sends| && Waits(sends[i], round, sweep));
    forall i: nat | i < |sends| && Waits(sends[i], round, sweep) ensures i in Chosen(sends, round, sweep) {
      assert all[i] == i;
    }
  }

  /** Each delivery that waits and whose round has come, or that waits at all in a sweep. */
  lemma ChosenExactly(sends: seq<SendRecord>, round: nat, sweep: bool)
    ensures forall i: nat | i < |sends| ::
              i in Chosen(sends, round, sweep) <==> sends[i].status == Pending && (sweep || sends[i].round <= round)
  {
    ChosenIs(sends, round, sweep);
    var ids := Chosen(sends, round, sweep);
    forall i: nat | i < |sends|
      ensures i in ids <==> sends[i].status == Pending && (sweep || sends[i].round <= round)
    {
      if i in ids {
        var k :| 0 <= k < |ids| && ids[k] == i;
      } else {
        assert !Waits(sends[i], round, sweep);
      }
    }
  }

  // --- Stuck signatures first ------------------------------------------------------------------

  /** The fate of a waiting delivery is known, or its wallet gets nothing. */
  predicate Resolved(r: SendRecord, unsure: set<Wallet>) {
    r.status == Completed || (r.status == Pending && (r.recipient in unsure || Free(r)))
  }

  /** A delivery of this wallet waits with a signature of unknown fate. */
  predicate IsStuck(r: SendRecord, w: Wallet) {
    r.recipient == w && r.status == Pending && r.pending.Some?
  }

  /** One of the first `k` chosen deliveries of this wallet is. */
  ghost predicate Stuck(sends: seq<SendRecord>, chosen: seq<nat>, k: nat, w: Wallet)
    requires k <= |chosen| && ValidIds(sends, chosen)
  {
    exists j :: 0 <= j < k && IsStuck(sends[chosen[j]], w)
  }

  /** The first `k` are resolved, the rest untouched. */
  ghost predicate Resolving(before: seq<SendRecord>, now: seq<SendRecord>, chosen: seq<nat>, k: nat,
                            unsure: set<Wallet>) {
    && |now| == |before| && k <= |chosen| && ValidIds(now, chosen)
    && (forall i | 0 <= i < |now| && i !in chosen :: now[i] == before[i])
    && (forall j | k <= j < |chosen| :: now[chosen[j]].status == Pending)
    && (forall j | 0 <= j < k :: Resolved(now[chosen[j]], unsure))
    && (forall j | 0 <= j < k && before[chosen[j]].pending.None? :: now[chosen[j]] == before[chosen[j]])
    && (forall j | k <= j < |chosen| :: now[chosen[j]] == before[chosen[j]])
    && (forall j | 0 <= j < k && now[chosen[j]].status == Completed :: HasArrived(before[chosen[j]], now[chosen[j]]))
    && (forall w | w in unsure :: Stuck(now, chosen, k, w))
  }

  lemma NoWorseTwice(x: seq<SendRecord>, c: Chain, y: seq<SendRecord>, d: Chain, z: seq<SendRecord>, e: Chain)
    requires NoWorse(x, c, y, d) && NoWorse(y, d, z, e)
    ensures NoWorse(x, c, z, e)
  {
  }

  lemma ResolvingStep(before: seq<SendRecord>, now: seq<SendRecord>, next: seq<SendRecord>, chosen: seq<nat>, k: nat,
                      unsure: set<Wallet>, unsureToo: set<Wallet>)
    requires Resolving(before, now, chosen, k, unsure) && k < |chosen| && Distinct(chosen)
    requires |next| == |now| && forall i | 0 <= i < |now| && i != chosen[k] :: next[i] == now[i]
    requires Resolved(next[chosen[k]], unsureToo) && unsure <= unsureToo
    requires forall w | w in unsureToo && w !in unsure :: IsStuck(next[chosen[k]], w)
    requires now[chosen[k]].pending.None? ==> next[chosen[k]] == now[chosen[k]]
    requires next[chosen[k]].status == Completed ==> HasArrived(now[chosen[k]], next[chosen[k]])
    ensures Resolving(before, next, chosen, k + 1, unsureToo)
  {
    hide HasArrived, Stuck, IsStuck;
    assert forall j | 0 <= j < |chosen| && j != k :: next[chosen[j]] == now[chosen[j]];
    forall w | w in unsureToo ensures Stuck(next, chosen, k + 1, w) {
      StuckStep(now, next, chosen, k, w);
    }
  }

  lemma StuckStep(now: seq<SendRecord>, next: seq<SendRecord>, chosen: seq<nat>, k: nat, w: Wallet)
    requires k < |chosen| && |now| == |next| && ValidIds(now, chosen)
    requires forall j | 0 <= j < |chosen| && j != k :: next[chosen[j]] == now[chosen[j]]
    ensures Stuck(now, chosen, k, w) || IsStuck(next[chosen[k]], w) ==> Stuck(next, chosen, k + 1, w)
  {
    if Stuck(now, chosen, k, w) {
      var j :| 0 <= j < k && IsStuck(now[chosen[j]], w);
      assert IsStuck(next[chosen[j]], w);
    }
  }

  /** A delivery that is free now had a transaction that never lands. */
  ghost predicate Unlanded(before: seq<SendRecord>, now: seq<SendRecord>, chosen: seq<nat>, n: nat, c: Chain)
    requires n <= |chosen| && ValidIds(before, chosen) && ValidIds(now, chosen)
  {
    forall k | 0 <= k < n && before[chosen[k]].pending.Some? && now[chosen[k]].status == Pending
               && now[chosen[k]].pending.None? ::
      Dead(c, before[chosen[k]].pending.value)
  }

  lemma UnlandedStep(before: seq<SendRecord>, now: seq<SendRecord>, next: seq<SendRecord>, chosen: seq<nat>, k: nat,
                     c: Chain, d: Chain)
    requires k < |chosen| && Distinct(chosen) && |before| == |now| == |next| && ValidIds(now, chosen) && Extends(c, d)
    requires Unlanded(before, now, chosen, k, c) && forall i | 0 <= i < |now| && i != chosen[k] :: next[i] == now[i]
    requires before[chosen[k]].pending.Some? && next[chosen[k]].status == Pending && next[chosen[k]].pending.None? ==>
               Dead(d, before[chosen[k]].pending.value)
    ensures Unlanded(before, next, chosen, k + 1, d)
  {
    forall j | 0 <= j < k + 1 && before[chosen[j]].pending.Some? && next[chosen[j]].status == Pending
               && next[chosen[j]].pending.None?
      ensures Dead(d, before[chosen[j]].pending.value)
    {
      if j < k {
        DeadStaysDead(c, d, before[chosen[j]].pending.value);
      }
    }
  }

  lemma UnlandedLater(before: seq<SendRecord>, now: seq<SendRecord>, next: seq<SendRecord>, chosen: seq<nat>, c: Chain,
                      d: Chain)
    requires |before| == |now| == |next| && ValidIds(now, chosen) && Extends(c, d)
             && Unlanded(before, now, chosen, |chosen|, c)
    requires forall k | 0 <= k < |chosen| && next[chosen[k]].status == Pending :: next[chosen[k]] == now[chosen[k]]
    ensures Unlanded(before, next, chosen, |chosen|, d)
  {
    forall k | 0 <= k < |chosen| && before[chosen[k]].pending.Some? ensures
      Dead(c, before[chosen[k]].pending.value) ==> Dead(d, before[chosen[k]].pending.value)
    {
      DeadStaysDead(c, d, before[chosen[k]].pending.value);
    }
  }

  method ResolvePending(coin: Coin, world: World, chosen: seq<nat>) returns (unsure: set<Wallet>, crashed: bool)
    requires Sound(coin, world) && Distinct(chosen) && ValidIds(coin.sends, chosen)
    requires forall k | 0 <= k < |chosen| :: coin.sends[chosen[k]].status == Pending
    modifies coin`sends, world
    ensures Sound(coin, world) && world.sent == old(world.sent)
    ensures Extends(old(world.chain), world.chain) && old(world.bought) <= world.bought
            && old(world.mishaps) <= world.mishaps
    ensures NoWorse(old(coin.sends), old(world.chain), coin.sends, world.chain)
    ensures forall i | 0 <= i < |coin.sends| && i !in chosen :: coin.sends[i] == old(coin.sends)[i]
    ensures !crashed ==> forall k | 0 <= k < |chosen| :: Resolved(coin.sends[chosen[k]], unsure)
    ensures !crashed ==> Resolving(old(coin.sends), coin.sends, chosen, |chosen|, unsure)
    ensures !crashed ==> Unlanded(old(coin.sends), coin.sends, chosen, |chosen|, world.chain)
    ensures world.mishaps == old(world.mishaps) ==> !crashed && unsure == {}
    ensures world.deaths == old(world.deaths) + (if crashed then 1 else 0)
  {
    hide SendsOk, BurnsOk;
    unsure, crashed := {}, false;
    for k := 0 to |chosen|
      invariant world.deaths == old(world.deaths)
      invariant Sound(coin, world) && world.sent == old(world.sent) && !crashed
      invariant Extends(old(world.chain), world.chain) && old(world.bought) <= world.bought
                && old(world.mishaps) <= world.mishaps
      invariant NoWorse(old(coin.sends), old(world.chain), coin.sends, world.chain)
      invariant Resolving(old(coin.sends), coin.sends, chosen, k, unsure)
      invariant Unlanded(old(coin.sends), coin.sends, chosen, k, world.chain)
      invariant world.mishaps == old(world.mishaps) ==> unsure == {}
    {
      ghost var c, sends := world.chain, coin.sends;
      unsure, crashed := ResolveOne(coin, world, chosen, k, unsure, old(coin.sends));
      NoWorseTwice(old(coin.sends), old(world.chain), sends, c, coin.sends, world.chain);
      if crashed { return; }
    }
  }

  method ResolveOne(coin: Coin, world: World, chosen: seq<nat>, k: nat, doubtful: set<Wallet>,
                    ghost before: seq<SendRecord>)
    returns (unsure: set<Wallet>, crashed: bool)
    requires Sound(coin, world) && Distinct(chosen) && k < |chosen|
             && Resolving(before, coin.sends, chosen, k, doubtful)
    requires Unlanded(before, coin.sends, chosen, k, world.chain)
    modifies coin`sends, world
    ensures Sound(coin, world) && world.sent == old(world.sent)
    ensures Extends(old(world.chain), world.chain) && old(world.bought) <= world.bought
            && old(world.mishaps) <= world.mishaps
    ensures NoWorse(old(coin.sends), old(world.chain), coin.sends, world.chain)
    ensures forall i | 0 <= i < |coin.sends| && i !in chosen :: coin.sends[i] == old(coin.sends)[i]
    ensures !crashed ==> Resolving(before, coin.sends, chosen, k + 1, unsure)
    ensures !crashed ==> Unlanded(before, coin.sends, chosen, k + 1, world.chain)
    ensures world.mishaps == old(world.mishaps) ==> !crashed && unsure == doubtful
    ensures world.deaths == old(world.deaths) + (if crashed then 1 else 0)
  {
    unsure := doubtful;
    var verdict;
    verdict, crashed := CheckPendingSend(coin, world, chosen[k]);
    if crashed { return; }
    if verdict == UnknownFate {
      unsure := doubtful + {coin.sends[chosen[k]].recipient};
    }
    ResolvingStep(before, old(coin.sends), coin.sends, chosen, k, doubtful, unsure);
    UnlandedStep(before, old(coin.sends), coin.sends, chosen, k, old(world.chain), world.chain);
  }

  // --- The rules about token accounts --------------------------------------------------------

  datatype AtaVerdict = Allow | Block | Defer

  /** Whether a wallet whose token account has disappeared is still sent to. */
  function AtaVerdictFor(bet: nat, hadAta: bool, hasAtaNow: bool, last: bool): AtaVerdict {
    if bet < ONE_SOL then
      if hadAta && !hasAtaNow && bet < HALF_SOL then Block else Allow
    else if hadAta && !hasAtaNow && !last then Defer
    else Allow
  }

  /** A verdict for a wallet with this record, whatever the look-up of its account says. */
  ghost predicate AtaVerdictOf(sample: SendRecord, last: bool, verdict: AtaVerdict) {
    var hadAta := sample.hadAtaAtStart == Some(true);
    exists hasAtaNow :: (!hadAta ==> hasAtaNow) && verdict == AtaVerdictFor(sample.betLamports, hadAta, hasAtaNow, last)
  }

  function MarkMismatch(): (SendRecord, nat) -> SendRecord {
    (r: SendRecord, id: nat) => r.(status := AtaMismatch)
  }

  /** Blocking closes every record of the wallet in this round, also one that had just
      been found delivered. */
  method BlockWallet(coin: Coin, world: World, ids: seq<nat>)
    requires Sound(coin, world) && Distinct(ids) && ValidIds(coin.sends, ids)
    requires forall k | 0 <= k < |ids| :: Resolved(coin.sends[ids[k]], {})
    modifies coin`sends
    ensures Sound(coin, world) && NoWorse(old(coin.sends), world.chain, coin.sends, world.chain)
    ensures forall i | 0 <= i < |coin.sends| && i !in ids :: coin.sends[i] == old(coin.sends)[i]
    ensures forall k | 0 <= k < |ids| :: coin.sends[ids[k]] == old(coin.sends)[ids[k]].(status := AtaMismatch)
  {
    UpdateEach(coin, ids, MarkMismatch());
    forall id | 0 <= id < |coin.sends|
      ensures coin.sends[id] == old(coin.sends)[id] || RecordOk(coin.sends[id], id, world.chain, world.sent)
      ensures Named(coin.sends[id]) == Named(old(coin.sends)[id])
              && NamedAmount(coin.sends[id]) == NamedAmount(old(coin.sends)[id])
      ensures SameOwner(coin.sends[id], old(coin.sends)[id])
    {
      assert RecordOk(old(coin.sends)[id], id, world.chain, world.sent);
      if id in ids {
        var k :| 0 <= k < |ids| && ids[k] == id;
        assert Resolved(old(coin.sends)[ids[k]], {});
      }
    }
    UpdateManyOk(old(coin.sends), coin.sends, world.chain, world.sent);
  }

  /** The rule for one wallet. The account is looked up only if it was there at the
      start of the round. */
  method AtaRule(coin: Coin, world: World, ids: seq<nat>, last: bool) returns (verdict: AtaVerdict, crashed: bool)
    requires Sound(coin, world) && ids != [] && Distinct(ids) && ValidIds(coin.sends, ids)
    requires forall k | 0 <= k < |ids| :: Resolved(coin.sends[ids[k]], {})
    modifies coin`sends, world
    ensures Sound(coin, world) && world.sent == old(world.sent)
    ensures Extends(old(world.chain), world.chain) && old(world.bought) <= world.bought
            && old(world.mishaps) <= world.mishaps
    ensures NoWorse(old(coin.sends), old(world.chain), coin.sends, world.chain)
    ensures forall i | 0 <= i < |coin.sends| && i !in ids :: coin.sends[i] == old(coin.sends)[i]
    ensures crashed || verdict != Block ==> coin.sends == old(coin.sends)
    ensures !crashed && verdict == Block ==>
              forall k | 0 <= k < |ids| :: coin.sends[ids[k]] == old(coin.sends)[ids[k]].(status := AtaMismatch)
    ensures !crashed ==>
              var hadAta := old(coin.sends)[ids[0]].hadAtaAtStart == Some(true);
              && verdict == AtaVerdictFor(old(coin.sends)[ids[0]].betLamports, hadAta, !hadAta || world.account, last)
              && AtaVerdictOf(old(coin.sends)[ids[0]], last, verdict)
    ensures world.mishaps == old(world.mishaps) ==> !crashed
    ensures world.deaths == old(world.deaths) + (if crashed then 1 else 0)
  {
    var sample := coin.sends[ids[0]];
    var hasAtaNow := true;
    crashed := false;
    if sample.hadAtaAtStart == Some(true) {
      crashed := Wait(coin, world);
      if crashed { return Defer, true; }
      hasAtaNow := world.HasAccount();
    }
    verdict := AtaVerdictFor(sample.betLamports, sample.hadAtaAtStart == Some(true), hasAtaNow, last);
    if verdict == Block {
      BlockWallet(coin, world, ids);
    }
  }

  /** What the rules made of one wallet's records of this round. */
  ghost predicate Ruled(before: seq<SendRecord>, now: seq<SendRecord>, ids: seq<nat>, allowed: set<nat>,
                        verdict: AtaVerdict)
    requires |now| == |before| && ValidIds(before, ids)
  {
    forall k | 0 <= k < |ids| ::
      && (ids[k] in allowed <==> verdict == Allow)
      && now[ids[k]] == if verdict == Block then before[ids[k]].(status := AtaMismatch) else before[ids[k]]
  }

  /** The verdict the rules allow for a wallet, whatever the account look-up says. */
  ghost predicate MayRule(before: seq<SendRecord>, ids: seq<nat>, w: Wallet, unsure: set<Wallet>, last: bool,
                          verdict: AtaVerdict)
    requires ids != [] && ValidIds(before, ids)
  {
    if w in unsure then verdict == Defer
    else AtaVerdictOf(before[ids[0]], last, verdict)
  }

  ghost predicate RuledOn(before: seq<SendRecord>, now: seq<SendRecord>, chosen: seq<nat>, w: Wallet, allowed: set<nat>,
                          unsure: set<Wallet>, last: bool)
    requires |now| == |before| && ValidIds(before, chosen)
  {
    var ids := IdsOf(before, chosen, w);
    ids != [] && ValidIds(before, ids)
    && exists verdict :: MayRule(before, ids, w, unsure, last, verdict) && Ruled(before, now, ids, allowed, verdict)
  }

  /** The first `n` wallets are ruled on, the others' records untouched. */
  ghost predicate Ruling(before: seq<SendRecord>, now: seq<SendRecord>, chosen: seq<nat>, ws: seq<Wallet>, n: nat,
                         allowed: set<nat>, unsure: set<Wallet>, last: bool)
    requires ValidIds(before, chosen)
  {
    && n <= |ws| && |now| == |before|
    && RestUntouched(before, now, chosen, ws, n, allowed)
    && (forall j | 0 <= j < n :: RuledOn(before, now, chosen, ws[j], allowed, unsure, last))
  }

  /** Nothing of the wallets from number `n` on has changed or been allowed. */
  ghost predicate RestUntouched(before: seq<SendRecord>, now: seq<SendRecord>, chosen: seq<nat>, ws: seq<Wallet>,
                                n: nat, allowed: set<nat>)
    requires |now| == |before|
  {
    && (forall i | 0 <= i < |now| && now[i] != before[i] ::
        i in chosen && forall j | n <= j < |ws| :: before[i].recipient != ws[j])
    && (forall i | i in allowed ::
        i < |before| && i in chosen && forall j | n <= j < |ws| :: before[i].recipient != ws[j])
  }

  lemma RulingStep(before: seq<SendRecord>, now: seq<SendRecord>, next: seq<SendRecord>, chosen: seq<nat>,
                   ws: seq<Wallet>, n: nat,
                   allowed: set<nat>, unsure: set<Wallet>, last: bool, ids: seq<nat>, verdict: AtaVerdict)
    requires ValidIds(before, chosen) && Ruling(before, now, chosen, ws, n, allowed, unsure, last) && n < |ws|
             && Distinct(ws)
    requires ids == IdsOf(before, chosen, ws[n]) && ids != [] && ValidIds(before, ids)
    requires MayRule(before, ids, ws[n], unsure, last, verdict)
    requires |next| == |now| && forall i | 0 <= i < |now| && i !in ids :: next[i] == now[i]
    requires forall k | 0 <= k < |ids| ::
               next[ids[k]] == if verdict == Block then now[ids[k]].(status := AtaMismatch) else now[ids[k]]
    ensures Ruling(before, next, chosen, ws, n + 1, if verdict == Allow then allowed + (set i | i in ids) else allowed,
                   unsure, last)
  {
    hide RuledOn, RestUntouched, MayRule, IdsOf;
    IdsAre(before, chosen, ws[n]);
    var allowedToo := if verdict == Allow then allowed + (set i | i in ids) else allowed;
    OwnUntouched(before, now, chosen, ws, n, allowed);
    RuledOwn(before, now, next, chosen, ws[n], ids, verdict, allowed, allowedToo);
    OwnRuledOn(before, next, chosen, ws[n], ids, verdict, allowedToo, unsure, last);
    OnlyOwn(before, now, next, ids, ws[n], allowed, allowedToo);
    OthersStillRuled(before, now, next, chosen, ws, n, allowed, allowedToo, unsure, last);
    RestStillUntouched(before, now, next, chosen, ws, n, allowed, allowedToo, ids);
  }

  lemma OwnUntouched(before: seq<SendRecord>, now: seq<SendRecord>, chosen: seq<nat>, ws: seq<Wallet>, n: nat,
                     allowed: set<nat>)
    requires |now| == |before| && n < |ws| && RestUntouched(before, now, chosen, ws, n, allowed)
    ensures forall i | 0 <= i < |now| && now[i] != before[i] :: before[i].recipient != ws[n]
    ensures forall i | i in allowed :: i < |before| && before[i].recipient != ws[n]
  {
  }

  lemma OwnRuledOn(before: seq<SendRecord>, next: seq<SendRecord>, chosen: seq<nat>, w: Wallet, ids: seq<nat>,
                   verdict: AtaVerdict, allowed: set<nat>, unsure: set<Wallet>, last: bool)
    requires ValidIds(before, chosen) && |next| == |before|
    requires ids == IdsOf(before, chosen, w) && ids != [] && ValidIds(before, ids)
    requires MayRule(before, ids, w, unsure, last, verdict) && Ruled(before, next, ids, allowed, verdict)
    ensures RuledOn(before, next, chosen, w, allowed, unsure, last)
  {
  }

  lemma OthersStillRuled(before: seq<SendRecord>, now: seq<SendRecord>, next: seq<SendRecord>, chosen: seq<nat>,
                         ws: seq<Wallet>, n: nat,
                         allowed: set<nat>, allowedToo: set<nat>, unsure: set<Wallet>, last: bool)
    requires ValidIds(before, chosen) && |now| == |before| == |next| && n < |ws| && Distinct(ws)
    requires forall j | 0 <= j < n :: RuledOn(before, now, chosen, ws[j], allowed, unsure, last)
    requires forall i: nat | i < |now| && before[i].recipient != ws[n] ::
               next[i] == now[i] && (i in allowedToo <==> i in allowed)
    ensures forall j | 0 <= j < n :: RuledOn(before, next, chosen, ws[j], allowedToo, unsure, last)
  {
    forall j | 0 <= j < n ensures RuledOn(before, next, chosen, ws[j], allowedToo, unsure, last) {
      assert ws[j] != ws[n];
      StillRuledOn(before, now, next, chosen, ws[j], ws[n], allowed, allowedToo, unsure, last);
    }
  }

  lemma RestStillUntouched(before: seq<SendRecord>, now: seq<SendRecord>, next: seq<SendRecord>, chosen: seq<nat>,
                           ws: seq<Wallet>, n: nat, allowed: set<nat>, allowedToo: set<nat>, ids: seq<nat>)
    requires |now| == |before| == |next| && n < |ws| && Distinct(ws)
             && RestUntouched(before, now, chosen, ws, n, allowed)
    requires forall k | 0 <= k < |ids| :: ids[k] in chosen && ids[k] < |before| && before[ids[k]].recipient == ws[n]
    requires forall i | 0 <= i < |now| && i !in ids :: next[i] == now[i]
    requires allowedToo <= allowed + (set i | i in ids)
    ensures RestUntouched(before, next, chosen, ws, n + 1, allowedToo)
  {
    forall i | i in ids ensures i < |before| && i in chosen && before[i].recipient == ws[n] {
      var k :| 0 <= k < |ids| && ids[k] == i;
    }
  }

  lemma RuledOwn(before: seq<SendRecord>, now: seq<SendRecord>, next: seq<SendRecord>, chosen: seq<nat>, w: Wallet,
                 ids: seq<nat>, verdict: AtaVerdict, allowed: set<nat>, allowedToo: set<nat>)
    requires ValidIds(before, chosen) && ids == IdsOf(before, chosen, w) && ValidIds(before, ids)
             && |next| == |now| == |before|
    requires forall i | 0 <= i < |now| && now[i] != before[i] :: before[i].recipient != w
    requires forall i | i in allowed :: i < |before| && before[i].recipient != w
    requires forall k | 0 <= k < |ids| ::
               next[ids[k]] == if verdict == Block then now[ids[k]].(status := AtaMismatch) else now[ids[k]]
    requires allowedToo == if verdict == Allow then allowed + (set i | i in ids) else allowed
    ensures Ruled(before, next, ids, allowedToo, verdict)
  {
    IdsAre(before, chosen, w);
  }

  lemma OnlyOwn(before: seq<SendRecord>, now: seq<SendRecord>, next: seq<SendRecord>, ids: seq<nat>, w: Wallet,
                allowed: set<nat>, allowedToo: set<nat>)
    requires |next| == |now| == |before| && ValidIds(before, ids)
    requires forall k | 0 <= k < |ids| :: before[ids[k]].recipient == w
    requires forall i | 0 <= i < |now| && i !in ids :: next[i] == now[i]
    requires allowed <= allowedToo <= allowed + (set i | i in ids)
    ensures forall i: nat | i < |now| && before[i].recipient != w ::
              next[i] == now[i] && (i in allowedToo <==> i in allowed)
  {
  }

  lemma StillRuledOn(before: seq<SendRecord>, now: seq<SendRecord>, next: seq<SendRecord>, chosen: seq<nat>, w: Wallet,
                     other: Wallet, allowed: set<nat>, allowedToo: set<nat>, unsure: set<Wallet>, last: bool)
    requires ValidIds(before, chosen) && |now| == |before| == |next| && w != other
    requires RuledOn(before, now, chosen, w, allowed, unsure, last)
    requires forall i: nat | i < |now| && before[i].recipient != other :: next[i] == now[i]
    requires forall i: nat | i < |now| && before[i].recipient != other :: (i in allowedToo <==> i in allowed)
    ensures RuledOn(before, next, chosen, w, allowedToo, unsure, last)
  {
    var ids := IdsOf(before, chosen, w);
    IdsAre(before, chosen, w);
    var verdict :| MayRule(before, ids, w, unsure, last, verdict) && Ruled(before, now, ids, allowed, verdict);
    assert Ruled(before, next, ids, allowedToo, verdict);
  }

  /** The rules, wallet by wallet. A wallet with a transfer of unknown fate gets
      nothing this round, from any of its records. */
  method AtaRules(coin: Coin, world: World, chosen: seq<nat>, unsure: set<Wallet>, last: bool)
    returns (allowed: set<nat>, crashed: bool)
    requires Sound(coin, world) && Distinct(chosen) && ValidIds(coin.sends, chosen)
    requires forall k | 0 <= k < |chosen| :: Resolved(coin.sends[chosen[k]], unsure)
    modifies coin`sends, world
    ensures Sound(coin, world) && world.sent == old(world.sent)
    ensures Extends(old(world.chain), world.chain) && old(world.bought) <= world.bought
            && old(world.mishaps) <= world.mishaps
    ensures NoWorse(old(coin.sends), old(world.chain), coin.sends, world.chain)
    ensures forall i: nat | i < |coin.sends| && i !in chosen :: coin.sends[i] == old(coin.sends)[i]
    ensures var ws := RecipientsOf(old(coin.sends), chosen);
            !crashed ==> Ruling(old(coin.sends), coin.sends, chosen, ws, |ws|, allowed, unsure, last)
    ensures world.mishaps == old(world.mishaps) ==> !crashed
    ensures world.deaths == old(world.deaths) + (if crashed then 1 else 0)
  {
    allowed, crashed := {}, false;
    var before := coin.sends;
    var ws := RecipientsOf(before, chosen);
    RecipientsAre(before, chosen);
    for i := 0 to |ws|
      invariant world.deaths == old(world.deaths)
      invariant Sound(coin, world) && world.sent == old(world.sent)
      invariant Extends(old(world.chain), world.chain) && old(world.bought) <= world.bought
                && old(world.mishaps) <= world.mishaps
      invariant NoWorse(before, old(world.chain), coin.sends, world.chain)
      invariant Ruling(before, coin.sends, chosen, ws, i, allowed, unsure, last) && !crashed
    {
      var ids := IdsOf(before, chosen, ws[i]);
      WalletsRecords(before, coin.sends, chosen, ws, i, allowed, unsure, last);
      if ws[i] in unsure {
        RulingStep(before, coin.sends, coin.sends, chosen, ws, i, allowed, unsure, last, ids, Defer);
        continue;
      }
      ghost var c, sends := world.chain, coin.sends;
      var verdict;
      verdict, crashed := AtaRule(coin, world, ids, last);
      NoWorseTwice(before, old(world.chain), sends, c, coin.sends, world.chain);
      if crashed { return; }
      RulingStep(before, sends, coin.sends, chosen, ws, i, allowed, unsure, last, ids, verdict);
      if verdict == Allow {
        allowed := allowed + (set id | id in ids);
      }
    }
  }

  lemma WalletsRecords(before: seq<SendRecord>, now: seq<SendRecord>, chosen: seq<nat>, ws: seq<Wallet>, n: nat,
                       allowed: set<nat>, unsure: set<Wallet>, last: bool)
    requires Distinct(chosen) && ValidIds(before, chosen) && ws == RecipientsOf(before, chosen)
    requires Ruling(before, now, chosen, ws, n, allowed, unsure, last) && n < |ws|
    requires forall k | 0 <= k < |chosen| :: Resolved(before[chosen[k]], unsure)
    ensures var ids := IdsOf(before, chosen, ws[n]);
            && ids != [] && Distinct(ids) && ValidIds(before, ids)
            && (forall k | 0 <= k < |ids| :: now[ids[k]] == before[ids[k]] && before[ids[k]].recipient == ws[n])
            && (ws[n] !in unsure ==> forall k | 0 <= k < |ids| :: Resolved(now[ids[k]], {}))
  {
    var ids := IdsOf(before, chosen, ws[n]);
    IdsAre(before, chosen, ws[n]);
    RecipientsAre(before, chosen);
    assert ws[n] in ws;
    var k :| 0 <= k < |chosen| && before[chosen[k]].recipient == ws[n];
    assert chosen[k] in ids;
    forall k | 0 <= k < |ids| ensures Resolved(before[ids[k]], unsure) && now[ids[k]] == before[ids[k]] {
      var m :| 0 <= m < |chosen| && chosen[m] == ids[k];
    }
  }

  // --- Amounts, and sending them ------------------------------------------------------------

  ghost predicate AllWaiting(sends: seq<SendRecord>, active: seq<nat>) {
    ValidIds(sends, active) && forall k | 0 <= k < |active| ::
      sends[active[k]].status == Pending && Free(sends[active[k]])
  }

  function MarkSatisfied(): (SendRecord, nat) -> SendRecord {
    (r: SendRecord, id: nat) => r.(status := Satisfied)
  }

  /** Deliveries that have nothing to carry are closed: their wallet has its share. */
  method CloseSatisfied(coin: Coin, world: World, active: seq<nat>, plan: map<nat, nat>)
    requires Sound(coin, world) && Increasing(active) && AllWaiting(coin.sends, active)
    modifies coin`sends
    ensures Sound(coin, world) && |coin.sends| == |old(coin.sends)|
    ensures forall i: nat | i < |coin.sends| ::
              coin.sends[i] == if i in active && i !in plan then old(coin.sends)[i].(status := Satisfied)
                else old(coin.sends)[i]
  {
    var done := Keep(active, (i: nat) => i !in plan);
    KeepIs(active, (i: nat) => i !in plan);
    forall k | 0 <= k < |done| ensures done[k] < |coin.sends| && coin.sends[done[k]].status == Pending
      && Free(coin.sends[done[k]]) {
      var j :| 0 <= j < |active| && active[j] == done[k];
    }
    UpdateEach(coin, done, MarkSatisfied());
    forall id: nat | id < |coin.sends|
      ensures coin.sends[id] == old(coin.sends)[id] || RecordOk(coin.sends[id], id, world.chain, world.sent)
      ensures Named(coin.sends[id]) == Named(old(coin.sends)[id])
      ensures coin.sends[id] == if id in active && id !in plan then old(coin.sends)[id].(status := Satisfied)
              else old(coin.sends)[id]
    {
      assert RecordOk(old(coin.sends)[id], id, world.chain, world.sent);
      if id in done {
        var k :| 0 <= k < |done| && done[k] == id;
      }
    }
    UpdateManyOk(old(coin.sends), coin.sends, world.chain, world.sent);
  }

  /** The delivery is made, or was not needed any more. */
  predicate Cleared(r: SendRecord) {
    r.status == Completed || r.status == Satisfied
  }

  /** Every one of these deliveries that is the wallet's is cleared. */
  ghost predicate AllCleared(sends: seq<SendRecord>, ids: seq<nat>, w: Wallet)
    requires ValidIds(sends, ids)
  {
    forall k | 0 <= k < |ids| && sends[ids[k]].recipient == w :: Cleared(sends[ids[k]])
  }

  ghost predicate NoneInProgress(sends: seq<SendRecord>, ids: seq<nat>)
    requires ValidIds(sends, ids)
  {
    forall k | 0 <= k < |ids| :: sends[ids[k]].status != InProgress
  }

  /** The records that have nothing to carry are closed, the others sent. A wallet all of
      whose records are cleared afterwards was delivered exactly what was planned for it;
      if nothing goes wrong that is every wallet. */
  method DeliverPlan(coin: Coin, world: World, active: seq<nat>, plan: map<nat, nat>) returns (crashed: bool)
    requires Sound(coin, world) && Increasing(active) && AllWaiting(coin.sends, active)
    requires forall i | i in plan :: i in active
    modifies coin`sends, world
    ensures Sound(coin, world) && Extends(old(world.chain), world.chain) && old(world.bought) <= world.bought
            && old(world.mishaps) <= world.mishaps && world.read == old(world.read)
    ensures forall i: nat | i < |coin.sends| && i !in active ::
              i < |old(coin.sends)| && coin.sends[i] == old(coin.sends)[i]
    ensures WithinPlan(old(coin.sends), old(world.chain), plan, coin.sends, world.chain)
    ensures !crashed ==> NoneInProgress(coin.sends, active)
    ensures !crashed ==> forall w ::
              AllCleared(coin.sends, active, w) ==> AllDelivered(old(coin.sends), plan, coin.sends, w)
    ensures world.mishaps == old(world.mishaps) ==>
              !crashed && forall k | 0 <= k < |active| :: Cleared(coin.sends[active[k]])
    ensures world.deaths == old(world.deaths) + (if crashed then 1 else 0)
  {
    CloseSatisfied(coin, world, active, plan);
    ghost var sends := coin.sends;
    var ids := Keep(active, (i: nat) => i in plan);
    KeepIs(active, (i: nat) => i in plan);
    forall k | 0 <= k < |ids|
      ensures ids[k] < |sends| && ids[k] in plan && sends[ids[k]].status == Pending && Free(sends[ids[k]])
    {
      var j :| 0 <= j < |active| && active[j] == ids[k];
    }
    forall i | i in plan ensures i in ids {
      var j :| 0 <= j < |active| && active[j] == i;
    }
    crashed := DeliverAll(coin, world, ids, plan);
    AfterPlan(old(coin.sends), old(world.chain), sends, active, ids, plan, coin.sends, world.chain, world.sent);
    if !crashed {
      PlanDelivered(old(coin.sends), sends, active, ids, plan, coin.sends, world.chain, world.sent,
                    world.mishaps == old(world.mishaps));
    }
  }

  /** Where the closing of what was not needed and the sending left the records. */
  ghost predicate PlanRan(before: seq<SendRecord>, closed: seq<SendRecord>, active: seq<nat>, ids: seq<nat>,
                          plan: map<nat, nat>, after: seq<SendRecord>)
  {
    && AllWaiting(before, active) && SameRecipients(closed, after) && |before| == |closed|
    && (forall i | i in ids :: i in plan)
    && (forall i: nat | i < |closed| ::
          closed[i] == if i in active && i !in plan then before[i].(status := Satisfied) else before[i])
    && (forall i: nat | i < |after| && i !in ids :: after[i] == closed[i])
    && (forall i | i in plan :: i in active && i < |after|)
  }

  lemma AfterPlan(before: seq<SendRecord>, c: Chain, closed: seq<SendRecord>, active: seq<nat>, ids: seq<nat>,
                  plan: map<nat, nat>, after: seq<SendRecord>, d: Chain, sent: seq<Tx>)
    requires PlanRan(before, closed, active, ids, plan, after) && Extends(c, d)
    requires forall i | i in plan :: Potential(after[i], d) <= plan[i]
    requires AllRecordsOk(after, d, sent)
    ensures forall i: nat | i < |after| && i !in active :: after[i] == before[i]
    ensures WithinPlan(before, c, plan, after, d)
  {
    forall i: nat | i < |before|
      ensures SameOwner(before[i], after[i]) && Potential(after[i], d) <= PlanClaim(before, c, plan)[i]
    {
      assert RecordOk(after[i], i, d, sent);
      assert SameOwner(closed[i], after[i]);
      if i in active {
        var k :| 0 <= k < |active| && active[k] == i;
      }
      if i !in plan && Named(before[i]).Some? {
        DeadStaysDead(c, d, Named(before[i]).value);
      }
    }
  }

  lemma PlanDelivered(before: seq<SendRecord>, closed: seq<SendRecord>, active: seq<nat>, ids: seq<nat>,
                      plan: map<nat, nat>, after: seq<SendRecord>, d: Chain, sent: seq<Tx>, calm: bool)
    requires PlanRan(before, closed, active, ids, plan, after)
    requires forall i | i in plan :: Deliveries.Over(after[i], i, plan, calm)
    requires AllRecordsOk(after, d, sent)
    ensures ValidIds(after, active) && NoneInProgress(after, active)
    ensures forall w :: AllCleared(after, active, w) ==> AllDelivered(before, plan, after, w)
    ensures calm ==> forall k | 0 <= k < |active| :: Cleared(after[active[k]])
  {
    forall k | 0 <= k < |active|
      ensures after[active[k]].status != InProgress && (calm ==> Cleared(after[active[k]]))
    {
      var i := active[k];
      if i !in plan {
        assert i !in ids && after[i] == closed[i];
      }
    }
    forall w | AllCleared(after, active, w) ensures AllDelivered(before, plan, after, w) {
      forall i: nat | i < |before|
        ensures SameOwner(before[i], after[i])
        ensures before[i].recipient == w ==> Counted(after[i], true) == Counted(before[i], true) + AmountOf(plan, i)
      {
        assert SameOwner(closed[i], after[i]) && RecordOk(after[i], i, d, sent);
        if i in active {
          var k :| 0 <= k < |active| && active[k] == i;
        }
      }
    }
  }

  /** The wallet has been delivered exactly what it is owed. */
  ghost predicate Made(sends: seq<SendRecord>, known: nat, shares: seq<Share>, w: Wallet) {
    DeliveredTo(sends, w, true) == DeliveryOwed(known, w, shares)
  }

  ghost predicate NoneLoose(ws: seq<Wallet>, sends: seq<SendRecord>, c: Chain) {
    forall w | w in ws :: !Loose(sends, c, w)
  }

  ghost function OverservedBy(r: Round, c: Chain): set<Wallet>
    requires TotalBet(r.sends) > 0 && ValidIds(r.sends, r.active)
  {
    set w | w in RecipientsOf(r.sends, r.active) && Overserved(r, c, w)
  }

  /** What is known to have been bought, counted again from the purchases read so far:
      it only grows and is never more than was really bought (see PurchaseTokens). */
  method Recount(coin: Coin, world: World)
    requires Kept(coin, world)
    modifies coin`known
    ensures Kept(coin, world) && old(coin.known) <= coin.known
  {
    assert coin.known <= world.bought;
    ghost var known := coin.known;
    var now: nat :| coin.known <= now <= world.bought;
    coin.known := now;
    OwedGrows(known, now, "", coin.shares);
    KeptOverTime(coin, world, coin.sends, world.chain, known);
  }

  method Pass(coin: Coin, world: World) returns (crashed: bool)
    requires Kept(coin, world)
    modifies world
    ensures Kept(coin, world) && world.sent == old(world.sent)
    ensures Extends(old(world.chain), world.chain) && old(world.bought) <= world.bought
            && old(world.mishaps) <= world.mishaps
    ensures NoWorse(coin.sends, old(world.chain), coin.sends, world.chain)
    ensures (world.mishaps == old(world.mishaps) ==> !crashed) && world.read == old(world.read)
    ensures world.deaths == old(world.deaths) + (if crashed then 1 else 0)
  {
    crashed := Wait(coin, world);
    KeptOverTime(coin, world, coin.sends, old(world.chain), coin.known);
  }

  /** The plan of a coin nobody burns: each wallet's records carry what it is given of the
      balance. */
  ghost predicate PlanByBet(sends: seq<SendRecord>, active: seq<nat>, plan: map<nat, nat>, balance: int)
    requires TotalBet(sends) > 0 && ValidIds(sends, active)
  {
    var ws := RecipientsOf(sends, active);
    var d := DeficitsOf(sends, ws, balance, None);
    forall i | 0 <= i < |ws| ::
      SumOver(plan, IdsOf(sends, active, ws[i])) == if Sum(d) == 0 then 0 else Given(d, i, balance)
  }

  /** In a round on this balance every wallet whose records are all cleared got its bet's
      share, if nobody was ahead. */
  ghost predicate ServedByBet(before: seq<SendRecord>, active: seq<nat>, after: seq<SendRecord>, balance: int)
    requires ValidIds(before, active) && ValidIds(after, active)
  {
    TotalBet(before) > 0 && balance > 0 && NoneAhead(before, balance) ==>
      forall w | w in RecipientsOf(before, active) && AllCleared(after, active, w) ::
        HasBetShare(before, active, after, balance, w)
  }

  lemma {:induction false} SentIsPlanned(before: seq<SendRecord>, plan: map<nat, nat>,
                                         after: seq<SendRecord>, w: Wallet, ids: seq<nat>)
    requires AllDelivered(before, plan, after, w) && ValidIds(before, ids) && ValidIds(after, ids)
    requires forall k | 0 <= k < |ids| :: before[ids[k]].recipient == w && before[ids[k]].status == Pending
    ensures SentOver(after, ids) == SumOver(plan, ids)
  {
    if ids != [] {
      SentIsPlanned(before, plan, after, w, ids[..|ids| - 1]);
    }
  }

  lemma WalletEndsByBet(before: seq<SendRecord>, active: seq<nat>, plan: map<nat, nat>, balance: int,
                        after: seq<SendRecord>, i: nat)
    requires AllWaiting(before, active) && ValidIds(after, active) && TotalBet(before) > 0 && balance > 0
    requires PlanByBet(before, active, plan, balance) && NoneAhead(before, balance)
             && i < |RecipientsOf(before, active)|
    requires AllDelivered(before, plan, after, RecipientsOf(before, active)[i])
    ensures HasBetShare(before, active, after, balance, RecipientsOf(before, active)[i])
  {
    hide IsBetShare, Given, Target, Pot, NoneAhead, TotalBet, RecipientsOf, IdsOf, DeficitsOf, Sum, SumOver, SentOver,
         AllDelivered, DeliveredTo;
    var w := RecipientsOf(before, active)[i];
    var ids := IdsOf(before, active, w);
    IdsAre(before, active, w);
    forall k | 0 <= k < |ids| ensures before[ids[k]].status == Pending {
      var m :| 0 <= m < |active| && active[m] == ids[k];
    }
    SentIsPlanned(before, plan, after, w, ids);
    RoundByBet(before, active, balance, i);
  }

  lemma RoundEndsByBet(before: seq<SendRecord>, active: seq<nat>, plan: map<nat, nat>, balance: int,
                       after: seq<SendRecord>)
    requires AllWaiting(before, active) && ValidIds(after, active) && TotalBet(before) > 0 && balance > 0
    requires PlanByBet(before, active, plan, balance)
    requires forall w :: AllCleared(after, active, w) ==> AllDelivered(before, plan, after, w)
    ensures ServedByBet(before, active, after, balance)
  {
    hide HasBetShare, PlanByBet, NoneAhead, TotalBet, RecipientsOf, AllDelivered, AllCleared;
    var ws := RecipientsOf(before, active);
    if NoneAhead(before, balance) {
      forall w | w in ws && AllCleared(after, active, w) ensures HasBetShare(before, active, after, balance, w) {
        var i :| 0 <= i < |ws| && ws[i] == w;
        WalletEndsByBet(before, active, plan, balance, after, i);
      }
    }
  }

  /** The amounts of the round: on the exact basis where somebody burns. */
  method PlanRound(coin: Coin, world: World, active: seq<nat>, balance: nat) returns (plan: map<nat, nat>)
    requires Kept(coin, world) && Increasing(active) && AllWaiting(coin.sends, active) && balance > 0
    ensures forall i | i in plan :: i in active
    ensures HasBurn(coin.shares) && TotalBet(coin.sends) > 0 ==>
              RoundOk(Round(coin.sends, active, balance, coin.known, coin.shares), plan, world.chain, world.sent)
    ensures TotalBet(coin.sends) == 0 ==> plan == map[]
    ensures !HasBurn(coin.shares) && TotalBet(coin.sends) > 0 ==> PlanByBet(coin.sends, active, plan, balance)
  {
    var basis := if HasBurn(coin.shares) then Some(Basis(coin.known, coin.shares)) else None;
    plan := CalculateDeficitAmounts(coin.sends, active, balance, basis);
    PlanIsFree(coin.sends, active, plan);
  }

  /** The amounts are worked out and sent, on a balance just read. For a coin with
      burners, whoever this may take above what it is owed is noted as tainted; with
      enough on the keeper, every other wallet whose records are all cleared afterwards
      has exactly what it is owed. If nothing goes wrong all of them are cleared. */
  method ServeFrom(coin: Coin, world: World, active: seq<nat>, balance: nat) returns (crashed: bool)
    requires Kept(coin, world) && Increasing(active) && AllWaiting(coin.sends, active) && balance > 0
    modifies coin`sends, coin`tainted, world
    ensures Kept(coin, world) && Extends(old(world.chain), world.chain) && old(world.bought) <= world.bought
            && old(world.mishaps) <= world.mishaps && world.read == old(world.read)
    ensures SameRecipients(old(coin.sends), coin.sends)
    ensures forall i: nat | i < |coin.sends| && i !in active :: coin.sends[i] == old(coin.sends)[i]
    ensures old(coin.tainted) <= coin.tainted
    ensures !crashed ==> NoneInProgress(coin.sends, active)
    ensures var r := Round(old(coin.sends), active, balance, coin.known, coin.shares);
            var c := old(world.chain);
            TotalBet(r.sends) > 0 && HasBurn(coin.shares) ==>
              && coin.tainted == old(coin.tainted) + OverservedBy(r, c)
              && (!crashed && Sum(RoundDeficits(r)) <= balance ==>
                    forall w | w in RecipientsOf(r.sends, active) && w !in coin.tainted
                      && AllCleared(coin.sends, active, w) ::
                      Made(coin.sends, coin.known, coin.shares, w))
    ensures TotalBet(old(coin.sends)) <= 0 || !HasBurn(coin.shares) ==> coin.tainted == old(coin.tainted)
    ensures !crashed && !HasBurn(coin.shares) ==> ServedByBet(old(coin.sends), active, coin.sends, balance)
    ensures world.mishaps == old(world.mishaps) ==>
              !crashed && forall k | 0 <= k < |active| :: Cleared(coin.sends[active[k]])
    ensures world.deaths == old(world.deaths) + (if crashed then 1 else 0)
  {
    hide RoundOk, PlanByBet, Made, Sum, Given, OverservedBy;
    var plan := PlanRound(coin, world, active, balance);
    ghost var r := Round(coin.sends, active, balance, coin.known, coin.shares);
    ghost var c, sent, tainted := world.chain, world.sent, coin.tainted;
    ghost var over := if HasBurn(coin.shares) && TotalBet(coin.sends) > 0 then OverservedBy(r, c) else {};
    coin.tainted := coin.tainted + over;
    crashed := DeliverPlan(coin, world, active, plan);
    if !crashed && !HasBurn(coin.shares) && TotalBet(r.sends) > 0 {
      RoundEndsByBet(r.sends, active, plan, balance, coin.sends);
    }
    if HasBurn(coin.shares) {
      if TotalBet(r.sends) > 0 {
        RoundEnds(r, plan, c, sent, coin.sends, world.chain, tainted, over, !crashed);
      } else {
        WalletsStayOk(r.sends, coin.sends, c, world.chain, coin.known, coin.known, coin.shares, tainted);
      }
    }
  }

  lemma PlanIsFree(sends: seq<SendRecord>, active: seq<nat>, plan: map<nat, nat>)
    requires AllWaiting(sends, active) && forall i | i in plan :: i in active
    ensures OnlyFree(sends, plan)
  {
    forall i | i in plan ensures i < |sends| && sends[i].status == Pending && Free(sends[i]) {
      var k :| 0 <= k < |active| && active[k] == i;
    }
  }

  lemma RoundEnds(r: Round, plan: map<nat, nat>, c: Chain, sent: seq<Tx>, after: seq<SendRecord>, d: Chain,
                  tainted: set<Wallet>, over: set<Wallet>, ran: bool)
    requires RoundOk(r, plan, c, sent) && WalletsOk(r.sends, c, r.known, r.shares, tainted)
    requires over == OverservedBy(r, c) && WithinPlan(r.sends, c, plan, after, d)
    requires ran ==> forall w :: AllCleared(after, r.active, w) ==> AllDelivered(r.sends, plan, after, w)
    ensures WalletsOk(after, d, r.known, r.shares, tainted + over)
    ensures ran && Sum(RoundDeficits(r)) <= r.balance ==>
              forall w | w in RecipientsOf(r.sends, r.active) && w !in tainted + over
                && AllCleared(after, r.active, w) ::
                Made(after, r.known, r.shares, w)
  {
    WalletsAfterRound(r, plan, c, sent, after, d, tainted, over);
    if ran && Sum(RoundDeficits(r)) <= r.balance {
      forall w | w in RecipientsOf(r.sends, r.active) && w !in tainted + over && AllCleared(after, r.active, w)
        ensures Made(after, r.known, r.shares, w)
      {
        RoundMakesWhole(r, plan, c, sent, after, w);
      }
    }
  }

  // --- The visit ---------------------------------------------------------------------------------

  ghost predicate MadeOrLoose(ws: seq<Wallet>, before: seq<SendRecord>, c: Chain, sends: seq<SendRecord>, known: nat,
                              shares: seq<Share>) {
    forall w | w in ws :: Made(sends, known, shares, w) || Loose(before, c, w)
  }

  /** Every wallet whose active records are all cleared, and every wallet if nothing went
      wrong, is made whole or had an uncounted delivery. */
  ghost predicate Served(before: seq<SendRecord>, c: Chain, active: seq<nat>, after: seq<SendRecord>, known: nat,
                         shares: seq<Share>, calm: bool)
    requires ValidIds(before, active) && ValidIds(after, active)
  {
    forall w | w in RecipientsOf(before, active) && (calm || AllCleared(after, active, w)) ::
      Made(after, known, shares, w) || Loose(before, c, w)
  }

  /** What the keeper's own balance look-up gives: the truth, or nothing. */
  method ReadBalance(coin: Coin, world: World) returns (balance: Option<nat>, crashed: bool)
    requires Kept(coin, world)
    modifies world
    ensures Kept(coin, world) && world.sent == old(world.sent)
    ensures Extends(old(world.chain), world.chain) && old(world.bought) <= world.bought
            && old(world.mishaps) <= world.mishaps
    ensures NoWorse(coin.sends, old(world.chain), coin.sends, world.chain)
    ensures balance.Some? ==>
              balance.value == Max(0, KeeperBalance(world.bought, world.sent, world.chain, |coin.sends|))
    ensures (world.mishaps == old(world.mishaps) ==> !crashed && balance.Some?) && world.read == balance
    ensures world.deaths == old(world.deaths) + (if crashed then 1 else 0)
  {
    crashed := Pass(coin, world);
    balance := world.ReadHeld(|coin.sends|);
  }

  /** Deliveries to these records, on the balance there is. Without anything on the keeper
      they wait on. */
  method Serve(coin: Coin, world: World, active: seq<nat>) returns (crashed: bool)
    requires Kept(coin, world) && Increasing(active) && AllWaiting(coin.sends, active)
    modifies coin`sends, coin`known, coin`tainted, world
    ensures Kept(coin, world) && Extends(old(world.chain), world.chain) && old(world.bought) <= world.bought
            && old(world.mishaps) <= world.mishaps
    ensures SameRecipients(old(coin.sends), coin.sends) && old(coin.known) <= coin.known
    ensures forall i: nat | i < |coin.sends| && i !in active :: coin.sends[i] == old(coin.sends)[i]
    ensures old(coin.tainted) <= coin.tainted
    ensures old(coin.tainted) == {}
            && NoneLoose(RecipientsOf(old(coin.sends), active), old(coin.sends), old(world.chain)) ==>
                 coin.tainted == {}
    ensures !crashed ==> NoneInProgress(coin.sends, active)
    ensures !crashed && HasBurn(coin.shares) && coin.tainted == {} && TotalBet(old(coin.sends)) > 0 ==>
              Served(old(coin.sends), old(world.chain), active, coin.sends, coin.known, coin.shares,
                     world.mishaps == old(world.mishaps))
    ensures world.mishaps == old(world.mishaps) ==>
              && !crashed && world.read.Some? && ServedOn(old(coin.sends), coin.sends, active, world.read.value)
              && (!HasBurn(coin.shares) ==> ServedByBet(old(coin.sends), active, coin.sends, world.read.value))
              && (Holds(old(world.bought), old(world.sent), old(world.chain), |coin.sends|, 1) ==> world.read.value > 0)
    ensures world.deaths == old(world.deaths) + (if crashed then 1 else 0)
  {
    var balance;
    balance, crashed := ReadBalance(coin, world);
    Recount(coin, world);
    LooseOverTime(RecipientsOf(coin.sends, active), coin.sends, old(world.chain), world.chain);
    NotCleared(coin.sends, active);
    if crashed || balance.None? { return; }
    ghost var c, mishaps := world.chain, world.mishaps;
    HeldIsRead(old(world.bought), world.bought, world.sent, old(world.chain), c, |coin.sends|);
    crashed := ServeHeld(coin, world, active, balance.value);
    if !crashed && HasBurn(coin.shares) && coin.tainted == {} && TotalBet(old(coin.sends)) > 0 {
      ServedEarlier(old(coin.sends), old(world.chain), c, active, coin.sends, coin.known, coin.shares,
                    world.mishaps == mishaps, world.mishaps == old(world.mishaps));
    }
  }

  /** Each of these deliveries is cleared; with nothing on the keeper each waits as before. */
  ghost predicate ServedOn(before: seq<SendRecord>, after: seq<SendRecord>, active: seq<nat>, balance: int)
    requires ValidIds(before, active) && ValidIds(after, active)
  {
    forall k | 0 <= k < |active| ::
      if balance > 0 then Cleared(after[active[k]]) else after[active[k]] == before[active[k]]
  }

  lemma HeldIsRead(bought: nat, more: nat, sent: seq<Tx>, c: Chain, d: Chain, records: nat)
    requires bought <= more && Extends(c, d)
    ensures Holds(bought, sent, c, records, 1) ==> 1 <= KeeperBalance(more, sent, d, records)
  {
  }

  /** The same, on the balance just read. */
  method ServeHeld(coin: Coin, world: World, active: seq<nat>, balance: nat) returns (crashed: bool)
    requires Kept(coin, world) && Increasing(active) && AllWaiting(coin.sends, active)
    requires balance == Max(0, KeeperBalance(world.bought, world.sent, world.chain, |coin.sends|))
    modifies coin`sends, coin`tainted, world
    ensures Kept(coin, world) && Extends(old(world.chain), world.chain) && old(world.bought) <= world.bought
            && old(world.mishaps) <= world.mishaps && world.read == old(world.read)
    ensures SameRecipients(old(coin.sends), coin.sends)
    ensures forall i: nat | i < |coin.sends| && i !in active :: coin.sends[i] == old(coin.sends)[i]
    ensures old(coin.tainted) <= coin.tainted
    ensures old(coin.tainted) == {}
            && NoneLoose(RecipientsOf(old(coin.sends), active), old(coin.sends), old(world.chain)) ==>
                 coin.tainted == {}
    ensures !crashed ==> NoneInProgress(coin.sends, active)
    ensures !crashed && HasBurn(coin.shares) && coin.tainted == {} && TotalBet(old(coin.sends)) > 0 ==>
              Served(old(coin.sends), old(world.chain), active, coin.sends, coin.known, coin.shares,
                     world.mishaps == old(world.mishaps))
    ensures world.mishaps == old(world.mishaps) ==>
              && !crashed && ServedOn(old(coin.sends), coin.sends, active, balance)
              && (!HasBurn(coin.shares) ==> ServedByBet(old(coin.sends), active, coin.sends, balance))
    ensures world.deaths == old(world.deaths) + (if crashed then 1 else 0)
  {
    hide SendsOk, BurnsOk, WalletsOk;
    crashed := false;
    if balance <= 0 {
      NothingToServe(coin, world, active);
      return;
    }
    ghost var r := Round(coin.sends, active, balance, coin.known, coin.shares);
    if HasBurn(coin.shares) && coin.tainted == {} && TotalBet(coin.sends) > 0 {
      Unscaled(coin, world, r);
    }
    crashed := ServeFrom(coin, world, active, balance);
  }

  lemma ServedEarlier(before: seq<SendRecord>, c: Chain, d: Chain, active: seq<nat>, after: seq<SendRecord>, known: nat,
                      shares: seq<Share>, calmer: bool, calm: bool)
    requires ValidIds(before, active) && ValidIds(after, active) && Extends(c, d) && (calm ==> calmer)
    requires Served(before, d, active, after, known, shares, calmer)
    ensures Served(before, c, active, after, known, shares, calm)
  {
    LooseWallets(RecipientsOf(before, active), before, c, d);
  }

  /** Nothing is cleared while it waits. */
  lemma NotCleared(sends: seq<SendRecord>, active: seq<nat>)
    requires AllWaiting(sends, active)
    ensures forall w | w in RecipientsOf(sends, active) :: !AllCleared(sends, active, w)
  {
    RecipientsAre(sends, active);
    forall w | w in RecipientsOf(sends, active) ensures !AllCleared(sends, active, w) {
      var k :| 0 <= k < |active| && sends[active[k]].recipient == w;
      assert !Cleared(sends[active[k]]);
    }
  }

  lemma LooseOverTime(ws: seq<Wallet>, sends: seq<SendRecord>, c: Chain, d: Chain)
    requires Extends(c, d)
    ensures NoneLoose(ws, sends, c) ==> NoneLoose(ws, sends, d)
  {
    LooseWallets(ws, sends, c, d);
  }

  lemma LooseWallets(ws: seq<Wallet>, sends: seq<SendRecord>, c: Chain, d: Chain)
    requires Extends(c, d)
    ensures forall w | w in ws && Loose(sends, d, w) :: Loose(sends, c, w)
  {
    forall w | w in ws && Loose(sends, d, w) ensures Loose(sends, c, w) {
      var i :| 0 <= i < |sends| && sends[i].recipient == w && LooseEnd(sends[i], d);
      LooseEarlier(sends[i], c, d);
    }
  }

  lemma LooseEarlier(r: SendRecord, c: Chain, d: Chain)
    requires Extends(c, d)
    ensures LooseEnd(r, d) ==> LooseEnd(r, c)
  {
    if Named(r).Some? {
      DeadStaysDead(c, d, Named(r).value);
    }
  }

  lemma NothingToServe(coin: Coin, world: World, active: seq<nat>)
    requires Kept(coin, world) && ValidIds(coin.sends, active)
    requires KeeperBalance(world.bought, world.sent, world.chain, |coin.sends|) <= 0
    ensures HasBurn(coin.shares) && coin.tainted == {} ==>
              MadeOrLoose(RecipientsOf(coin.sends, active), coin.sends, world.chain, coin.sends, coin.known,
                          coin.shares)
  {
    if HasBurn(coin.shares) && coin.tainted == {} {
      forall w | w in RecipientsOf(coin.sends, active) && !Loose(coin.sends, world.chain, w)
        ensures Made(coin.sends, coin.known, coin.shares, w)
      {
        NothingHeldNothingOwed(coin.sends, active, world.chain, world.sent, coin.burns, coin.burnedRaw, coin.known,
                               world.bought, coin.shares, w);
      }
    }
  }

  /** With no wallet tainted, a round in which none is overserved is not scaled down,
      and one in which nothing is uncounted overserves none. */
  lemma Unscaled(coin: Coin, world: World, r: Round)
    requires Kept(coin, world) && HasBurn(coin.shares) && coin.tainted == {} && TotalBet(coin.sends) > 0
    requires r.sends == coin.sends && r.known == coin.known && r.shares == coin.shares
    requires Increasing(r.active) && ValidIds(r.sends, r.active)
    requires 0 < r.balance == KeeperBalance(world.bought, world.sent, world.chain, |coin.sends|)
    ensures OverservedBy(r, world.chain) == {} ==> Sum(RoundDeficits(r)) <= r.balance
    ensures NoneLoose(RecipientsOf(r.sends, r.active), coin.sends, world.chain) ==> OverservedBy(r, world.chain) == {}
  {
    var c := world.chain;
    if OverservedBy(r, c) == {} {
      forall w | w in RecipientsOf(r.sends, r.active) ensures !Overserved(r, c, w) {
        assert w !in OverservedBy(r, c);
      }
      ShortOnesOverserved(r, c);
      NeverScaledDown(r, c, world.sent, coin.burns, coin.burnedRaw, world.bought);
    }
    if NoneLoose(RecipientsOf(r.sends, r.active), coin.sends, c) {
      NeverScaledDown(r, c, world.sent, coin.burns, coin.burnedRaw, world.bought);
      forall w | w in RecipientsOf(r.sends, r.active) ensures !Overserved(r, c, w) {
        NoneOverserved(r, c, w);
      }
    }
  }

  /** A record of the wallet was closed because its token account is gone. */
  ghost predicate Mismatched(sends: seq<SendRecord>, w: Wallet) {
    exists i :: 0 <= i < |sends| && sends[i].recipient == w && sends[i].status == AtaMismatch
  }

  /** A delivery outside these that nobody counts. */
  ghost predicate LooseOutside(chosen: seq<nat>, sends: seq<SendRecord>, c: Chain, w: Wallet) {
    exists i: nat :: i < |sends| && i !in chosen && sends[i].recipient == w && LooseEnd(sends[i], c)
  }

  /** Every one of these deliveries that is the wallet's had arrived already. */
  ghost predicate AllArrived(before: seq<SendRecord>, after: seq<SendRecord>, chosen: seq<nat>, w: Wallet)
    requires ValidIds(before, chosen) && ValidIds(after, chosen)
  {
    forall k | 0 <= k < |chosen| && before[chosen[k]].recipient == w :: HasArrived(before[chosen[k]], after[chosen[k]])
  }

  /** How a last round leaves a wallet it found waiting. It has exactly what it is owed;
      or all its waiting deliveries turned out to have arrived, so nothing more was sent;
      or its account is gone, or it has an uncounted delivery that was not in line. */
  ghost predicate LeftRight(before: seq<SendRecord>, c: Chain, chosen: seq<nat>, after: seq<SendRecord>, known: nat,
                            shares: seq<Share>, w: Wallet)
    requires ValidIds(before, chosen) && ValidIds(after, chosen)
  {
    || Made(after, known, shares, w) || AllArrived(before, after, chosen, w)
    || Mismatched(after, w) || LooseOutside(chosen, before, c, w)
  }

  /** So it leaves every wallet whose deliveries in line are all cleared, and every wallet
      if nothing went wrong. */
  ghost predicate Finished(before: seq<SendRecord>, c: Chain, chosen: seq<nat>, after: seq<SendRecord>, known: nat,
                           shares: seq<Share>, calm: bool)
    requires ValidIds(before, chosen) && ValidIds(after, chosen)
  {
    forall k | 0 <= k < |chosen| && (calm || AllCleared(after, chosen, before[chosen[k]].recipient)) ::
      LeftRight(before, c, chosen, after, known, shares, before[chosen[k]].recipient)
  }

  function Active(sends: seq<SendRecord>, chosen: seq<nat>, allowed: set<nat>): seq<nat> {
    Keep(chosen, (i: nat) => i < |sends| && i in allowed && sends[i].status == Pending)
  }

  /** Whom the rules let through is in line with nothing of theirs in flight. */
  lemma ActiveIs(start: seq<SendRecord>, before: seq<SendRecord>, now: seq<SendRecord>, chosen: seq<nat>,
                 allowed: set<nat>, unsure: set<Wallet>, last: bool)
    requires Increasing(chosen) && Resolving(start, before, chosen, |chosen|, unsure)
    requires var ws := RecipientsOf(before, chosen); Ruling(before, now, chosen, ws, |ws|, allowed, unsure, last)
    ensures Increasing(Active(now, chosen, allowed)) && AllWaiting(now, Active(now, chosen, allowed))
    ensures forall i: nat | i < |now| && i in chosen && i in allowed && now[i].status == Pending ::
              i in Active(now, chosen, allowed)
  {
    var f := (i: nat) => i < |now| && i in allowed && now[i].status == Pending;
    var active := Active(now, chosen, allowed);
    KeepIs(chosen, f);
    forall k | 0 <= k < |active| ensures active[k] < |now| && now[active[k]].status == Pending && Free(now[active[k]]) {
      var m :| 0 <= m < |chosen| && chosen[m] == active[k];
      AllowedIsFree(start, before, now, chosen, allowed, unsure, last, m);
    }
    forall i: nat | i < |now| && i in chosen && i in allowed && now[i].status == Pending ensures i in active {
      var m :| 0 <= m < |chosen| && chosen[m] == i;
    }
  }

  /** Every chosen delivery is ruled on by its wallet. */
  lemma WalletRuledOn(before: seq<SendRecord>, now: seq<SendRecord>, chosen: seq<nat>, allowed: set<nat>,
                      unsure: set<Wallet>, last: bool, m: nat)
    requires m < |chosen| && ValidIds(before, chosen)
    requires var ws := RecipientsOf(before, chosen); Ruling(before, now, chosen, ws, |ws|, allowed, unsure, last)
    ensures |now| == |before| && RuledOn(before, now, chosen, before[chosen[m]].recipient, allowed, unsure, last)
  {
    hide RuledOn, RestUntouched;
    var ws := RecipientsOf(before, chosen);
    RecipientsAre(before, chosen);
    var j :| 0 <= j < |ws| && ws[j] == before[chosen[m]].recipient;
    assert RuledOn(before, now, chosen, ws[j], allowed, unsure, last);
  }

  lemma AllowedIsFree(start: seq<SendRecord>, before: seq<SendRecord>, now: seq<SendRecord>, chosen: seq<nat>,
                      allowed: set<nat>, unsure: set<Wallet>, last: bool, m: nat)
    requires m < |chosen| && Resolving(start, before, chosen, |chosen|, unsure)
    requires var ws := RecipientsOf(before, chosen); Ruling(before, now, chosen, ws, |ws|, allowed, unsure, last)
    ensures chosen[m] in allowed ==> now[chosen[m]] == before[chosen[m]] && Resolved(now[chosen[m]], {})
  {
    hide Ruling, HasArrived, Stuck, RecipientsOf, IdsOf;
    WalletRuledOn(before, now, chosen, allowed, unsure, last, m);
    var w := before[chosen[m]].recipient;
    IdsAre(before, chosen, w);
    var ids := IdsOf(before, chosen, w);
    var k :| 0 <= k < |ids| && ids[k] == chosen[m];
  }

  /** What the last round's rules make of a waiting delivery: it waits on with its fate
      unknown, it is closed as a mismatch, it goes ahead, or it had arrived. */
  lemma LetThrough(start: seq<SendRecord>, before: seq<SendRecord>, now: seq<SendRecord>, chosen: seq<nat>,
                   allowed: set<nat>, unsure: set<Wallet>, m: nat)
    requires m < |chosen| && Increasing(chosen) && Resolving(start, before, chosen, |chosen|, unsure)
             && SameRecipients(start, before)
    requires var ws := RecipientsOf(before, chosen); Ruling(before, now, chosen, ws, |ws|, allowed, unsure, true)
    ensures var id := chosen[m]; var w := start[id].recipient;
            if w in unsure then now[id] == before[id] && id !in allowed
            else now[id].status == AtaMismatch
                 || (id in allowed && now[id].status == Pending && id in Active(now, chosen, allowed))
                 || (id in allowed && HasArrived(start[id], now[id]))
  {
    hide Ruling, Stuck, RecipientsOf, IdsOf;
    WalletRuledOn(before, now, chosen, allowed, unsure, true, m);
    var w := before[chosen[m]].recipient;
    assert SameOwner(start[chosen[m]], before[chosen[m]]);
    IdsAre(before, chosen, w);
    var ids := IdsOf(before, chosen, w);
    var k :| 0 <= k < |ids| && ids[k] == chosen[m];
    ActiveIs(start, before, now, chosen, allowed, unsure, true);
  }

  /** A wallet of unknown fate has a delivery that waits on: not all of its are cleared. */
  lemma UnsureWaits(start: seq<SendRecord>, before: seq<SendRecord>, now: seq<SendRecord>, chosen: seq<nat>,
                    allowed: set<nat>, unsure: set<Wallet>, after: seq<SendRecord>, w: Wallet)
    requires Increasing(chosen) && Resolving(start, before, chosen, |chosen|, unsure) && SameRecipients(start, before)
    requires var ws := RecipientsOf(before, chosen); Ruling(before, now, chosen, ws, |ws|, allowed, unsure, true)
    requires |after| == |now| && forall i: nat | i < |after| && i !in Active(now, chosen, allowed) :: after[i] == now[i]
    ensures w in unsure ==> ValidIds(after, chosen) && !AllCleared(after, chosen, w)
  {
    if w in unsure {
      var k :| 0 <= k < |chosen| && IsStuck(before[chosen[k]], w);
      assert SameOwner(start[chosen[k]], before[chosen[k]]);
      LetThrough(start, before, now, chosen, allowed, unsure, k);
      ActiveAllowed(now, chosen, allowed);
      assert IsStuck(after[chosen[k]], w) && !Cleared(after[chosen[k]]);
    }
  }

  /** Whatever is uncounted waits in this round, so its signature is looked up first. */
  ghost predicate LooseOnlyIn(chosen: seq<nat>, sends: seq<SendRecord>, c: Chain) {
    forall i: nat | i < |sends| && LooseEnd(sends[i], c) :: i in chosen
  }

  lemma ActiveNotLoose(start: seq<SendRecord>, c: Chain, before: seq<SendRecord>, now: seq<SendRecord>, d: Chain,
                       chosen: seq<nat>, allowed: set<nat>, unsure: set<Wallet>, last: bool)
    requires Increasing(chosen) && Resolving(start, before, chosen, |chosen|, unsure) && Extends(c, d)
    requires var ws := RecipientsOf(before, chosen); Ruling(before, now, chosen, ws, |ws|, allowed, unsure, last)
    ensures AllWaiting(now, Active(now, chosen, allowed))
    ensures forall w | w in RecipientsOf(now, Active(now, chosen, allowed)) && Loose(now, d, w) ::
              LooseOutside(chosen, start, c, w)
  {
    var active := Active(now, chosen, allowed);
    ActiveIs(start, before, now, chosen, allowed, unsure, last);
    RecipientsAre(now, active);
    forall w | w in RecipientsOf(now, active) && Loose(now, d, w) ensures LooseOutside(chosen, start, c, w) {
      var k :| 0 <= k < |active| && now[active[k]].recipient == w;
      KeepIs(chosen, (i: nat) => i < |now| && i in allowed && now[i].status == Pending);
      assert active[k] in chosen;
      ItsChosenRecordsAreFree(start, c, before, now, d, chosen, allowed, unsure, last, active[k]);
      var i :| 0 <= i < |now| && now[i].recipient == w && LooseEnd(now[i], d);
      assert i !in chosen && LooseEnd(start[i], c) && start[i].recipient == w;
    }
  }

  lemma ItsChosenRecordsAreFree(start: seq<SendRecord>, c: Chain, before: seq<SendRecord>, now: seq<SendRecord>,
                                d: Chain, chosen: seq<nat>, allowed: set<nat>, unsure: set<Wallet>, last: bool, id: nat)
    requires Resolving(start, before, chosen, |chosen|, unsure) && Extends(c, d)
    requires var ws := RecipientsOf(before, chosen); Ruling(before, now, chosen, ws, |ws|, allowed, unsure, last)
    requires id in chosen && id in allowed
    ensures id < |now|
    ensures forall i: nat | i < |now| && now[i].recipient == now[id].recipient && LooseEnd(now[i], d) ::
              i !in chosen && now[i] == start[i] && LooseEnd(start[i], c)
  {
    var m :| 0 <= m < |chosen| && chosen[m] == id;
    AllowedIsFree(start, before, now, chosen, allowed, unsure, last, m);
    forall i: nat | i < |now| && now[i].recipient == now[id].recipient && LooseEnd(now[i], d)
      ensures i !in chosen && now[i] == start[i] && LooseEnd(start[i], c)
    {
      if i in chosen {
        var j :| 0 <= j < |chosen| && chosen[j] == i;
        Siblings(before, now, chosen, allowed, unsure, last, m, j);
        AllowedIsFree(start, before, now, chosen, allowed, unsure, last, j);
      } else {
        assert now[i] == before[i] == start[i];
        LooseEarlier(start[i], c, d);
      }
    }
  }

  /** The rules treat a wallet's records of a round alike. */
  lemma Siblings(before: seq<SendRecord>, now: seq<SendRecord>, chosen: seq<nat>, allowed: set<nat>,
                 unsure: set<Wallet>, last: bool, m: nat, j: nat)
    requires m < |chosen| && j < |chosen| && ValidIds(before, chosen)
    requires var ws := RecipientsOf(before, chosen); Ruling(before, now, chosen, ws, |ws|, allowed, unsure, last)
    requires now[chosen[j]].recipient == before[chosen[m]].recipient && chosen[m] in allowed
    ensures chosen[j] in allowed
  {
    hide Ruling, RecipientsOf, IdsOf, AtaVerdictOf;
    var w := before[chosen[j]].recipient;
    WalletRuledOn(before, now, chosen, allowed, unsure, last, j);
    var ids := IdsOf(before, chosen, w);
    IdsAre(before, chosen, w);
    var k :| 0 <= k < |ids| && ids[k] == chosen[j];
    assert now[chosen[j]].recipient == w;
    var n :| 0 <= n < |ids| && ids[n] == chosen[m];
  }

  /** The signatures were looked up, then the account rules applied. */
  ghost predicate Prepared(start: seq<SendRecord>, resolved: seq<SendRecord>, ruled: seq<SendRecord>, chosen: seq<nat>,
                           allowed: set<nat>, unsure: set<Wallet>, last: bool)
  {
    && Increasing(chosen) && Resolving(start, resolved, chosen, |chosen|, unsure)
    && SameRecipients(start, resolved) && SameRecipients(start, ruled)
    && var ws := RecipientsOf(resolved, chosen); Ruling(resolved, ruled, chosen, ws, |ws|, allowed, unsure, last)
  }

  method Resolve(coin: Coin, world: World, chosen: seq<nat>) returns (unsure: set<Wallet>, ready: bool, crashed: bool)
    requires Kept(coin, world) && Increasing(chosen) && ValidIds(coin.sends, chosen)
    requires forall k | 0 <= k < |chosen| :: coin.sends[chosen[k]].status == Pending
    modifies coin`sends, world
    ensures Kept(coin, world) && Extends(old(world.chain), world.chain) && old(world.bought) <= world.bought
            && old(world.mishaps) <= world.mishaps
    ensures SameRecipients(old(coin.sends), coin.sends) && (ready ==> !crashed)
    ensures forall i: nat | i < |coin.sends| && i !in chosen :: coin.sends[i] == old(coin.sends)[i]
    ensures ready ==> Resolving(old(coin.sends), coin.sends, chosen, |chosen|, unsure)
    ensures ready ==> Unlanded(old(coin.sends), coin.sends, chosen, |chosen|, world.chain)
    ensures world.sent == old(world.sent)
    ensures !ready && !crashed ==> coin.sends == old(coin.sends)
    ensures world.mishaps == old(world.mishaps) ==> ready && unsure == {}
    ensures world.deaths == old(world.deaths) + (if crashed then 1 else 0)
  {
    crashed := Pass(coin, world);
    if crashed { return {}, false, true; }
    var readable := world.Ask();
    if !readable { return {}, false, false; }
    ghost var c := world.chain;
    unsure, crashed := ResolvePending(coin, world, chosen);
    KeptOverTime(coin, world, old(coin.sends), c, coin.known);
    ready := !crashed;
  }

  /** The mint, then the stuck signatures, then the account rules. `ready` is whether the
      deliveries may go ahead. */
  method Prepare(coin: Coin, world: World, chosen: seq<nat>, last: bool)
    returns (ready: bool, active: seq<nat>, crashed: bool, ghost resolved: seq<SendRecord>, ghost allowed: set<nat>,
             ghost unsure: set<Wallet>)
    requires Kept(coin, world) && Increasing(chosen) && ValidIds(coin.sends, chosen)
    requires forall k | 0 <= k < |chosen| :: coin.sends[chosen[k]].status == Pending
    modifies coin`sends, world
    ensures Kept(coin, world) && Extends(old(world.chain), world.chain) && old(world.bought) <= world.bought
            && old(world.mishaps) <= world.mishaps
    ensures SameRecipients(old(coin.sends), coin.sends) && (ready ==> !crashed)
    ensures forall i: nat | i < |coin.sends| && i !in chosen :: coin.sends[i] == old(coin.sends)[i]
    ensures ready ==> Prepared(old(coin.sends), resolved, coin.sends, chosen, allowed, unsure, last)
                      && active == Active(coin.sends, chosen, allowed)
                      && Unlanded(old(coin.sends), coin.sends, chosen, |chosen|, world.chain)
    ensures world.sent == old(world.sent)
    ensures !ready && !crashed ==> coin.sends == old(coin.sends)
    ensures world.mishaps == old(world.mishaps) ==> ready && unsure == {}
    ensures world.deaths == old(world.deaths) + (if crashed then 1 else 0)
  {
    active, resolved, allowed, unsure := [], [], {}, {};
    var doubtful;
    doubtful, ready, crashed := Resolve(coin, world, chosen);
    if !ready { return; }
    ghost var c := world.chain;
    resolved, unsure := coin.sends, doubtful;
    var permitted;
    permitted, crashed := AtaRules(coin, world, chosen, doubtful, last);
    KeptOverTime(coin, world, resolved, c, coin.known);
    if crashed { return false, [], true, resolved, {}, unsure; }
    active, allowed := Active(coin.sends, chosen, permitted), permitted;
    RuledStatus(old(coin.sends), resolved, coin.sends, chosen, allowed, unsure, last);
    UnlandedLater(old(coin.sends), resolved, coin.sends, chosen, c, world.chain);
  }

  lemma PreparedActive(start: seq<SendRecord>, c: Chain, resolved: seq<SendRecord>, ruled: seq<SendRecord>, d: Chain,
                       chosen: seq<nat>, allowed: set<nat>, unsure: set<Wallet>, last: bool)
    requires Prepared(start, resolved, ruled, chosen, allowed, unsure, last) && Extends(c, d)
    ensures var active := Active(ruled, chosen, allowed);
            && Increasing(active) && AllWaiting(ruled, active) && (forall i: nat | i in active :: i in chosen)
            && (LooseOnlyIn(chosen, start, c) ==> NoneLoose(RecipientsOf(ruled, active), ruled, d))
            && (forall w | w in RecipientsOf(ruled, active) && Loose(ruled, d, w) :: LooseOutside(chosen, start, c, w))
    ensures TotalBet(start) == TotalBet(ruled)
  {
    ActiveIs(start, resolved, ruled, chosen, allowed, unsure, last);
    ActiveAmong(ruled, chosen, allowed);
    TotalBetSame(start, ruled);
    ActiveNotLoose(start, c, resolved, ruled, d, chosen, allowed, unsure, last);
  }

  /** The account rules may hold this wallet's deliveries up, or rule them out. */
  ghost predicate MayRuleOut(sends: seq<SendRecord>, chosen: seq<nat>, w: Wallet, last: bool, verdict: AtaVerdict)
    requires ValidIds(sends, chosen)
  {
    exists k :: 0 <= k < |chosen| && sends[chosen[k]].recipient == w && RulesOut(sends[chosen[k]], last, verdict)
  }

  /** This is the verdict on a wallet with this record once its account is gone. */
  predicate RulesOut(sample: SendRecord, last: bool, verdict: AtaVerdict) {
    sample.hadAtaAtStart == Some(true) && verdict == AtaVerdictFor(sample.betLamports, true, false, last)
  }

  /** What a visit makes of a delivery if nothing goes wrong: it had arrived, or is cleared,
      or is ruled out or held up by the account rules; with nothing on the keeper it waits. */
  ghost predicate MovedOn(before: seq<SendRecord>, after: seq<SendRecord>, chosen: seq<nat>, k: nat, last: bool,
                          empty: bool)
    requires k < |chosen| && ValidIds(before, chosen) && ValidIds(after, chosen)
  {
    var r, now := before[chosen[k]], after[chosen[k]];
    || HasArrived(r, now) || Cleared(now)
    || (now.status == AtaMismatch && MayRuleOut(before, chosen, r.recipient, last, Block))
    || (now.status == Pending && (empty || MayRuleOut(before, chosen, r.recipient, last, Defer)))
  }

  ghost predicate AllMoved(before: seq<SendRecord>, after: seq<SendRecord>, chosen: seq<nat>, last: bool, empty: bool)
    requires ValidIds(before, chosen) && ValidIds(after, chosen)
  {
    forall k | 0 <= k < |chosen| :: MovedOn(before, after, chosen, k, last, empty)
  }

  /** Why the rules left a delivery as they did. */
  lemma RuledWhy(start: seq<SendRecord>, resolved: seq<SendRecord>, ruled: seq<SendRecord>, chosen: seq<nat>,
                 allowed: set<nat>, last: bool, k: nat)
    requires Prepared(start, resolved, ruled, chosen, allowed, {}, last) && k < |chosen| && ValidIds(start, chosen)
    ensures var id, w := chosen[k], start[chosen[k]].recipient;
            || (ruled[id] == resolved[id].(status := AtaMismatch) && MayRuleOut(start, chosen, w, last, Block))
            || (ruled[id] == resolved[id] && id in allowed)
            || (ruled[id] == resolved[id] && id !in allowed && MayRuleOut(start, chosen, w, last, Defer))
  {
    hide RulesOut, AtaVerdictOf, MayRuleOut, RuledOn, Resolving, Increasing, Ruling;
    var w := resolved[chosen[k]].recipient;
    assert SameOwner(start[chosen[k]], resolved[chosen[k]]);
    WalletRuledOn(resolved, ruled, chosen, allowed, {}, last, k);
    RuledHow(resolved, ruled, chosen, allowed, last, k);
    SameRuling(start, resolved, chosen, w, last, Block);
    SameRuling(start, resolved, chosen, w, last, Defer);
  }

  lemma RuledHow(resolved: seq<SendRecord>, ruled: seq<SendRecord>, chosen: seq<nat>, allowed: set<nat>, last: bool,
                 k: nat)
    requires |ruled| == |resolved| && ValidIds(resolved, chosen) && k < |chosen|
    requires RuledOn(resolved, ruled, chosen, resolved[chosen[k]].recipient, allowed, {}, last)
    ensures var id, w := chosen[k], resolved[chosen[k]].recipient;
            || (ruled[id] == resolved[id].(status := AtaMismatch) && MayRuleOut(resolved, chosen, w, last, Block))
            || (ruled[id] == resolved[id] && id in allowed)
            || (ruled[id] == resolved[id] && id !in allowed && MayRuleOut(resolved, chosen, w, last, Defer))
  {
    hide RulesOut, AtaVerdictOf, IdsOf;
    var w := resolved[chosen[k]].recipient;
    IdsAre(resolved, chosen, w);
    var ids := IdsOf(resolved, chosen, w);
    var m :| 0 <= m < |ids| && ids[m] == chosen[k];
    var verdict :| MayRule(resolved, ids, w, {}, last, verdict) && Ruled(resolved, ruled, ids, allowed, verdict);
    var n :| 0 <= n < |chosen| && chosen[n] == ids[0];
    NotAllowed(resolved[ids[0]], last, verdict);
  }

  lemma NotAllowed(sample: SendRecord, last: bool, verdict: AtaVerdict)
    requires AtaVerdictOf(sample, last, verdict)
    ensures verdict == Allow || RulesOut(sample, last, verdict)
  {
  }

  lemma SameRuling(a: seq<SendRecord>, b: seq<SendRecord>, chosen: seq<nat>, w: Wallet, last: bool,
                   verdict: AtaVerdict)
    requires SameRecipients(a, b) && ValidIds(a, chosen)
    ensures ValidIds(b, chosen) && (MayRuleOut(b, chosen, w, last, verdict) ==> MayRuleOut(a, chosen, w, last, verdict))
  {
    if MayRuleOut(b, chosen, w, last, verdict) {
      var k :| 0 <= k < |chosen| && b[chosen[k]].recipient == w && RulesOut(b[chosen[k]], last, verdict);
      assert SameOwner(a[chosen[k]], b[chosen[k]]);
    }
  }

  lemma VisitMoves(start: seq<SendRecord>, resolved: seq<SendRecord>, ruled: seq<SendRecord>, chosen: seq<nat>,
                   allowed: set<nat>, last: bool, after: seq<SendRecord>, balance: nat)
    requires Prepared(start, resolved, ruled, chosen, allowed, {}, last) && ValidIds(start, chosen)
             && |after| == |ruled|
    requires forall i: nat | i < |after| && i !in Active(ruled, chosen, allowed) :: after[i] == ruled[i]
    requires ValidIds(ruled, Active(ruled, chosen, allowed))
    requires ServedOn(ruled, after, Active(ruled, chosen, allowed), balance)
    ensures ValidIds(after, chosen) && AllMoved(start, after, chosen, last, balance == 0)
  {
    var active := Active(ruled, chosen, allowed);
    ActiveIs(start, resolved, ruled, chosen, allowed, {}, last);
    ActiveAmong(ruled, chosen, allowed);
    ActiveAllowed(ruled, chosen, allowed);
    var empty := balance == 0;
    forall k | 0 <= k < |chosen| ensures MovedOn(start, after, chosen, k, last, empty) {
      RuledWhy(start, resolved, ruled, chosen, allowed, last, k);
      assert Resolved(resolved[chosen[k]], {});
      if chosen[k] in active {
        var m :| 0 <= m < |active| && active[m] == chosen[k];
      }
    }
  }

  /** What the wallets of a coin nobody burns have after a visit on this balance: whoever
      was sent something has its bet's share of the balance and of what was delivered
      before, if nobody was ahead. */
  ghost predicate SharedByBet(before: seq<SendRecord>, after: seq<SendRecord>, chosen: seq<nat>, balance: int)
    requires |before| == |after| && ValidIds(before, chosen)
  {
    var looked := Looked(before, after);
    TotalBet(looked) > 0 && NoneAhead(looked, balance) ==>
      forall k | 0 <= k < |chosen| && Cleared(after[chosen[k]]) && !HasArrived(before[chosen[k]], after[chosen[k]]) ::
        GotItsShare(before, after, chosen, balance, before[chosen[k]].recipient)
  }

  ghost predicate GotItsShare(before: seq<SendRecord>, after: seq<SendRecord>, chosen: seq<nat>, balance: int,
                              w: Wallet)
    requires |before| == |after| && ValidIds(before, chosen)
  {
    var looked := Looked(before, after);
    IsBetShare(looked, w, Pot(looked, balance), DeliveredTo(looked, w, false) + SentNow(before, after, chosen, w))
  }

  /** What was let through had not arrived. */
  lemma ActiveNotArrived(start: seq<SendRecord>, ruled: seq<SendRecord>, chosen: seq<nat>, k: nat, d: Chain,
                         after: seq<SendRecord>, e: Chain, sent: seq<Tx>)
    requires ValidIds(start, chosen) && ValidIds(ruled, chosen) && |after| == |ruled| && k < |chosen|
    requires Unlanded(start, ruled, chosen, |chosen|, d) && Extends(d, e) && AllRecordsOk(after, e, sent)
    requires ruled[chosen[k]].status == Pending && Free(ruled[chosen[k]])
    ensures !HasArrived(start[chosen[k]], after[chosen[k]])
  {
    if start[chosen[k]].pending.Some? {
      assert RecordOk(after[chosen[k]], chosen[k], e, sent);
      DeadStaysDead(d, e, start[chosen[k]].pending.value);
    }
  }

  lemma VisitCounts(start: seq<SendRecord>, resolved: seq<SendRecord>, ruled: seq<SendRecord>, d: Chain,
                    chosen: seq<nat>, allowed: set<nat>, last: bool, after: seq<SendRecord>, e: Chain, sent: seq<Tx>)
    requires Prepared(start, resolved, ruled, chosen, allowed, {}, last) && ValidIds(start, chosen)
    requires SameRecipients(ruled, after) && Unlanded(start, ruled, chosen, |chosen|, d) && Extends(d, e)
    requires forall i: nat | i < |ruled| && i !in chosen :: ruled[i] == start[i]
    requires forall i: nat | i < |after| && i !in Active(ruled, chosen, allowed) :: after[i] == ruled[i]
    requires AllRecordsOk(after, e, sent) && forall k | 0 <= k < |chosen| :: start[chosen[k]].status == Pending
    ensures CountSame(ruled, Looked(start, after))
    ensures ValidIds(after, chosen) && ArrivedApart(start, after, chosen, Active(ruled, chosen, allowed))
  {
    hide Active, Ruling, Unlanded, AllRecordsOk;
    VisitApart(start, resolved, ruled, d, chosen, allowed, last, after, e, sent);
    RuledStatus(start, resolved, ruled, chosen, allowed, {}, last);
    ActiveAmong(ruled, chosen, allowed);
    var looked := Looked(start, after);
    forall i | 0 <= i < |ruled|
      ensures SameOwner(ruled[i], looked[i]) && Counted(ruled[i], false) == Counted(looked[i], false)
    {
      assert SameOwner(start[i], ruled[i]) && SameOwner(ruled[i], after[i]);
      if i in chosen {
        var k :| 0 <= k < |chosen| && chosen[k] == i;
        assert Resolved(resolved[chosen[k]], {}) && start[i].status == Pending;
      }
    }
  }

  lemma VisitApart(start: seq<SendRecord>, resolved: seq<SendRecord>, ruled: seq<SendRecord>, d: Chain,
                   chosen: seq<nat>, allowed: set<nat>, last: bool, after: seq<SendRecord>, e: Chain, sent: seq<Tx>)
    requires Prepared(start, resolved, ruled, chosen, allowed, {}, last) && ValidIds(start, chosen)
    requires |ruled| == |after| && Unlanded(start, ruled, chosen, |chosen|, d) && Extends(d, e)
    requires forall i: nat | i < |after| && i !in Active(ruled, chosen, allowed) :: after[i] == ruled[i]
    requires AllRecordsOk(after, e, sent)
    ensures ValidIds(after, chosen) && ArrivedApart(start, after, chosen, Active(ruled, chosen, allowed))
  {
    hide Active, Ruling;
    var active := Active(ruled, chosen, allowed);
    ActiveIs(start, resolved, ruled, chosen, allowed, {}, last);
    RuledStatus(start, resolved, ruled, chosen, allowed, {}, last);
    forall k | 0 <= k < |chosen|
      ensures if chosen[k] in active then !HasArrived(start[chosen[k]], after[chosen[k]])
              else HasArrived(start[chosen[k]], after[chosen[k]]) || !Cleared(after[chosen[k]])
    {
      if chosen[k] in active {
        var m :| 0 <= m < |active| && active[m] == chosen[k];
        ActiveNotArrived(start, ruled, chosen, k, d, after, e, sent);
      }
      assert Resolved(resolved[chosen[k]], {});
    }
  }

  lemma {:induction false} SentNowIs(start: seq<SendRecord>, ruled: seq<SendRecord>, chosen: seq<nat>,
                                     allowed: set<nat>, after: seq<SendRecord>, w: Wallet)
    requires SameRecipients(start, ruled) && |after| == |ruled| && ValidIds(start, chosen)
    requires forall k | 0 <= k < |chosen| ::
               if chosen[k] in allowed && ruled[chosen[k]].status == Pending then
                 !HasArrived(start[chosen[k]], after[chosen[k]])
               else HasArrived(start[chosen[k]], after[chosen[k]]) || !Cleared(after[chosen[k]])
    ensures ValidIds(ruled, Active(ruled, chosen, allowed))
    ensures ValidIds(after, IdsOf(ruled, Active(ruled, chosen, allowed), w))
    ensures SentNow(start, after, chosen, w) == SentOver(after, IdsOf(ruled, Active(ruled, chosen, allowed), w))
  {
    if chosen != [] {
      var n := |chosen| - 1;
      SentNowIs(start, ruled, chosen[..n], allowed, after, w);
      assert SameOwner(start[chosen[n]], ruled[chosen[n]]);
      var before := Active(ruled, chosen[..n], allowed);
      assert Active(ruled, chosen, allowed)
             == if chosen[n] in allowed && ruled[chosen[n]].status == Pending then before + [chosen[n]] else before;
      IdsMore(ruled, before, chosen[n], w);
      SentMore(after, IdsOf(ruled, before, w), chosen[n]);
    }
  }

  lemma IdsMore(sends: seq<SendRecord>, ids: seq<nat>, id: nat, w: Wallet)
    requires ValidIds(sends, ids) && id < |sends|
    ensures ValidIds(sends, ids + [id])
    ensures IdsOf(sends, ids + [id], w) == if sends[id].recipient == w then IdsOf(sends, ids, w) + [id]
            else IdsOf(sends, ids, w)
  {
    assert (ids + [id])[..|ids|] == ids;
  }

  lemma SentMore(sends: seq<SendRecord>, ids: seq<nat>, id: nat)
    requires ValidIds(sends, ids) && id < |sends|
    ensures ValidIds(sends, ids + [id]) && SentOver(sends, ids + [id]) == SentOver(sends, ids)
            + Counted(sends[id], true)
  {
    assert (ids + [id])[..|ids|] == ids;
  }

  lemma VisitByBet(start: seq<SendRecord>, resolved: seq<SendRecord>, ruled: seq<SendRecord>, d: Chain,
                   chosen: seq<nat>,
                   allowed: set<nat>, last: bool, after: seq<SendRecord>, e: Chain, sent: seq<Tx>, balance: nat)
    requires Prepared(start, resolved, ruled, chosen, allowed, {}, last) && ValidIds(start, chosen)
    requires SameRecipients(ruled, after) && Unlanded(start, ruled, chosen, |chosen|, d) && Extends(d, e)
    requires forall i: nat | i < |ruled| && i !in chosen :: ruled[i] == start[i]
    requires forall i: nat | i < |after| && i !in Active(ruled, chosen, allowed) :: after[i] == ruled[i]
    requires AllRecordsOk(after, e, sent) && forall k | 0 <= k < |chosen| :: start[chosen[k]].status == Pending
    requires ValidIds(ruled, Active(ruled, chosen, allowed))
    requires ServedOn(ruled, after, Active(ruled, chosen, allowed), balance)
    requires ServedByBet(ruled, Active(ruled, chosen, allowed), after, balance)
    ensures SharedByBet(start, after, chosen, balance)
  {
    hide *;
    PreparedIds(start, resolved, ruled, chosen, allowed, last);
    VisitCounts(start, resolved, ruled, d, chosen, allowed, last, after, e, sent);
    WalletsByBet(start, ruled, chosen, allowed, after, balance);
  }

  lemma WalletsByBet(start: seq<SendRecord>, ruled: seq<SendRecord>, chosen: seq<nat>, allowed: set<nat>,
                     after: seq<SendRecord>, balance: nat)
    requires SameRecipients(start, ruled) && SameRecipients(ruled, after) && ValidIds(start, chosen)
    requires AllWaiting(ruled, Active(ruled, chosen, allowed)) && CountSame(ruled, Looked(start, after))
    requires ServedOn(ruled, after, Active(ruled, chosen, allowed), balance)
    requires ServedByBet(ruled, Active(ruled, chosen, allowed), after, balance)
    requires ArrivedApart(start, after, chosen, Active(ruled, chosen, allowed))
    ensures SharedByBet(start, after, chosen, balance)
  {
    hide IsBetShare, Pot, NoneAhead, Active, SentNow, DeliveredTo, TotalBet, ServedByBet, ServedOn, CountSame,
      AllWaiting,
      HasArrived, GotItsShare;
    var looked := Looked(start, after);
    CountSameBets(ruled, looked);
    if TotalBet(looked) > 0 && NoneAhead(looked, balance) {
      SameShares(ruled, looked, balance);
      forall k | 0 <= k < |chosen| && Cleared(after[chosen[k]]) && !HasArrived(start[chosen[k]], after[chosen[k]])
        ensures GotItsShare(start, after, chosen, balance, start[chosen[k]].recipient)
      {
        WalletGot(start, ruled, chosen, allowed, after, balance, k);
      }
    }
  }

  lemma WalletGot(start: seq<SendRecord>, ruled: seq<SendRecord>, chosen: seq<nat>, allowed: set<nat>,
                  after: seq<SendRecord>, balance: nat, k: nat)
    requires SameRecipients(start, ruled) && SameRecipients(ruled, after) && ValidIds(start, chosen) && k < |chosen|
    requires AllWaiting(ruled, Active(ruled, chosen, allowed)) && chosen[k] in Active(ruled, chosen, allowed)
    requires ServedOn(ruled, after, Active(ruled, chosen, allowed), balance) && Cleared(after[chosen[k]])
    requires ServedByBet(ruled, Active(ruled, chosen, allowed), after, balance)
    requires TotalBet(ruled) > 0 && NoneAhead(ruled, balance) && CountSame(ruled, Looked(start, after))
    requires ArrivedApart(start, after, chosen, Active(ruled, chosen, allowed))
    ensures GotItsShare(start, after, chosen, balance, start[chosen[k]].recipient)
  {
    hide ServedByBet, ServedOn, ArrivedApart, AllWaiting, IsBetShare, Pot, NoneAhead, TotalBet, Active, SentNow,
      SentOver,
      IdsOf, RecipientsOf, DeliveredTo, Looked, CountSame, GotItsShare, AllCleared, Cleared;
    var w := start[chosen[k]].recipient;
    WalletByBet(start, ruled, chosen, allowed, after, balance, k);
    GotMeans(start, ruled, after, chosen, balance, w);
  }

  lemma GotMeans(start: seq<SendRecord>, ruled: seq<SendRecord>, after: seq<SendRecord>, chosen: seq<nat>, balance: int,
                 w: Wallet)
    requires |start| == |after| && ValidIds(start, chosen) && CountSame(ruled, Looked(start, after))
             && TotalBet(ruled) > 0
    requires IsBetShare(ruled, w, Pot(ruled, balance), DeliveredTo(ruled, w, false) + SentNow(start, after, chosen, w))
    ensures GotItsShare(start, after, chosen, balance, w)
  {
    hide IsBetShare, Pot, DeliveredTo, SentNow, Looked, CountSame, TotalBet;
    SameCounts(ruled, Looked(start, after), w);
    SameShares(ruled, Looked(start, after), balance);
  }

  lemma CountSameBets(a: seq<SendRecord>, b: seq<SendRecord>)
    requires CountSame(a, b)
    ensures TotalBet(a) == TotalBet(b)
  {
    TotalBetSame(a, b);
  }

  lemma PreparedIds(start: seq<SendRecord>, resolved: seq<SendRecord>, ruled: seq<SendRecord>, chosen: seq<nat>,
                    allowed: set<nat>, last: bool)
    requires Prepared(start, resolved, ruled, chosen, allowed, {}, last)
    ensures SameRecipients(start, ruled) && AllWaiting(ruled, Active(ruled, chosen, allowed))
  {
    ActiveIs(start, resolved, ruled, chosen, allowed, {}, last);
  }

  lemma ActiveExactly(now: seq<SendRecord>, chosen: seq<nat>, allowed: set<nat>)
    ensures forall i: nat :: i in Active(now, chosen, allowed) <==>
              i in chosen && i < |now| && i in allowed && now[i].status == Pending
  {
    KeepHas(chosen, (i: nat) => i < |now| && i in allowed && now[i].status == Pending);
  }

  /** Among what went ahead nothing had arrived, among the rest whatever is cleared had. */
  ghost predicate ArrivedApart(start: seq<SendRecord>, after: seq<SendRecord>, chosen: seq<nat>, active: seq<nat>)
    requires ValidIds(start, chosen) && ValidIds(after, chosen)
  {
    forall k | 0 <= k < |chosen| ::
      if chosen[k] in active then !HasArrived(start[chosen[k]], after[chosen[k]])
      else HasArrived(start[chosen[k]], after[chosen[k]]) || !Cleared(after[chosen[k]])
  }

  lemma SentToActive(start: seq<SendRecord>, ruled: seq<SendRecord>, chosen: seq<nat>, allowed: set<nat>,
                     after: seq<SendRecord>, w: Wallet)
    requires SameRecipients(start, ruled) && |after| == |ruled| && ValidIds(start, chosen)
    requires ArrivedApart(start, after, chosen, Active(ruled, chosen, allowed))
    ensures var active := Active(ruled, chosen, allowed);
            && ValidIds(ruled, active) && ValidIds(after, IdsOf(ruled, active, w))
            && SentNow(start, after, chosen, w) == SentOver(after, IdsOf(ruled, active, w))
  {
    ActiveExactly(ruled, chosen, allowed);
    SentNowIs(start, ruled, chosen, allowed, after, w);
  }

  lemma ClearedIsServed(ruled: seq<SendRecord>, active: seq<nat>, after: seq<SendRecord>, balance: nat, id: nat)
    requires AllWaiting(ruled, active) && SameRecipients(ruled, after) && ServedOn(ruled, after, active, balance)
    requires id in active && Cleared(after[id])
    ensures balance > 0 && ruled[id].recipient in RecipientsOf(ruled, active)
    ensures AllCleared(after, active, ruled[id].recipient)
  {
    var m :| 0 <= m < |active| && active[m] == id;
    assert balance > 0;
    RecipientsAre(ruled, active);
  }

  lemma ServedMeans(before: seq<SendRecord>, active: seq<nat>, after: seq<SendRecord>, balance: int, w: Wallet,
                    sent: nat)
    requires ValidIds(before, active) && ValidIds(after, active) && ServedByBet(before, active, after, balance)
    requires TotalBet(before) > 0 && balance > 0 && NoneAhead(before, balance)
    requires w in RecipientsOf(before, active) && AllCleared(after, active, w)
    requires ValidIds(after, IdsOf(before, active, w)) && sent == SentOver(after, IdsOf(before, active, w))
    ensures IsBetShare(before, w, Pot(before, balance), DeliveredTo(before, w, false) + sent)
  {
    hide IsBetShare, Pot, NoneAhead, TotalBet, RecipientsOf, AllCleared, IdsOf, SentOver, DeliveredTo;
    assert HasBetShare(before, active, after, balance, w);
  }

  lemma ItsOwner(start: seq<SendRecord>, ruled: seq<SendRecord>, chosen: seq<nat>, k: nat)
    requires SameRecipients(start, ruled) && ValidIds(start, chosen) && k < |chosen|
    ensures start[chosen[k]].recipient == ruled[chosen[k]].recipient
  {
    assert SameOwner(start[chosen[k]], ruled[chosen[k]]);
  }

  lemma WalletByBet(start: seq<SendRecord>, ruled: seq<SendRecord>, chosen: seq<nat>, allowed: set<nat>,
                    after: seq<SendRecord>, balance: nat, k: nat)
    requires SameRecipients(start, ruled) && SameRecipients(ruled, after) && ValidIds(start, chosen) && k < |chosen|
    requires AllWaiting(ruled, Active(ruled, chosen, allowed)) && chosen[k] in Active(ruled, chosen, allowed)
    requires ServedOn(ruled, after, Active(ruled, chosen, allowed), balance) && Cleared(after[chosen[k]])
    requires ServedByBet(ruled, Active(ruled, chosen, allowed), after, balance)
    requires TotalBet(ruled) > 0 && NoneAhead(ruled, balance)
    requires ArrivedApart(start, after, chosen, Active(ruled, chosen, allowed))
    ensures var w := start[chosen[k]].recipient;
            IsBetShare(ruled, w, Pot(ruled, balance), DeliveredTo(ruled, w, false) + SentNow(start, after, chosen, w))
  {
    hide ServedByBet, ServedOn, ArrivedApart, AllWaiting, IsBetShare, Pot, NoneAhead, TotalBet, Active, SentNow,
      SentOver,
      IdsOf, RecipientsOf, DeliveredTo, Looked, CountSame, GotItsShare, AllCleared, Cleared;
    var active, w := Active(ruled, chosen, allowed), start[chosen[k]].recipient;
    ItsOwner(start, ruled, chosen, k);
    ClearedIsServed(ruled, active, after, balance, chosen[k]);
    SentToActive(start, ruled, chosen, allowed, after, w);
    ActiveValid(ruled, after, active);
    ServedMeans(ruled, active, after, balance, w, SentNow(start, after, chosen, w));
  }

  lemma ActiveValid(ruled: seq<SendRecord>, after: seq<SendRecord>, active: seq<nat>)
    requires AllWaiting(ruled, active) && SameRecipients(ruled, after)
    ensures ValidIds(ruled, active) && ValidIds(after, active)
  {
  }

  lemma HoldsLater(bought: nat, more: nat, sent: seq<Tx>, c: Chain, d: Chain, records: nat)
    requires bought <= more && Extends(c, d)
    ensures Holds(bought, sent, c, records, 1) ==> Holds(more, sent, d, records, 1)
  {
    forall e | Extends(d, e) && Holds(bought, sent, c, records, 1) ensures 1 <= KeeperBalance(more, sent, e, records) {
      ExtendsTransitive(c, d, e);
    }
  }

  /** A visit in which nothing goes wrong, on the balance read: every delivery in line is
      moved on, and where nobody burns, by the bets. */
  ghost predicate Visited(before: seq<SendRecord>, after: seq<SendRecord>, chosen: seq<nat>, last: bool,
                          shares: seq<Share>, read: Option<nat>)
    requires |before| == |after| && ValidIds(before, chosen)
  {
    && read.Some? && AllMoved(before, after, chosen, last, read.value == 0)
    && (!HasBurn(shares) ==> SharedByBet(before, after, chosen, read.value))
  }

  method VisitDeliveries(coin: Coin, world: World, chosen: seq<nat>, last: bool) returns (crashed: bool)
    requires Kept(coin, world) && Increasing(chosen) && ValidIds(coin.sends, chosen)
    requires forall k | 0 <= k < |chosen| :: coin.sends[chosen[k]].status == Pending
    modifies coin`sends, coin`known, coin`tainted, world
    ensures Kept(coin, world) && Extends(old(world.chain), world.chain) && old(world.bought) <= world.bought
            && old(world.mishaps) <= world.mishaps
    ensures SameRecipients(old(coin.sends), coin.sends) && old(coin.known) <= coin.known
    ensures forall i: nat | i < |coin.sends| && i !in chosen :: coin.sends[i] == old(coin.sends)[i]
    ensures old(coin.tainted) <= coin.tainted
    ensures old(coin.tainted) == {} && LooseOnlyIn(chosen, old(coin.sends), old(world.chain)) ==> coin.tainted == {}
    ensures !crashed ==> NoneInProgress(coin.sends, chosen)
    ensures !crashed && last && HasBurn(coin.shares) && coin.tainted == {} && TotalBet(old(coin.sends)) > 0 ==>
              Finished(old(coin.sends), old(world.chain), chosen, coin.sends, coin.known, coin.shares,
                       world.mishaps == old(world.mishaps))
    ensures world.mishaps == old(world.mishaps) ==>
              && !crashed && AllVisited(old(coin.sends), coin.sends, chosen)
              && Visited(old(coin.sends), coin.sends, chosen, last, coin.shares, world.read)
              && (Holds(old(world.bought), old(world.sent), old(world.chain), |coin.sends|, 1) ==>
                  world.read != Some(0))
    ensures world.deaths == old(world.deaths) + (if crashed then 1 else 0)
  {
    hide Kept, LooseOnlyIn, AllVisited, Finished, Prepared, Unlanded, AllMoved, SharedByBet, ServedByBet, ServedOn,
      Holds,
      AllRecordsOk;
    ghost var start, c := coin.sends, world.chain;
    ghost var resolved, allowed, unsure;
    var ready, active;
    ready, active, crashed, resolved, allowed, unsure := Prepare(coin, world, chosen, last);
    if !ready {
      NothingCleared(start, c, chosen, coin.known, coin.shares);
      return;
    }
    ghost var ruled, d, calmer := coin.sends, world.chain, world.mishaps;
    PreparedActive(start, c, resolved, ruled, d, chosen, allowed, unsure, last);
    HoldsLater(old(world.bought), world.bought, world.sent, c, d, |coin.sends|);
    crashed := Serve(coin, world, active);
    VisitEnds(start, c, resolved, ruled, d, chosen, allowed, unsure, last, active, coin.sends, coin.known, coin.shares,
              crashed,
              world.mishaps == calmer, world.mishaps == old(world.mishaps),
              HasBurn(coin.shares) && coin.tainted == {} && TotalBet(start) > 0,
              if world.read.Some? then world.read.value else 0);
    if world.mishaps == old(world.mishaps) && !HasBurn(coin.shares) {
      KeptInOrder(coin, world);
      VisitByBet(start, resolved, ruled, d, chosen, allowed, last, coin.sends, world.chain, world.sent,
                 world.read.value);
    }
  }

  lemma VisitEnds(start: seq<SendRecord>, c: Chain, resolved: seq<SendRecord>, ruled: seq<SendRecord>, d: Chain,
                  chosen: seq<nat>,
                  allowed: set<nat>, unsure: set<Wallet>, last: bool, active: seq<nat>, after: seq<SendRecord>,
                    known: nat,
                  shares: seq<Share>, crashed: bool, calmer: bool, calm: bool, exact: bool, balance: nat)
    requires Prepared(start, resolved, ruled, chosen, allowed, unsure, last) && SameRecipients(ruled, after)
             && Extends(c, d)
    requires active == Active(ruled, chosen, allowed) && ValidIds(ruled, active) && ValidIds(after, active)
             && ValidIds(start, chosen)
    requires forall i: nat | i in active :: i in chosen
    requires forall i: nat | i < |ruled| && i !in chosen :: ruled[i] == start[i]
    requires forall i: nat | i < |after| && i !in active :: after[i] == ruled[i]
    requires !crashed ==> NoneInProgress(after, active)
    requires calmer ==> !crashed && ServedOn(ruled, after, active, balance)
    requires calm ==> calmer && unsure == {}
    requires exact && !crashed ==> Served(ruled, d, active, after, known, shares, calmer)
    ensures SameRecipients(start, after) && ValidIds(after, chosen)
    ensures forall i: nat | i < |after| && i !in chosen :: after[i] == start[i]
    ensures !crashed ==> NoneInProgress(after, chosen)
    ensures calm ==> !crashed && AllVisited(start, after, chosen) && AllMoved(start, after, chosen, last, balance == 0)
    ensures exact && !crashed && last ==> Finished(start, c, chosen, after, known, shares, calm)
  {
    Unvisited(start, ruled, chosen, active, after);
    VisitAtRest(start, resolved, ruled, chosen, allowed, unsure, last, active, after, crashed);
    VisitedAll(start, resolved, ruled, chosen, allowed, unsure, last, active, after, calm, balance);
    if calm {
      VisitMoves(start, resolved, ruled, chosen, allowed, last, after, balance);
    }
    if exact && !crashed && last {
      VisitFinished(start, c, resolved, ruled, d, chosen, allowed, unsure, after, known, shares, calm);
    }
  }

  lemma VisitAtRest(start: seq<SendRecord>, resolved: seq<SendRecord>, ruled: seq<SendRecord>, chosen: seq<nat>,
                    allowed: set<nat>,
                    unsure: set<Wallet>, last: bool, active: seq<nat>, after: seq<SendRecord>, crashed: bool)
    requires Prepared(start, resolved, ruled, chosen, allowed, unsure, last) && |after| == |ruled|
             && ValidIds(after, active)
    requires forall i: nat | i < |after| && i !in active :: after[i] == ruled[i]
    requires !crashed ==> NoneInProgress(after, active)
    ensures ValidIds(after, chosen) && (!crashed ==> NoneInProgress(after, chosen))
  {
    RuledStatus(start, resolved, ruled, chosen, allowed, unsure, last);
    forall k | 0 <= k < |chosen| && !crashed ensures after[chosen[k]].status != InProgress {
      if chosen[k] in active {
        var m :| 0 <= m < |active| && active[m] == chosen[k];
      }
    }
  }

  lemma NothingCleared(sends: seq<SendRecord>, c: Chain, chosen: seq<nat>, known: nat, shares: seq<Share>)
    requires ValidIds(sends, chosen) && forall k | 0 <= k < |chosen| :: sends[chosen[k]].status == Pending
    ensures Finished(sends, c, chosen, sends, known, shares, false)
  {
    forall k | 0 <= k < |chosen| ensures !AllCleared(sends, chosen, sends[chosen[k]].recipient) {
      assert !Cleared(sends[chosen[k]]);
    }
  }

  /** What the look-ups and the rules leave in line is completed, closed or waiting. */
  lemma RuledStatus(start: seq<SendRecord>, resolved: seq<SendRecord>, ruled: seq<SendRecord>, chosen: seq<nat>,
                    allowed: set<nat>, unsure: set<Wallet>, last: bool)
    requires Prepared(start, resolved, ruled, chosen, allowed, unsure, last)
    ensures forall k | 0 <= k < |chosen| ::
              ruled[chosen[k]] == resolved[chosen[k]].(status := AtaMismatch) || ruled[chosen[k]] == resolved[chosen[k]]
    ensures ValidIds(ruled, chosen) && NoneInProgress(ruled, chosen)
  {
    forall k | 0 <= k < |chosen| ensures ruled[chosen[k]] == resolved[chosen[k]].(status := AtaMismatch)
      || ruled[chosen[k]] == resolved[chosen[k]] {
      var w := resolved[chosen[k]].recipient;
      IdsAre(resolved, chosen, w);
      WalletRuledOn(resolved, ruled, chosen, allowed, unsure, last, k);
      var m :| 0 <= m < |IdsOf(resolved, chosen, w)| && IdsOf(resolved, chosen, w)[m] == chosen[k];
    }
  }

  lemma Unvisited(start: seq<SendRecord>, ruled: seq<SendRecord>, chosen: seq<nat>, active: seq<nat>,
                  after: seq<SendRecord>)
    requires SameRecipients(start, ruled) && SameRecipients(ruled, after)
    requires forall i: nat | i in active :: i in chosen
    requires forall i: nat | i < |ruled| && i !in chosen :: ruled[i] == start[i]
    requires forall i: nat | i < |after| && i !in active :: after[i] == ruled[i]
    ensures SameRecipients(start, after)
    ensures forall i: nat | i < |after| && i !in chosen :: after[i] == start[i]
  {
  }

  lemma ActiveAmong(now: seq<SendRecord>, chosen: seq<nat>, allowed: set<nat>)
    requires Increasing(chosen)
    ensures forall i: nat | i in Active(now, chosen, allowed) :: i in chosen && i < |now| && now[i].status == Pending
  {
    KeepIs(chosen, (i: nat) => i < |now| && i in allowed && now[i].status == Pending);
  }

  lemma VisitFinished(start: seq<SendRecord>, c: Chain, resolved: seq<SendRecord>, ruled: seq<SendRecord>, d: Chain,
                      chosen: seq<nat>,
                      allowed: set<nat>, unsure: set<Wallet>, after: seq<SendRecord>, known: nat, shares: seq<Share>,
                        calm: bool)
    requires Prepared(start, resolved, ruled, chosen, allowed, unsure, true) && SameRecipients(ruled, after)
             && Extends(c, d)
    requires forall i: nat | i < |after| && i !in Active(ruled, chosen, allowed) :: after[i] == ruled[i]
    requires ValidIds(ruled, Active(ruled, chosen, allowed)) && ValidIds(after, Active(ruled, chosen, allowed))
    requires Served(ruled, d, Active(ruled, chosen, allowed), after, known, shares, calm)
    requires calm ==> unsure == {}
    ensures ValidIds(start, chosen) && ValidIds(after, chosen) && Finished(start, c, chosen, after, known, shares, calm)
  {
    PreparedActive(start, c, resolved, ruled, d, chosen, allowed, unsure, true);
    forall k | 0 <= k < |chosen| && (calm || AllCleared(after, chosen, start[chosen[k]].recipient))
      ensures LeftRight(start, c, chosen, after, known, shares, start[chosen[k]].recipient)
    {
      VisitLeaves(start, c, resolved, ruled, d, chosen, allowed, unsure, after, known, shares, calm,
                  start[chosen[k]].recipient);
    }
  }

  lemma VisitLeaves(start: seq<SendRecord>, c: Chain, resolved: seq<SendRecord>, ruled: seq<SendRecord>, d: Chain,
                    chosen: seq<nat>,
                    allowed: set<nat>, unsure: set<Wallet>, after: seq<SendRecord>, known: nat, shares: seq<Share>,
                      calm: bool, w: Wallet)
    requires Prepared(start, resolved, ruled, chosen, allowed, unsure, true) && SameRecipients(ruled, after)
    requires forall i: nat | i < |after| && i !in Active(ruled, chosen, allowed) :: after[i] == ruled[i]
    requires ValidIds(ruled, Active(ruled, chosen, allowed)) && ValidIds(after, Active(ruled, chosen, allowed))
    requires Served(ruled, d, Active(ruled, chosen, allowed), after, known, shares, calm)
    requires forall v | v in RecipientsOf(ruled, Active(ruled, chosen, allowed)) && Loose(ruled, d, v) ::
               LooseOutside(chosen, start, c, v)
    requires calm ==> unsure == {}
    requires calm || AllCleared(after, chosen, w)
    ensures LeftRight(start, c, chosen, after, known, shares, w)
  {
    var active := Active(ruled, chosen, allowed);
    ActiveAmong(ruled, chosen, allowed);
    UnsureWaits(start, resolved, ruled, chosen, allowed, unsure, after, w);
    ClearedAmong(after, chosen, active, w);
    if w !in unsure && w !in RecipientsOf(ruled, active) && !AllArrived(start, after, chosen, w) {
      var k :| 0 <= k < |chosen| && start[chosen[k]].recipient == w && !HasArrived(start[chosen[k]], after[chosen[k]]);
      NotInLine(start, resolved, ruled, chosen, allowed, unsure, after, k);
    }
  }

  /** A delivery that did not go ahead and had not arrived is closed as a mismatch. */
  lemma NotInLine(start: seq<SendRecord>, resolved: seq<SendRecord>, ruled: seq<SendRecord>, chosen: seq<nat>,
                  allowed: set<nat>, unsure: set<Wallet>, after: seq<SendRecord>, k: nat)
    requires Prepared(start, resolved, ruled, chosen, allowed, unsure, true) && SameRecipients(ruled, after)
             && k < |chosen|
    requires forall i: nat | i < |after| && i !in Active(ruled, chosen, allowed) :: after[i] == ruled[i]
    requires ValidIds(ruled, Active(ruled, chosen, allowed))
    ensures var w := start[chosen[k]].recipient;
            w in unsure || w in RecipientsOf(ruled, Active(ruled, chosen, allowed))
            || HasArrived(start[chosen[k]], after[chosen[k]]) || Mismatched(after, w)
  {
    var active, w := Active(ruled, chosen, allowed), start[chosen[k]].recipient;
    LetThrough(start, resolved, ruled, chosen, allowed, unsure, k);
    assert SameOwner(start[chosen[k]], ruled[chosen[k]]) && SameOwner(ruled[chosen[k]], after[chosen[k]]);
    RecipientsAre(ruled, active);
    if chosen[k] in active {
      var m :| 0 <= m < |active| && active[m] == chosen[k];
      assert ruled[active[m]].recipient in RecipientsOf(ruled, active);
    } else {
      assert after[chosen[k]] == ruled[chosen[k]];
    }
  }

  lemma ActiveAllowed(now: seq<SendRecord>, chosen: seq<nat>, allowed: set<nat>)
    ensures forall i: nat | i in Active(now, chosen, allowed) :: i in allowed
  {
    KeepHas(chosen, (i: nat) => i < |now| && i in allowed && now[i].status == Pending);
  }

  lemma ClearedAmong(sends: seq<SendRecord>, chosen: seq<nat>, active: seq<nat>, w: Wallet)
    requires ValidIds(sends, chosen) && ValidIds(sends, active) && forall i: nat | i in active :: i in chosen
    ensures AllCleared(sends, chosen, w) ==> AllCleared(sends, active, w)
  {
    forall k | 0 <= k < |active| && sends[active[k]].recipient == w
      && AllCleared(sends, chosen, w) ensures Cleared(sends[active[k]]) {
      assert active[k] in chosen;
    }
  }

  /** No delivery is with a batch. */
  ghost predicate Resting(sends: seq<SendRecord>) {
    forall i | 0 <= i < |sends| :: sends[i].status != InProgress
  }

  /** Nothing was ever signed that is not on record as delivered, and nothing failed. */
  ghost predicate Tidy(sends: seq<SendRecord>) {
    forall i | 0 <= i < |sends| :: TidyRecord(sends[i])
  }

  predicate TidyRecord(r: SendRecord) {
    && r.pending.None? && (r.signature.Some? ==> r.status == Completed)
    && r.status != InProgress && r.status != Abandoned
  }

  /** One round's visit: the burn first, then the deliveries. Afterwards every wallet whose
      deliveries in line are all cleared is left right, and if nothing went wrong every
      wallet is that had one in line. Whether or not anybody burns, a visit in which nothing
      goes wrong moves on every delivery in line; where nobody burns, whoever is sent
      something has its bet's share. */
  method SendRound(coin: Coin, world: World, round: nat, last: bool, sweep: bool) returns (crashed: bool)
    requires Kept(coin, world)
    modifies coin`sends, coin`known, coin`burns, coin`burnedRaw, coin`burnBlocked, coin`tainted, world
    ensures Kept(coin, world) && Extends(old(world.chain), world.chain) && old(world.bought) <= world.bought
            && old(world.mishaps) <= world.mishaps
    ensures SameRecipients(old(coin.sends), coin.sends) && old(coin.known) <= coin.known
            && old(coin.burnedRaw) <= coin.burnedRaw
    ensures old(coin.tainted) <= coin.tainted
    ensures var chosen := Chosen(old(coin.sends), round, sweep);
            && ValidIds(coin.sends, chosen) && ValidIds(old(coin.sends), chosen)
            && (forall i: nat | i < |coin.sends| && i !in chosen :: coin.sends[i] == old(coin.sends)[i])
            && (old(coin.tainted) == {} && LooseOnlyIn(chosen, old(coin.sends), old(world.chain)) ==>
                coin.tainted == {})
            && (!crashed && last && HasBurn(coin.shares) && coin.tainted == {} && TotalBet(old(coin.sends)) > 0 ==>
                  Finished(old(coin.sends), old(world.chain), chosen, coin.sends, coin.known, coin.shares,
                           world.mishaps == old(world.mishaps)))
            && (world.mishaps == old(world.mishaps) && chosen != [] ==>
                  && Visited(old(coin.sends), coin.sends, chosen, last, coin.shares, world.read)
                  && (!HasBurn(coin.shares)
                      && Holds(old(world.bought), old(world.sent), old(world.chain), |coin.sends|, 1) ==>
                        world.read != Some(0)))
            && (chosen == [] && !HasBurn(coin.shares) ==> world.read == old(world.read))
    ensures !crashed && Resting(old(coin.sends)) ==> Resting(coin.sends)
    ensures world.mishaps == old(world.mishaps) ==> !crashed && coin.burnBlocked == old(coin.burnBlocked)
    ensures world.mishaps == old(world.mishaps) && Tidy(old(coin.sends)) ==> Tidy(coin.sends)
    ensures world.deaths == old(world.deaths) + (if crashed then 1 else 0)
  {
    hide Kept, LeftRight, Resting, Tidy, LooseOnlyIn, AllVisited, NoneInProgress, Extends, Chosen, AllRecordsOk,
      Visited, Holds;
    ExtendsItself(coin, world);
    var chosen := Chosen(coin.sends, round, sweep);
    ChosenIs(coin.sends, round, sweep);
    crashed := false;
    if HasBurn(coin.shares) {
      crashed := ReadAndBurn(coin, world);
    }
    if crashed || chosen == [] { return; }
    LooseOnlyLater(chosen, coin.sends, old(world.chain), world.chain);
    ghost var c, mishaps := world.chain, world.mishaps;
    crashed := VisitDeliveries(coin, world, chosen, last);
    ExtendsTransitive(old(world.chain), c, world.chain);
    if !crashed {
      RestingAfter(old(coin.sends), coin.sends, chosen);
      if world.mishaps == old(world.mishaps) && Tidy(old(coin.sends)) {
        KeptInOrder(coin, world);
        TidyAfter(old(coin.sends), coin.sends, chosen, world.chain, world.sent);
      }
      if last && HasBurn(coin.shares) && coin.tainted == {} && TotalBet(old(coin.sends)) > 0 {
        FinishedEarlier(old(coin.sends), old(world.chain), c, chosen, coin.sends, coin.known, coin.shares,
                        world.mishaps == mishaps, world.mishaps == old(world.mishaps));
      }
    }
  }

  /** What a calm visit makes of a delivery with nothing signed. */
  predicate VisitedTo(before: SendRecord, after: SendRecord) {
    before.pending.None? ==> Cleared(after) || after == before || after == before.(status := AtaMismatch)
  }

  ghost predicate AllVisited(before: seq<SendRecord>, after: seq<SendRecord>, chosen: seq<nat>)
    requires ValidIds(before, chosen) && ValidIds(after, chosen)
  {
    forall k | 0 <= k < |chosen| :: VisitedTo(before[chosen[k]], after[chosen[k]])
  }

  lemma TidyAfter(before: seq<SendRecord>, after: seq<SendRecord>, chosen: seq<nat>, c: Chain, sent: seq<Tx>)
    requires |before| == |after| && ValidIds(before, chosen) && ValidIds(after, chosen)
             && AllVisited(before, after, chosen)
    requires forall i: nat | i < |after| && i !in chosen :: after[i] == before[i]
    requires forall k | 0 <= k < |chosen| :: before[chosen[k]].status == Pending
    requires Tidy(before) && AllRecordsOk(after, c, sent)
    ensures Tidy(after)
  {
    forall i: nat | i < |after| ensures TidyRecord(after[i]) {
      assert TidyRecord(before[i]) && RecordOk(after[i], i, c, sent);
      if i in chosen {
        var k :| 0 <= k < |chosen| && chosen[k] == i;
        assert VisitedTo(before[chosen[k]], after[chosen[k]]);
      }
    }
  }

  lemma VisitedAll(start: seq<SendRecord>, resolved: seq<SendRecord>, ruled: seq<SendRecord>, chosen: seq<nat>,
                   allowed: set<nat>, unsure: set<Wallet>, last: bool, active: seq<nat>, after: seq<SendRecord>,
                     calm: bool, balance: nat)
    requires Prepared(start, resolved, ruled, chosen, allowed, unsure, last)
    requires ValidIds(start, chosen) && ValidIds(after, chosen) && ValidIds(ruled, active) && ValidIds(after, active)
    requires |after| == |ruled| && forall i: nat | i < |after| && i !in active :: after[i] == ruled[i]
    requires calm ==> ServedOn(ruled, after, active, balance)
    ensures calm ==> AllVisited(start, after, chosen)
  {
    RuledStatus(start, resolved, ruled, chosen, allowed, unsure, last);
    forall k | 0 <= k < |chosen| && calm ensures VisitedTo(start[chosen[k]], after[chosen[k]]) {
      if chosen[k] in active {
        var m :| 0 <= m < |active| && active[m] == chosen[k];
      }
    }
  }

  lemma RestingAfter(before: seq<SendRecord>, after: seq<SendRecord>, chosen: seq<nat>)
    requires |before| == |after| && ValidIds(after, chosen) && NoneInProgress(after, chosen)
    requires forall i: nat | i < |after| && i !in chosen :: after[i] == before[i]
    ensures Resting(before) ==> Resting(after)
  {
    forall i: nat | i < |after| && Resting(before) ensures after[i].status != InProgress {
      if i in chosen {
        var k :| 0 <= k < |chosen| && chosen[k] == i;
      }
    }
  }

  lemma FinishedEarlier(before: seq<SendRecord>, c: Chain, d: Chain, chosen: seq<nat>, after: seq<SendRecord>,
                        known: nat, shares: seq<Share>, calmer: bool, calm: bool)
    requires ValidIds(before, chosen) && ValidIds(after, chosen) && Extends(c, d) && (calm ==> calmer)
    requires Finished(before, d, chosen, after, known, shares, calmer)
    ensures Finished(before, c, chosen, after, known, shares, calm)
  {
    forall k | 0 <= k < |chosen| && (calm || AllCleared(after, chosen, before[chosen[k]].recipient))
      ensures LeftRight(before, c, chosen, after, known, shares, before[chosen[k]].recipient)
    {
      var w := before[chosen[k]].recipient;
      assert LeftRight(before, d, chosen, after, known, shares, w);
      if LooseOutside(chosen, before, d, w) {
        var i: nat :| i < |before| && i !in chosen && before[i].recipient == w && LooseEnd(before[i], d);
        LooseEarlier(before[i], c, d);
      }
    }
  }

  lemma LooseOnlyLater(chosen: seq<nat>, sends: seq<SendRecord>, c: Chain, d: Chain)
    requires Extends(c, d)
    ensures LooseOnlyIn(chosen, sends, c) ==> LooseOnlyIn(chosen, sends, d)
  {
    forall i: nat | i < |sends| && LooseEnd(sends[i], d) ensures LooseEnd(sends[i], c) {
      LooseEarlier(sends[i], c, d);
    }
  }

  /** The purchases are read first: burn and deliveries are both worked out from what
      they really brought. A blocked coin skips the burn. */
  method ReadAndBurn(coin: Coin, world: World) returns (crashed: bool)
    requires Kept(coin, world)
    modifies coin`known, coin`burns, coin`burnedRaw, coin`burnBlocked, world
    ensures Kept(coin, world) && Extends(old(world.chain), world.chain) && old(world.bought) <= world.bought
            && old(world.mishaps) <= world.mishaps
    ensures old(coin.known) <= coin.known && old(coin.burnedRaw) <= coin.burnedRaw
    ensures world.mishaps == old(world.mishaps) ==> !crashed && coin.burnBlocked == old(coin.burnBlocked)
    ensures world.deaths == old(world.deaths) + (if crashed then 1 else 0)
  {
    crashed := Pass(coin, world);
    Recount(coin, world);
    if crashed || coin.burnBlocked { return; }
    var result;
    result, crashed := BurnShare(coin, world, false);
  }

  /** The fire has all it is owed. */
  ghost predicate FireServed(coin: Coin)
    reads coin
  {
    !HasOpen(coin.burns) && coin.burnedRaw == BurnOwed(coin.known, coin.shares)
  }

  /** Burns what is due. What was burned is what was due as far as the balance read
      allowed; if nothing goes wrong, that balance being the truth, and no wallet is
      tainted, it is all that is owed. */
  method BurnShare(coin: Coin, world: World, final: bool) returns (result: BurnResult, crashed: bool)
    requires Kept(coin, world)
    modifies coin`burns, coin`burnedRaw, coin`burnBlocked, world
    ensures Kept(coin, world) && Extends(old(world.chain), world.chain) && old(world.bought) <= world.bought
            && old(world.mishaps) <= world.mishaps
    ensures NoWorse(coin.sends, old(world.chain), coin.sends, world.chain) && old(coin.burnedRaw) <= coin.burnedRaw
    ensures !crashed && result == Nothing ==> FireServed(coin)
    ensures !crashed && result == Burned ==>
              !HasOpen(coin.burns)
                && LastBurnTook(coin.burns, coin.burnedRaw, BurnOwed(coin.known, coin.shares), world.read)
    ensures !crashed && result == Blocked ==> coin.burnBlocked
    ensures !crashed && final ==> result != Refused
    ensures world.mishaps == old(world.mishaps) ==> !crashed && coin.burnBlocked == old(coin.burnBlocked)
    ensures world.mishaps == old(world.mishaps) && HasBurn(coin.shares) && coin.tainted == {}
            && !old(coin.burnBlocked) ==>
              FireServed(coin) && (result == Burned || result == Nothing)
    ensures world.deaths == old(world.deaths) + (if crashed then 1 else 0)
  {
    ghost var c, sent := world.chain, world.sent;
    if HasBurn(coin.shares) && coin.tainted == {} {
      TheBurnIsThere(coin, world);
    }
    result, crashed := BurnDueFor(coin, world, |coin.sends|, final);
    SendsStayOk(coin.sends, c, world.chain, sent);
    SendsIgnoreOthers(coin.sends, world.chain, sent, world.sent);
    KeptOverTime(coin, world, coin.sends, c, coin.known);
  }

  /** While no wallet is tainted, the deliveries leave the share of the fire on the
      keeper, in every future: only a balance that is not the truth cuts a burn. */
  lemma TheBurnIsThere(coin: Coin, world: World)
    requires Kept(coin, world) && HasBurn(coin.shares) && coin.tainted == {}
    ensures Spare(world.chain, world.sent, |coin.sends|, coin.known, coin.shares)
  {
    var c, n := world.chain, |coin.sends|;
    forall d | Extends(c, d) ensures PaidToAll(world.sent, d, n) + BurnOwed(coin.known, coin.shares) <= coin.known {
      SendsStayOk(coin.sends, c, d, world.sent);
      WalletsStayOk(coin.sends, coin.sends, c, d, coin.known, coin.known, coin.shares, {});
      DeliveriesFit(coin.sends, d, world.sent, coin.known, coin.shares);
    }
  }
}
