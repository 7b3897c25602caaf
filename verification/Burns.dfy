/** Burning the share of a coin's tokens its backers asked to have destroyed
    (offchain/orchestrator/burns.ts). */
module Burns {
  import opened Solana
  import opened Shares
  import opened CoinState

  // --- The accounts of the fire -------------------------------------------------

  /** The sum of the completed burns. */
  function BurnedBy(burns: seq<BurnRecord>): nat {
    if burns == [] then 0
    else
      var b := burns[|burns| - 1];
      BurnedBy(burns[..|burns| - 1]) + if b.status == Done then b.raw else 0
  }

  predicate HasOpen(burns: seq<BurnRecord>) {
    burns != [] && burns[|burns| - 1].status == Open
  }

  function OpenTx(burns: seq<BurnRecord>): Option<Tx> {
    if HasOpen(burns) then burns[|burns| - 1].pending else None
  }

  function OpenRaw(burns: seq<BurnRecord>): nat {
    if HasOpen(burns) then burns[|burns| - 1].raw else 0
  }

  /** What every signed burn but one has destroyed or may still destroy. */
  ghost function LiveBurn(sent: seq<Tx>, c: Chain, except: Option<Tx>): nat {
    if sent == [] then 0
    else
      var t := sent[|sent| - 1];
      LiveBurn(sent[..|sent| - 1], c, except) + if t.effect.Burn? && !Dead(c, t) && Some(t) != except then t.effect.raw
        else 0
  }

  ghost predicate Unique(sent: seq<Tx>) {
    forall i | 0 <= i < |sent| :: sent[i].nonce == i
  }

  /** The invariant of the burn records: the total is the sum of the completed ones,
      only the last one may be unsettled and it holds the signature of its
      transaction, and everything else that could ever be burned is in the total. */
  ghost predicate BurnsOk(burns: seq<BurnRecord>, burnedRaw: nat, c: Chain, sent: seq<Tx>) {
    && Unique(sent)
    && burnedRaw == BurnedBy(burns)
    && (forall i | 0 <= i < |burns| - 1 :: burns[i].status != Open)
    && (OpenTx(burns).Some? ==>
          var b := burns[|burns| - 1];
          b.pending.value in sent && b.pendingLimit == Some(b.pending.value.limit)
            && b.pending.value.effect == Burn(b.raw))
    && LiveBurn(sent, c, OpenTx(burns)) <= burnedRaw
  }

  /** Nothing burned or in flight goes beyond what is owed to the fire. */
  ghost predicate WithinOwed(burns: seq<BurnRecord>, burnedRaw: nat, known: nat, shares: seq<Share>) {
    burnedRaw + OpenRaw(burns) <= BurnOwed(known, shares)
  }

  lemma {:induction false} LiveBurnShrinks(sent: seq<Tx>, c: Chain, d: Chain, except: Option<Tx>)
    requires Extends(c, d)
    ensures LiveBurn(sent, d, except) <= LiveBurn(sent, c, except)
  {
    if sent != [] {
      LiveBurnShrinks(sent[..|sent| - 1], c, d, except);
      DeadStaysDead(c, d, sent[|sent| - 1]);
    }
  }

  lemma {:induction false} LiveBurnCounts(sent: seq<Tx>, c: Chain, t: Tx)
    requires Unique(sent) && t.effect.Burn?
    ensures LiveBurn(sent, c, None) <= LiveBurn(sent, c, Some(t))
            + (if t in sent && !Dead(c, t) then t.effect.raw else 0)
  {
    if sent != [] {
      var n := |sent| - 1;
      LiveBurnCounts(sent[..n], c, t);
      if t in sent[..n] {
        assert sent[t.nonce] == t;
      }
    }
  }

  lemma {:induction false} BurnedIsLive(sent: seq<Tx>, c: Chain)
    requires ValidChain(c)
    ensures BurnedOnChain(sent, c) <= LiveBurn(sent, c, None)
  {
    if sent != [] {
      BurnedIsLive(sent[..|sent| - 1], c);
    }
  }

  /** Over any future of the chain, with nothing more signed. */
  lemma BurnsStayOk(burns: seq<BurnRecord>, burnedRaw: nat, c: Chain, d: Chain, sent: seq<Tx>)
    requires BurnsOk(burns, burnedRaw, c, sent) && Extends(c, d)
    ensures BurnsOk(burns, burnedRaw, d, sent)
  {
    LiveBurnShrinks(sent, c, d, OpenTx(burns));
  }

  /** Signing something that is not a burn changes nothing here. */
  lemma BurnsIgnoreOthers(burns: seq<BurnRecord>, burnedRaw: nat, c: Chain, sent: seq<Tx>, t: Tx)
    requires BurnsOk(burns, burnedRaw, c, sent) && !t.effect.Burn? && t.nonce == |sent|
    ensures BurnsOk(burns, burnedRaw, c, sent + [t])
  {
    assert (sent + [t])[..|sent|] == sent;
  }

  /** The promise, on chain: never more than is owed to the fire out of what is known
      to have been bought, and so never more than is owed out of what really was. */
  lemma NeverBurnsTooMuch(burns: seq<BurnRecord>, burnedRaw: nat, known: nat, bought: nat, shares: seq<Share>,
                          c: Chain, d: Chain, sent: seq<Tx>)
    requires BurnsOk(burns, burnedRaw, c, sent) && WithinOwed(burns, burnedRaw, known, shares)
    requires WellFormed(shares) && known <= bought && ValidChain(c) && Extends(c, d)
    ensures BurnedOnChain(sent, d) <= burnedRaw + OpenRaw(burns) <= BurnOwed(known, shares) <= BurnOwed(bought, shares)
  {
    BurnsStayOk(burns, burnedRaw, c, d, sent);
    BurnedIsLive(sent, d);
    if OpenTx(burns).Some? {
      LiveBurnCounts(sent, d, OpenTx(burns).value);
    }
    OwedGrows(known, bought, "", shares);
  }

  // --- Settling an open burn ------------------------------------------------------

  /** The last record replaced by one that is settled. */
  lemma SettleLast(burns: seq<BurnRecord>, burnedRaw: nat, c: Chain, sent: seq<Tx>, settled: BurnRecord)
    requires BurnsOk(burns, burnedRaw, c, sent) && HasOpen(burns) && settled.status != Open
    requires settled.raw == burns[|burns| - 1].raw
    requires settled.status == NotBurned ==> OpenTx(burns).None? || Dead(c, OpenTx(burns).value)
    requires settled.status == Done ==> OpenTx(burns).Some?
    ensures var after := burns[|burns| - 1 := settled];
            var total := if settled.status == Done then burnedRaw + settled.raw else burnedRaw;
            BurnsOk(after, total, c, sent) && !HasOpen(after) && total == BurnedBy(after)
  {
    var n := |burns| - 1;
    assert burns[n := settled][..n] == burns[..n];
    if OpenTx(burns).Some? {
      LiveBurnCounts(sent, c, OpenTx(burns).value);
    }
  }

  ghost predicate Good(coin: Coin, world: World)
    reads coin, world
  {
    world.Valid() && BurnsOk(coin.burns, coin.burnedRaw, world.chain, world.sent)
  }

  /** The fate of a burn that went out without a confirmation. `settled` is whether
      the coin may be burned this round. */
  method SettlePending(coin: Coin, world: World) returns (settled: bool, crashed: bool)
    requires Good(coin, world)
    modifies coin`burns, coin`burnedRaw, world
    ensures Good(coin, world)
    ensures world.sent == old(world.sent) && Extends(old(world.chain), world.chain) && old(world.bought) <= world.bought
            && old(world.mishaps) <= world.mishaps
    ensures settled && !crashed ==> !HasOpen(coin.burns)
    ensures world.mishaps == old(world.mishaps) ==> settled && !crashed
    ensures old(coin.burnedRaw) <= coin.burnedRaw
    ensures coin.burnedRaw + OpenRaw(coin.burns) <= old(coin.burnedRaw + OpenRaw(coin.burns))
    ensures world.deaths == old(world.deaths) + (if crashed then 1 else 0)
  {
    crashed, settled := false, true;
    for i := 0 to |coin.burns|
      invariant world.deaths == old(world.deaths)
      invariant Good(coin, world) && |coin.burns| == |old(coin.burns)|
      invariant world.sent == old(world.sent) && Extends(old(world.chain), world.chain)
                && old(world.bought) <= world.bought && old(world.mishaps) <= world.mishaps
      invariant i == |coin.burns| ==> !HasOpen(coin.burns)
      invariant settled && !crashed && old(coin.burnedRaw) <= coin.burnedRaw
      invariant coin.burnedRaw + OpenRaw(coin.burns) <= old(coin.burnedRaw + OpenRaw(coin.burns))
    {
      if coin.burns[i].status != Open { continue; }
      settled, crashed := SettleOne(coin, world, i);
      if crashed || !settled { return; }
    }
  }

  method SettleOne(coin: Coin, world: World, i: nat) returns (settled: bool, crashed: bool)
    requires Good(coin, world) && i < |coin.burns| && coin.burns[i].status == Open
    modifies coin`burns, coin`burnedRaw, world
    ensures Good(coin, world) && |coin.burns| == |old(coin.burns)|
    ensures world.sent == old(world.sent) && Extends(old(world.chain), world.chain) && old(world.bought) <= world.bought
            && old(world.mishaps) <= world.mishaps
    ensures settled && !crashed ==> !HasOpen(coin.burns)
    ensures world.mishaps == old(world.mishaps) ==> settled && !crashed
    ensures old(coin.burnedRaw) <= coin.burnedRaw
    ensures coin.burnedRaw + OpenRaw(coin.burns) <= old(coin.burnedRaw + OpenRaw(coin.burns))
    ensures world.deaths == old(world.deaths) + (if crashed then 1 else 0)
  {
    var burn := coin.burns[i];
    var failed := burn.(status := NotBurned);
    if burn.pending.None? {
      // Never signed: nothing can have gone out.
      SettleLast(coin.burns, coin.burnedRaw, world.chain, world.sent, failed);
      coin.burns := coin.burns[i := failed];
      return true, false;
    }
    var verdict;
    verdict, crashed := world.SignatureOutcome(burn.pending.value, burn.pendingLimit);
    BurnsStayOk(coin.burns, coin.burnedRaw, old(world.chain), world.chain, world.sent);
    if crashed { return false, true; }
    match verdict
    case Landed =>
      var done := burn.(status := Done, signature := burn.pending, pending := None, pendingLimit := None);
      SettleLast(coin.burns, coin.burnedRaw, world.chain, world.sent, done);
      coin.burns := coin.burns[i := done];
      coin.burnedRaw := coin.burnedRaw + burn.raw;
      settled := true;
    case Absent =>
      SettleLast(coin.burns, coin.burnedRaw, world.chain, world.sent, failed);
      coin.burns := coin.burns[i := failed];
      settled := true;
    case Failed =>
      SettleLast(coin.burns, coin.burnedRaw, world.chain, world.sent, failed);
      coin.burns := coin.burns[i := failed];
      settled := true;
    case Unknown =>
      settled := false;
  }

  // --- Burning what is due ----------------------------------------------------------

  datatype BurnResult = Burned | Nothing | Waiting | Blocked | Refused

  lemma SignBurn(burns: seq<BurnRecord>, burnedRaw: nat, c: Chain, sent: seq<Tx>, t: Tx, due: nat)
    requires BurnsOk(burns, burnedRaw, c, sent) && !HasOpen(burns)
    requires t.effect == Burn(due) && t.nonce == |sent|
    ensures var open := OpenRecord(due, t);
            BurnsOk(burns + [open], burnedRaw, c, sent + [t]) && HasOpen(burns + [open])
  {
    var open := OpenRecord(due, t);
    assert (burns + [open])[..|burns|] == burns;
    assert (sent + [t])[..|sent|] == sent;
    LiveBurnExceptNew(sent, c, t);
  }

  lemma {:induction false} LiveBurnExceptNew(sent: seq<Tx>, c: Chain, t: Tx)
    requires t !in sent
    ensures LiveBurn(sent, c, Some(t)) == LiveBurn(sent, c, None)
  {
    if sent != [] {
      assert sent[|sent| - 1] in sent;
      LiveBurnExceptNew(sent[..|sent| - 1], c, t);
    }
  }

  /** What is burned when `due` is owed and this balance was read: a balance below what
      is due is taken for what there is. */
  function CutTo(due: int, read: Option<nat>): int {
    if read.Some? && read.value < due then read.value else due
  }

  ghost predicate LastMade(burns: seq<BurnRecord>, raw: nat) {
    burns != [] && burns[|burns| - 1].status == Done && burns[|burns| - 1].raw == raw
  }

  /** The last burn is made, and took what was due before it as far as the balance read
      allowed. */
  ghost predicate LastBurnTook(burns: seq<BurnRecord>, burnedRaw: nat, owed: int, read: Option<nat>) {
    burns != [] && LastMade(burns, burns[|burns| - 1].raw)
    && var raw := burns[|burns| - 1].raw; raw == CutTo(owed - (burnedRaw - raw), read)
  }

  /** So everything owed is burned exactly if the balance read, if one was read, was not
      below what was due. */
  lemma AllIsBurnedExactly(burns: seq<BurnRecord>, burnedRaw: nat, owed: int, read: Option<nat>)
    requires LastBurnTook(burns, burnedRaw, owed, read)
    ensures var due := owed - (burnedRaw - burns[|burns| - 1].raw);
            burnedRaw == owed <==> read.None? || read.value >= due
  {
  }

  /** Whatever the deliveries signed so far still take, the share of the fire is left. */
  ghost predicate Spare(c: Chain, sent: seq<Tx>, records: nat, known: nat, shares: seq<Share>) {
    forall d | Extends(c, d) :: PaidToAll(sent, d, records) + BurnOwed(known, shares) <= known
  }

  /** The keeper holds this much, and goes on holding it while nothing more is signed. */
  ghost predicate Holds(bought: nat, sent: seq<Tx>, c: Chain, records: nat, due: int) {
    forall d | Extends(c, d) :: due <= KeeperBalance(bought, sent, d, records)
  }

  lemma SpareIsHeld(burns: seq<BurnRecord>, burnedRaw: nat, known: nat, bought: nat, shares: seq<Share>, c: Chain,
                    d: Chain, sent: seq<Tx>, records: nat)
    requires Spare(c, sent, records, known, shares) && Extends(c, d) && known <= bought
    requires BurnsOk(burns, burnedRaw, d, sent) && !HasOpen(burns) && ValidChain(d)
    ensures Holds(bought, sent, d, records, BurnOwed(known, shares) - burnedRaw)
  {
    forall e | Extends(d, e) ensures BurnOwed(known, shares) - burnedRaw <= KeeperBalance(bought, sent, e, records) {
      ExtendsTransitive(c, d, e);
      assert PaidToAll(sent, e, records) + BurnOwed(known, shares) <= known;
      BurnsStayOk(burns, burnedRaw, d, e, sent);
      BurnedIsLive(sent, e);
    }
  }

  /** Burns what the coin owes, if anything. `final` is the settlement's call, `records`
      how many deliveries the coin has. */
  method BurnDueFor(coin: Coin, world: World, records: nat, final: bool) returns (result: BurnResult, crashed: bool)
    requires Good(coin, world) && WithinOwed(coin.burns, coin.burnedRaw, coin.known, coin.shares)
    modifies coin`burns, coin`burnedRaw, coin`burnBlocked, world
    ensures Good(coin, world) && WithinOwed(coin.burns, coin.burnedRaw, coin.known, coin.shares)
    ensures Extends(old(world.chain), world.chain) && old(world.bought) <= world.bought
            && old(world.mishaps) <= world.mishaps
    ensures OnlyBurnsAdded(old(world.sent), world.sent) && old(coin.burnedRaw) <= coin.burnedRaw
    ensures !crashed && (result == Burned || result == Nothing) ==> !HasOpen(coin.burns)
    ensures !crashed && result == Nothing ==> coin.burnedRaw == BurnOwed(coin.known, coin.shares)
    ensures !crashed && result == Burned ==>
              LastBurnTook(coin.burns, coin.burnedRaw, BurnOwed(coin.known, coin.shares), world.read)
    ensures !crashed && result == Blocked ==> coin.burnBlocked
    ensures !crashed && final ==> result != Refused
    ensures old(coin.burnBlocked) ==>
              coin.burns == old(coin.burns) && coin.burnedRaw == old(coin.burnedRaw) && result == Blocked && !crashed
    ensures world.mishaps == old(world.mishaps) ==> !crashed && coin.burnBlocked == old(coin.burnBlocked)
    ensures world.mishaps == old(world.mishaps) && coin.known <= old(world.bought) && !old(coin.burnBlocked)
            && Spare(old(world.chain), old(world.sent), records, coin.known, coin.shares) ==>
              !crashed && (result == Nothing || result == Burned) && coin.burnedRaw == BurnOwed(coin.known, coin.shares)
    ensures world.deaths == old(world.deaths) + (if crashed then 1 else 0)
  {
    result, crashed := Blocked, false;
    if coin.burnBlocked { return; }
    var settled;
    settled, crashed := SettlePending(coin, world);
    result := Waiting;
    if crashed || !settled { return; }
    var due := BurnOwed(coin.known, coin.shares) - coin.burnedRaw;
    if due <= 0 { return Nothing, false; }
    if Spare(old(world.chain), old(world.sent), records, coin.known, coin.shares) && coin.known <= old(world.bought) {
      SpareIsHeld(coin.burns, coin.burnedRaw, coin.known, world.bought, coin.shares, old(world.chain), world.chain,
                  world.sent, records);
    }
    result, crashed := BurnUpTo(coin, world, records, due, final);
  }

  ghost predicate OnlyBurnsAdded(before: seq<Tx>, after: seq<Tx>) {
    before <= after && forall i | |before| <= i < |after| :: after[i].effect.Burn?
  }

  method BurnUpTo(coin: Coin, world: World, records: nat, owed: nat, final: bool)
    returns (result: BurnResult, crashed: bool)
    requires Good(coin, world) && !HasOpen(coin.burns)
    modifies coin`burns, coin`burnedRaw, coin`burnBlocked, world
    ensures Good(coin, world) && coin.burnedRaw + OpenRaw(coin.burns) <= old(coin.burnedRaw) + owed
    ensures Extends(old(world.chain), world.chain) && old(world.bought) <= world.bought
            && old(world.mishaps) <= world.mishaps
    ensures OnlyBurnsAdded(old(world.sent), world.sent) && old(coin.burnedRaw) <= coin.burnedRaw
    ensures !crashed ==> result != Nothing && (result == Burned ==> !HasOpen(coin.burns))
    ensures !crashed && result == Burned ==>
              LastBurnTook(coin.burns, coin.burnedRaw, old(coin.burnedRaw) + owed, world.read)
    ensures !crashed && result == Blocked ==> coin.burnBlocked
    ensures !crashed && final ==> result != Refused
    ensures world.mishaps == old(world.mishaps) ==> !crashed && result != Blocked
    ensures result != Blocked ==> coin.burnBlocked == old(coin.burnBlocked)
    ensures world.mishaps == old(world.mishaps) && owed > 0
            && Holds(old(world.bought), old(world.sent), old(world.chain), records, owed) ==>
              !crashed && result == Burned && coin.burnedRaw == old(coin.burnedRaw) + owed
    ensures world.deaths == old(world.deaths) + (if crashed then 1 else 0)
  {
    result := Waiting;
    var due;
    due, crashed := DueNow(coin, world, records, owed);
    if crashed || due.None? || due.value <= 0 { return; }
    crashed := Pause(coin, world);  // the budget, and the place in the send queue
    if crashed { return; }
    var answered := world.Ask();
    if !answered { return; }
    result, crashed := SignAndSend(coin, world, due.value, final);
  }

  /** What can be burned of what is owed, as far as anybody can tell. */
  method DueNow(coin: Coin, world: World, records: nat, owed: nat) returns (due: Option<int>, crashed: bool)
    requires Good(coin, world)
    modifies world
    ensures Good(coin, world) && world.sent == old(world.sent)
    ensures Extends(old(world.chain), world.chain) && old(world.bought) <= world.bought
            && old(world.mishaps) <= world.mishaps
    ensures due.Some? ==> due.value == CutTo(owed, world.read)
    ensures world.mishaps == old(world.mishaps) ==> !crashed && due.Some?
    ensures world.mishaps == old(world.mishaps)
            && Holds(old(world.bought), old(world.sent), old(world.chain), records, owed) ==>
              due == Some(owed)
    ensures world.deaths == old(world.deaths) + (if crashed then 1 else 0)
  {
    due := None;
    crashed := Pause(coin, world);  // the mint's program and decimals
    if crashed { return; }
    var answered := world.Ask();
    if !answered { return; }
    HeldOn(old(world.bought), world.bought, world.sent, old(world.chain), world.chain, records, owed);
    var balance;
    balance, crashed := ReadHeld(coin, world, records, owed);  // only a ceiling; it may be stale or unreadable
    if crashed { return; }
    due := Some(if balance.Some? && balance.value < owed then balance.value else owed);
  }

  lemma HeldOn(bought: nat, more: nat, sent: seq<Tx>, c: Chain, d: Chain, records: nat, due: int)
    requires Extends(c, d) && bought <= more
    ensures Holds(bought, sent, c, records, due) ==> Holds(more, sent, d, records, due)
  {
    if Holds(bought, sent, c, records, due) {
      forall e | Extends(d, e) ensures due <= KeeperBalance(more, sent, e, records) {
        ExtendsTransitive(c, d, e);
        assert due <= KeeperBalance(bought, sent, e, records);
      }
    }
  }

  method ReadHeld(coin: Coin, world: World, records: nat, ghost due: nat) returns (balance: Option<nat>, crashed: bool)
    requires Good(coin, world)
    modifies world
    ensures Good(coin, world) && world.sent == old(world.sent)
    ensures Extends(old(world.chain), world.chain) && old(world.bought) <= world.bought
            && old(world.mishaps) <= world.mishaps
    ensures world.read == balance
    ensures world.mishaps == old(world.mishaps) ==> !crashed && balance.Some?
    ensures world.mishaps == old(world.mishaps)
            && Holds(old(world.bought), old(world.sent), old(world.chain), records, due) ==>
              balance.value >= due
    ensures world.deaths == old(world.deaths) + (if crashed then 1 else 0)
  {
    balance, crashed := world.ReadBalance(records);
    BurnsStayOk(coin.burns, coin.burnedRaw, old(world.chain), world.chain, world.sent);
  }

  /** An await during which nothing is decided. */
  method Pause(coin: Coin, world: World) returns (crashed: bool)
    requires Good(coin, world)
    modifies world
    ensures Good(coin, world) && world.sent == old(world.sent) && world.read == old(world.read)
    ensures world.mishaps == old(world.mishaps) ==> !crashed
    ensures Extends(old(world.chain), world.chain) && old(world.bought) <= world.bought
            && old(world.mishaps) <= world.mishaps
    ensures world.deaths == old(world.deaths) + (if crashed then 1 else 0)
  {
    crashed := world.Await();
    BurnsStayOk(coin.burns, coin.burnedRaw, old(world.chain), world.chain, world.sent);
  }

  /** A burn as it stands when its transaction goes out. */
  function OpenRecord(due: nat, t: Tx): BurnRecord {
    BurnRecord(due, Open, None, Some(t), Some(t.limit))
  }

  method SignAndSend(coin: Coin, world: World, due: nat, final: bool) returns (result: BurnResult, crashed: bool)
    requires Good(coin, world) && !HasOpen(coin.burns)
    modifies coin`burns, coin`burnedRaw, coin`burnBlocked, world
    ensures Good(coin, world) && coin.burnedRaw + OpenRaw(coin.burns) <= old(coin.burnedRaw) + due
    ensures Extends(old(world.chain), world.chain) && old(world.bought) <= world.bought
            && old(world.mishaps) <= world.mishaps
    ensures OnlyBurnsAdded(old(world.sent), world.sent)
    ensures !crashed ==> result != Nothing && (result == Blocked ==> coin.burnBlocked) && (final ==> result != Refused)
    ensures !crashed && result == Burned ==> !HasOpen(coin.burns) && coin.burnedRaw == old(coin.burnedRaw) + due
    ensures !crashed && result == Burned ==> LastMade(coin.burns, due)
    ensures old(coin.burnedRaw) <= coin.burnedRaw && world.read == old(world.read)
    ensures world.mishaps == old(world.mishaps) ==> !crashed && result == Burned
    ensures result != Blocked ==> coin.burnBlocked == old(coin.burnBlocked)
    ensures |world.sent| == |old(world.sent)| + 1
    ensures crashed || result == Waiting ==> OpenTx(coin.burns) == Some(world.sent[|world.sent| - 1])
                                             && OpenRaw(coin.burns) == due && coin.burnedRaw == old(coin.burnedRaw)
    ensures world.deaths == old(world.deaths) + (if crashed then 1 else 0)
  {
    var t := OpenBurn(coin, world, due);
    label sending:
    var report;
    report, crashed := world.Send(t);
    BurnsStayOk(coin.burns, coin.burnedRaw, old@sending(world.chain), world.chain, world.sent);
    if crashed { return Waiting, true; }
    result := CloseBurn(coin, world, due, t, report, final);
  }

  method OpenBurn(coin: Coin, world: World, due: nat) returns (t: Tx)
    requires Good(coin, world) && !HasOpen(coin.burns)
    modifies coin`burns, world
    ensures Good(coin, world) && coin.burns == old(coin.burns) + [OpenRecord(due, t)]
    ensures world.sent == old(world.sent) + [t] && t.effect == Burn(due)
    ensures world.chain == old(world.chain) && world.bought == old(world.bought)
    ensures world.mishaps == old(world.mishaps) && world.read == old(world.read)
    ensures world.deaths == old(world.deaths)
  {
    t := world.Sign(Burn(due));
    // Written before sending: from here on there is always a signature to check.
    SignBurn(coin.burns, coin.burnedRaw, world.chain, old(world.sent), t, due);
    coin.burns := coin.burns + [OpenRecord(due, t)];
  }

  method CloseBurn(coin: Coin, world: World, due: nat, t: Tx, report: Report, final: bool) returns (result: BurnResult)
    requires Good(coin, world) && HasOpen(coin.burns) && coin.burns[|coin.burns| - 1] == OpenRecord(due, t)
    requires MayReport(world.chain, t, report)
    modifies coin`burns, coin`burnedRaw, coin`burnBlocked
    ensures Good(coin, world) && coin.burnedRaw + OpenRaw(coin.burns) <= old(coin.burnedRaw) + due
    ensures result != Nothing && (result == Blocked ==> coin.burnBlocked) && (final ==> result != Refused)
    ensures result == Burned <==> report == Report.Confirmed
    ensures result == Waiting <==> report == Unconfirmed
    ensures result == Waiting ==> coin.burns == old(coin.burns) && coin.burnedRaw == old(coin.burnedRaw)
    ensures result != Waiting ==> !HasOpen(coin.burns)
    ensures result == Burned ==> LastMade(coin.burns, due)
    ensures result != Blocked ==> coin.burnBlocked == old(coin.burnBlocked)
    ensures coin.burnedRaw == old(coin.burnedRaw) + if result == Burned then due else 0
  {
    var n := |coin.burns| - 1;
    match report
    case Confirmed =>
      var done := OpenRecord(due, t).(status := Done, signature := Some(t), pending := None, pendingLimit := None);
      SettleLast(coin.burns, coin.burnedRaw, world.chain, world.sent, done);
      coin.burns := coin.burns[n := done];
      coin.burnedRaw := coin.burnedRaw + due;
      result := Burned;
    case Rejected =>
      var refused := OpenRecord(due, t).(status := NotBurned, pending := None, pendingLimit := None);
      SettleLast(coin.burns, coin.burnedRaw, world.chain, world.sent, refused);
      coin.burns := coin.burns[n := refused];
      var structural := *;
      if structural || final {
        coin.burnBlocked := true;
        return Blocked;
      }
      result := Refused;
    case Unconfirmed =>
      // The record keeps its signature: the next call looks it up first.
      result := Waiting;
  }
}
