/** After the buying: what is still owed to the fire, and a delivery in the queue for
    every wallet short of its share (offchain/orchestrator/settle.ts). */
module Settlement {
  import opened Solana
  import opened Shares
  import opened SendRecords
  import opened CoinState
  import opened Deficits
  import opened DeliveryLedger
  import opened Burns
  import opened Conservation
  import opened Deliveries
  import opened Promises
  import opened SendRounds

  /** A top-up worth less than the fee of the delivery that carries it is not made. */
  const TOP_UP_MIN_LAMPORTS: nat := 10_000

  // --- Deliveries given up with a signature nobody looked up --------------------------

  predicate GivenUp(r: SendRecord) {
    r.status == Abandoned && r.pending.Some?
  }

  /** The record, once its signature has been looked up. */
  function LookedUp(r: SendRecord, verdict: Outcome): SendRecord {
    if GivenUp(r) && verdict == Landed then Arrived(r) else r
  }

  function AllLookedUp(sends: seq<SendRecord>, verdicts: seq<Outcome>): (r: seq<SendRecord>)
    requires |sends| <= |verdicts|
    ensures |r| == |sends| && forall i | 0 <= i < |r| :: r[i] == LookedUp(sends[i], verdicts[i])
  {
    seq(|sends|, i requires 0 <= i < |sends| => LookedUp(sends[i], verdicts[i]))
  }

  /** Wallets with a given-up delivery the chain could not tell about. */
  function UnsureOf(sends: seq<SendRecord>, verdicts: seq<Outcome>): set<Wallet>
    requires |sends| <= |verdicts|
  {
    set i | 0 <= i < |sends| && GivenUp(sends[i]) && verdicts[i] == Unknown :: sends[i].recipient
  }

  /** The first `i` have been looked up. */
  ghost predicate LookingUp(before: seq<SendRecord>, now: seq<SendRecord>, verdicts: seq<Outcome>, i: nat,
                            unsure: set<Wallet>) {
    && i <= |before| == |now| && |verdicts| == i
    && (forall j | 0 <= j < i :: now[j] == LookedUp(before[j], verdicts[j]))
    && (forall j | i <= j < |now| :: now[j] == before[j])
    && unsure == UnsureOf(before[..i], verdicts)
  }

  lemma LookingUpStep(before: seq<SendRecord>, now: seq<SendRecord>, verdicts: seq<Outcome>, i: nat,
                      unsure: set<Wallet>, verdict: Outcome)
    requires LookingUp(before, now, verdicts, i, unsure) && i < |now|
    ensures var unsureToo := if GivenUp(now[i]) && verdict == Unknown then unsure + {now[i].recipient} else unsure;
            LookingUp(before, now[i := LookedUp(now[i], verdict)], verdicts + [verdict], i + 1, unsureToo)
  {
    UnsureStep(before, verdicts, i, verdict);
  }

  /** What the chain said of the given-up deliveries is so: one that arrived is completed,
      one that is said not to have arrived never will. */
  ghost predicate Told(sends: seq<SendRecord>, verdicts: seq<Outcome>, c: Chain, n: nat) {
    n <= |sends| && n <= |verdicts| && forall i | 0 <= i < n && GivenUp(sends[i]) && verdicts[i] != Unknown ::
      if verdicts[i] == Landed then Succeeded(c, sends[i].pending.value) else Dead(c, sends[i].pending.value)
  }

  lemma ToldLater(sends: seq<SendRecord>, verdicts: seq<Outcome>, c: Chain, d: Chain, n: nat)
    requires Told(sends, verdicts, c, n) && Extends(c, d)
    ensures Told(sends, verdicts, d, n)
  {
    forall i | 0 <= i < n && GivenUp(sends[i]) && verdicts[i] != Unknown
      ensures if verdicts[i] == Landed then Succeeded(d, sends[i].pending.value) else Dead(d, sends[i].pending.value)
    {
      DeadStaysDead(c, d, sends[i].pending.value);
    }
  }

  method LookUpGivenUp(coin: Coin, world: World) returns (verdicts: seq<Outcome>, unsure: set<Wallet>, crashed: bool)
    requires Kept(coin, world)
    modifies coin`sends, world
    ensures Kept(coin, world) && Extends(old(world.chain), world.chain) && old(world.bought) <= world.bought
            && old(world.mishaps) <= world.mishaps
    ensures NoWorse(old(coin.sends), old(world.chain), coin.sends, world.chain) && world.read == old(world.read)
    ensures world.sent == old(world.sent)
    ensures !crashed ==> |verdicts| == |coin.sends| && coin.sends == AllLookedUp(old(coin.sends), verdicts)
    ensures !crashed ==> unsure == UnsureOf(old(coin.sends), verdicts)
    ensures !crashed ==> Told(old(coin.sends), verdicts, world.chain, |old(coin.sends)|)
    ensures world.mishaps == old(world.mishaps) ==> !crashed && unsure == {}
    ensures world.deaths == old(world.deaths) + (if crashed then 1 else 0)
  {
    hide SendsOk, BurnsOk, WalletsOk;
    verdicts, unsure, crashed := [], {}, false;
    ghost var before := coin.sends;
    for i := 0 to |coin.sends|
      invariant world.deaths == old(world.deaths)
      invariant Kept(coin, world) && Extends(old(world.chain), world.chain) && old(world.bought) <= world.bought
                && old(world.mishaps) <= world.mishaps
      invariant NoWorse(before, old(world.chain), coin.sends, world.chain) && world.read == old(world.read)
      invariant LookingUp(before, coin.sends, verdicts, i, unsure) && world.sent == old(world.sent)
      invariant Told(before, verdicts, world.chain, i)
      invariant !crashed && (world.mishaps == old(world.mishaps) ==> unsure == {})
    {
      ghost var sends, c := coin.sends, world.chain;
      var send := coin.sends[i];
      var verdict;
      verdict, crashed := LookUpOne(coin, world, i);
      NoWorseTwice(before, old(world.chain), sends, c, coin.sends, world.chain);
      if crashed { return; }
      LookingUpStep(before, sends, verdicts, i, unsure, verdict);
      ToldLater(before, verdicts, c, world.chain, i);
      if GivenUp(send) && verdict == Unknown {
        unsure := unsure + {send.recipient};
      }
      verdicts := verdicts + [verdict];
    }
    assert before[..|before|] == before;
  }

  lemma UnsureStep(sends: seq<SendRecord>, verdicts: seq<Outcome>, i: nat, verdict: Outcome)
    requires i == |verdicts| < |sends|
    ensures UnsureOf(sends[..i + 1], verdicts + [verdict])
            == UnsureOf(sends[..i], verdicts) + if GivenUp(sends[i]) && verdict == Unknown then {sends[i].recipient}
              else {}
  {
    var before, after := UnsureOf(sends[..i], verdicts), UnsureOf(sends[..i + 1], verdicts + [verdict]);
    forall w | w in before ensures w in after {
      var j :| 0 <= j < i && GivenUp(sends[..i][j]) && verdicts[j] == Unknown && sends[..i][j].recipient == w;
      assert sends[..i + 1][j] == sends[j] && (verdicts + [verdict])[j] == verdicts[j];
    }
    forall w | w in after ensures w in before || (GivenUp(sends[i]) && verdict == Unknown && w == sends[i].recipient) {
      var j :| 0 <= j < i + 1 && GivenUp(sends[..i + 1][j]) && (verdicts + [verdict])[j] == Unknown
        && sends[..i + 1][j].recipient == w;
      if j < i {
        assert sends[..i][j] == sends[j] && verdicts[j] == Unknown;
      }
    }
    if GivenUp(sends[i]) && verdict == Unknown {
      assert sends[..i + 1][i] == sends[i] && (verdicts + [verdict])[i] == verdict;
    }
  }

  method LookUpOne(coin: Coin, world: World, i: nat) returns (verdict: Outcome, crashed: bool)
    requires Kept(coin, world) && i < |coin.sends|
    modifies coin`sends, world
    ensures Kept(coin, world) && Extends(old(world.chain), world.chain) && old(world.bought) <= world.bought
            && old(world.mishaps) <= world.mishaps
    ensures NoWorse(old(coin.sends), old(world.chain), coin.sends, world.chain)
    ensures world.read == old(world.read) && world.sent == old(world.sent)
    ensures !crashed && GivenUp(old(coin.sends)[i]) && verdict != Unknown ==>
              if verdict == Landed then Succeeded(world.chain, old(coin.sends)[i].pending.value)
              else Dead(world.chain, old(coin.sends)[i].pending.value)
    ensures world.mishaps == old(world.mishaps) ==> !crashed && verdict != Unknown
    ensures coin.sends == if crashed then old(coin.sends)
            else old(coin.sends)[i := LookedUp(old(coin.sends)[i], verdict)]
    ensures world.deaths == old(world.deaths) + (if crashed then 1 else 0)
  {
    var send := coin.sends[i];
    assert RecordOk(send, i, world.chain, world.sent);
    if !GivenUp(send) { return Absent, false; }
    verdict, crashed := world.SignatureOutcome(send.pending.value, send.pendingLimit);
    SoundOverTime(coin, world, old(world.chain));
    KeptOverTime(coin, world, coin.sends, old(world.chain), coin.known);
    if crashed { return; }
    UpdateOne(coin.sends, world.chain, world.sent, i, LookedUp(send, verdict));
    ghost var before := coin.sends;
    coin.sends := coin.sends[i := LookedUp(send, verdict)];
    KeptOverTime(coin, world, before, world.chain, coin.known);
  }

  // --- Who is topped up ------------------------------------------------------------------

  /** What the settlement of a coin goes by. `exact` is a coin somebody burns. */
  datatype Books = Books(exact: bool, bought: int, shares: seq<Share>, spent: nat, rounds: nat)

  function StakeOf(shares: seq<Share>, w: Wallet): nat {
    var share := Find(shares, w);
    if share.Some? then share.value.stake else 0
  }

  function TargetOf(w: Wallet, b: Books): int {
    if b.exact then DeliveryOwed(b.bought, w, b.shares)
    else if TotalStake(b.shares) == 0 then 0
    else Portion(b.bought, StakeOf(b.shares, w), TotalStake(b.shares))
  }

  /** Where nobody burns a backer is to have its stake's share of the pot, rounded down. */
  lemma InferredTargetIsStakeShare(b: Books, i: nat)
    requires !b.exact && WellFormed(b.shares) && i < |b.shares| && TotalStake(b.shares) > 0
    ensures var total, target := TotalStake(b.shares), TargetOf(b.shares[i].wallet, b);
            total * target <= b.bought * b.shares[i].stake < total * (target + 1)
  {
    FindInWellFormed(b.shares, b.shares[i].wallet);
    var total, product := TotalStake(b.shares), b.bought * b.shares[i].stake;
    Quotient(product, total);
    assert total * (product / total + 1) == total * (product / total) + total;
  }

  lemma TargetIsPortion(b: Books, i: nat)
    requires !b.exact && WellFormed(b.shares) && i < |b.shares| && TotalStake(b.shares) > 0
    ensures TargetOf(b.shares[i].wallet, b) == Portion(b.bought, b.shares[i].stake, TotalStake(b.shares))
  {
    FindInWellFormed(b.shares, b.shares[i].wallet);
  }

  function TargetsOfFirst(b: Books, n: nat): int
    requires n <= |b.shares|
  {
    if n == 0 then 0 else TargetsOfFirst(b, n - 1) + TargetOf(b.shares[n - 1].wallet, b)
  }

  lemma {:induction false} TargetsFloored(b: Books, n: nat)
    requires !b.exact && WellFormed(b.shares) && n <= |b.shares| && TotalStake(b.shares) > 0
    ensures Floored(TotalStake(b.shares), b.bought, TotalStake(b.shares[..n]), TargetsOfFirst(b, n), n)
  {
    hide Portion, TargetOf, Find, IndexOf, WellFormed;
    if n > 0 {
      TargetsFloored(b, n - 1);
      TargetIsPortion(b, n - 1);
      assert b.shares[..n][..n - 1] == b.shares[..n - 1];
      FlooredPortion(TotalStake(b.shares), b.bought, b.shares[n - 1].stake);
      FlooredSum(TotalStake(b.shares), b.bought, TotalStake(b.shares[..n - 1]), b.shares[n - 1].stake,
                 TargetsOfFirst(b, n - 1), TargetOf(b.shares[n - 1].wallet, b), n - 1, 1);
    }
  }

  /** And all of them together are to have the pot, less at most one unit a backer. */
  lemma InferredTargetsAddUp(b: Books)
    requires !b.exact && WellFormed(b.shares) && TotalStake(b.shares) > 0
    ensures b.bought - |b.shares| <= TargetsOfFirst(b, |b.shares|) <= b.bought
  {
    var n := |b.shares|;
    TargetsFloored(b, n);
    assert b.shares[..n] == b.shares;
    assert n == 0 ==> TotalStake(b.shares) == 0;
    CancelFloored(TotalStake(b.shares), TargetsOfFirst(b, n), b.bought, n);
  }

  function ShortOf(sends: seq<SendRecord>, w: Wallet, b: Books): int {
    TargetOf(w, b) - DeliveredTo(sends, w, b.exact)
  }

  /** Not worth the fee of its own delivery, at the coin's average price. */
  predicate Dust(short: int, b: Books) {
    b.spent > 0 && short * b.spent < TOP_UP_MIN_LAMPORTS * b.bought
  }

  predicate Queued(r: SendRecord) {
    r.status == Pending || r.status == InProgress
  }

  predicate Busy(sends: seq<SendRecord>, w: Wallet) {
    exists s | s in sends :: s.recipient == w && Queued(s)
  }

  predicate Wants(sends: seq<SendRecord>, unsure: set<Wallet>, w: Wallet, b: Books) {
    !Busy(sends, w) && w !in unsure && ShortOf(sends, w, b) > 0 && !Dust(ShortOf(sends, w, b), b)
  }

  function FirstOf(sends: seq<SendRecord>, w: Wallet): (r: SendRecord)
    requires Receives(sends, w)
    ensures r in sends && r.recipient == w
  {
    if sends[0].recipient == w then sends[0] else FirstOf(sends[1..], w)
  }

  /** A top-up is created like the wallet's first delivery, for the last round. */
  function TopUp(w: Wallet, sample: SendRecord, rounds: nat): SendRecord {
    SendRecord(w, sample.betLamports, sample.hadAtaAtStart, rounds, Pending, None, None, None, None, None, [], None, 0,
               true)
  }

  /** The top-ups of the wallets in `ws`. */
  function TopUps(sends: seq<SendRecord>, unsure: set<Wallet>, ws: seq<Wallet>, b: Books): seq<SendRecord>
    requires forall w | w in ws :: Receives(sends, w)
  {
    if ws == [] then []
    else
      var w := ws[|ws| - 1];
      var before := TopUps(sends, unsure, ws[..|ws| - 1], b);
      if Wants(sends, unsure, w, b) then before + [TopUp(w, FirstOf(sends, w), b.rounds)] else before
  }

  /** A record as a settlement creates them: like the wallet's first, and waiting. */
  ghost predicate IsTopUp(r: SendRecord, sends: seq<SendRecord>, rounds: nat) {
    && r.status == Pending && r.pending.None? && r.signature.None? && r.attempts == 0 && r.round == rounds
    && exists s :: s in sends && SameOwner(s, r)
  }

  lemma {:induction false} TopUpsEach(sends: seq<SendRecord>, unsure: set<Wallet>, ws: seq<Wallet>, b: Books,
                                      t: seq<SendRecord>)
    requires forall w | w in ws :: Receives(sends, w)
    requires t == TopUps(sends, unsure, ws, b)
    ensures forall i | 0 <= i < |t| :: IsTopUp(t[i], sends, b.rounds)
    ensures forall i | 0 <= i < |t| :: t[i].recipient in ws && Wants(sends, unsure, t[i].recipient, b)
  {
    if ws != [] {
      var n := |ws| - 1;
      assert forall w | w in ws[..n] :: w in ws;
      var before := TopUps(sends, unsure, ws[..n], b);
      TopUpsEach(sends, unsure, ws[..n], b, before);
      if Wants(sends, unsure, ws[n], b) {
        assert t == before + [TopUp(ws[n], FirstOf(sends, ws[n]), b.rounds)];
        assert SameOwner(FirstOf(sends, ws[n]), t[|before|]);
      }
    }
  }

  lemma {:induction false} TopUpsReach(sends: seq<SendRecord>, unsure: set<Wallet>, ws: seq<Wallet>, b: Books,
                                       t: seq<SendRecord>, w: Wallet)
    requires forall v | v in ws :: Receives(sends, v)
    requires t == TopUps(sends, unsure, ws, b) && w in ws && Wants(sends, unsure, w, b)
    ensures exists i :: 0 <= i < |t| && t[i].recipient == w
  {
    var n := |ws| - 1;
    assert forall v | v in ws[..n] :: v in ws;
    var before := TopUps(sends, unsure, ws[..n], b);
    if w == ws[n] {
      assert t[|before|].recipient == w;
    } else {
      assert w in ws[..n];
      TopUpsReach(sends, unsure, ws[..n], b, before, w);
      var i :| 0 <= i < |before| && before[i].recipient == w;
      assert t[i] == before[i];
    }
  }

  /** One top-up for each wallet that wants one, and none for the others. */
  lemma {:induction false} TopUpsAre(sends: seq<SendRecord>, unsure: set<Wallet>, ws: seq<Wallet>, b: Books,
                                     t: seq<SendRecord>)
    requires forall w | w in ws :: Receives(sends, w)
    requires Distinct(ws) && t == TopUps(sends, unsure, ws, b)
    ensures forall i | 0 <= i < |t| :: IsTopUp(t[i], sends, b.rounds)
    ensures forall i | 0 <= i < |t| :: t[i].recipient in ws && Wants(sends, unsure, t[i].recipient, b)
    ensures forall w | w in ws && Wants(sends, unsure, w, b) :: exists i :: 0 <= i < |t| && t[i].recipient == w
    ensures forall i, j | 0 <= i < j < |t| :: t[i].recipient != t[j].recipient
  {
    TopUpsEach(sends, unsure, ws, b, t);
    forall w | w in ws && Wants(sends, unsure, w, b) ensures exists i :: 0 <= i < |t| && t[i].recipient == w {
      TopUpsReach(sends, unsure, ws, b, t, w);
    }
    if ws != [] {
      var n := |ws| - 1;
      assert forall w | w in ws[..n] :: w in ws;
      assert ws[n] !in ws[..n];
      TopUpsAre(sends, unsure, ws[..n], b, TopUps(sends, unsure, ws[..n], b));
    }
  }

  // --- Running it again adds nothing -----------------------------------------------------

  lemma {:induction false} NothingDelivered(sends: seq<SendRecord>, added: seq<SendRecord>, w: Wallet, exact: bool)
    requires forall i | 0 <= i < |added| :: added[i].status == Pending
    ensures DeliveredTo(sends + added, w, exact) == DeliveredTo(sends, w, exact)
  {
    if added == [] {
      assert sends + added == sends;
    } else {
      var n := |added| - 1;
      NothingDelivered(sends, added[..n], w, exact);
      assert (sends + added)[..|sends| + n] == sends + added[..n];
    }
  }

  lemma {:induction false} SameWallets(sends: seq<SendRecord>, added: seq<SendRecord>)
    requires forall i | 0 <= i < |added| :: Receives(sends, added[i].recipient)
    ensures Recipients(sends + added) == Recipients(sends)
  {
    if added == [] {
      assert sends + added == sends;
    } else {
      var n := |added| - 1;
      SameWallets(sends, added[..n]);
      assert (sends + added)[..|sends| + n] == sends + added[..n];
      RecipientsAreThose(sends);
    }
  }

  lemma {:induction false} NoneWanted(sends: seq<SendRecord>, unsure: set<Wallet>, ws: seq<Wallet>, b: Books)
    requires forall w | w in ws :: Receives(sends, w)
    requires forall w | w in ws :: !Wants(sends, unsure, w, b)
    ensures TopUps(sends, unsure, ws, b) == []
  {
    if ws != [] {
      assert ws[|ws| - 1] in ws;
      assert forall w | w in ws[..|ws| - 1] :: w in ws;
      NoneWanted(sends, unsure, ws[..|ws| - 1], b);
    }
  }

  /** The top-ups of all the coin's wallets. */
  function NewTopUps(sends: seq<SendRecord>, unsure: set<Wallet>, b: Books): seq<SendRecord> {
    RecipientsAreThose(sends);
    TopUps(sends, unsure, Recipients(sends), b)
  }

  /** Everything one settlement does to a coin's records, given what the chain says of
      each signature. */
  function SettledBy(sends: seq<SendRecord>, verdicts: seq<Outcome>, b: Books): seq<SendRecord>
    requires |sends| <= |verdicts|
  {
    var looked := AllLookedUp(sends, verdicts);
    looked + NewTopUps(looked, UnsureOf(sends, verdicts), b)
  }

  lemma AddedReceive(sends: seq<SendRecord>, added: seq<SendRecord>)
    ensures forall w :: Receives(sends, w) ==> Receives(sends + added, w)
    ensures forall w :: Busy(sends, w) ==> Busy(sends + added, w)
  {
    assert forall s :: s in sends ==> s in sends + added;
  }

  lemma WantsNoMore(sends: seq<SendRecord>, added: seq<SendRecord>, unsure: set<Wallet>, unsureAgain: set<Wallet>,
                    b: Books, w: Wallet)
    requires forall i | 0 <= i < |added| :: added[i].status == Pending
    requires unsure <= unsureAgain
    requires Wants(sends, unsure, w, b) ==> exists i :: 0 <= i < |added| && added[i].recipient == w
    ensures !Wants(sends + added, unsureAgain, w, b)
  {
    AddedReceive(sends, added);
    NothingDelivered(sends, added, w, b.exact);
    if Wants(sends, unsure, w, b) {
      var i :| 0 <= i < |added| && added[i].recipient == w;
      assert added[i] in sends + added && Queued(added[i]);
    }
  }

  /** The wallets a settlement leaves without a top-up want none afterwards either, and
      the ones it tops up are busy. */
  lemma StillUnwanted(sends: seq<SendRecord>, unsure: set<Wallet>, unsureAgain: set<Wallet>, b: Books, w: Wallet)
    requires Receives(sends, w) && unsure <= unsureAgain
    requires forall v | v in Recipients(sends) :: Receives(sends, v)
    ensures !Wants(sends + TopUps(sends, unsure, Recipients(sends), b), unsureAgain, w, b)
  {
    RecipientsAreThose(sends);
    var added := TopUps(sends, unsure, Recipients(sends), b);
    TopUpsAre(sends, unsure, Recipients(sends), b, added);
    assert forall i | 0 <= i < |added| :: IsTopUp(added[i], sends, b.rounds);
    WantsNoMore(sends, added, unsure, unsureAgain, b, w);
  }

  lemma SettledWallets(sends: seq<SendRecord>, unsure: set<Wallet>, b: Books, w: Wallet)
    requires Receives(sends + NewTopUps(sends, unsure, b), w)
    ensures Receives(sends, w) && forall v | v in Recipients(sends) :: Receives(sends, v)
  {
    RecipientsAreThose(sends);
    var added := NewTopUps(sends, unsure, b);
    TopUpsAre(sends, unsure, Recipients(sends), b, added);
    var s :| s in sends + added && s.recipient == w;
    if s in added {
      var i :| 0 <= i < |added| && added[i] == s;
    }
  }

  lemma LookedUpTwice(sends: seq<SendRecord>, added: seq<SendRecord>, verdicts: seq<Outcome>, again: seq<Outcome>)
    requires |sends| == |verdicts| && |sends| + |added| <= |again| && verdicts <= again
    requires forall i | 0 <= i < |added| :: added[i].status == Pending
    ensures var once := AllLookedUp(sends, verdicts) + added;
            AllLookedUp(once, again) == once && UnsureOf(sends, verdicts) <= UnsureOf(once, again)
  {
    var once := AllLookedUp(sends, verdicts) + added;
    forall i | 0 <= i < |once| ensures LookedUp(once[i], again[i]) == once[i] {
      if i < |sends| {
        assert once[i] == LookedUp(sends[i], verdicts[i]) && again[i] == verdicts[i];
      } else {
        assert once[i] == added[i - |sends|];
      }
    }
    forall w | w in UnsureOf(sends, verdicts) ensures w in UnsureOf(once, again) {
      var i :| 0 <= i < |sends| && GivenUp(sends[i]) && verdicts[i] == Unknown && sends[i].recipient == w;
      assert once[i] == sends[i] && again[i] == Unknown;
    }
  }

  /** A settlement run again, on the same answers from the chain, adds nothing: for any
      records, any books, and any answers about the records that were not there
      before. */
  lemma SettlingTwice(sends: seq<SendRecord>, verdicts: seq<Outcome>, again: seq<Outcome>, b: Books)
    requires |sends| == |verdicts| && |SettledBy(sends, verdicts, b)| <= |again| && verdicts <= again
    ensures SettledBy(SettledBy(sends, verdicts, b), again, b) == SettledBy(sends, verdicts, b)
  {
    var looked, unsure := AllLookedUp(sends, verdicts), UnsureOf(sends, verdicts);
    RecipientsAreThose(looked);
    var added := TopUps(looked, unsure, Recipients(looked), b);
    TopUpsAre(looked, unsure, Recipients(looked), b, added);
    var once := looked + added;
    forall i | 0 <= i < |added| ensures added[i].status == Pending && Receives(looked, added[i].recipient) {
      assert IsTopUp(added[i], looked, b.rounds);
    }
    LookedUpTwice(sends, added, verdicts, again);
    SameWallets(looked, added);
    AddedReceive(looked, added);
    forall w | w in Recipients(once) ensures Receives(once, w) && !Wants(once, UnsureOf(once, again), w, b) {
      StillUnwanted(looked, unsure, UnsureOf(once, again), b, w);
    }
    NoneWanted(once, UnsureOf(once, again), Recipients(once), b);
  }

  // --- The settlement's steps --------------------------------------------------------------

  function At(m: map<Wallet, nat>, w: Wallet): nat {
    if w in m then m[w] else 0
  }

  /** Delivered so far, wallet by wallet, counted the way the rounds count it. */
  method DeliveredPerWallet(sends: seq<SendRecord>, exact: bool) returns (delivered: map<Wallet, nat>)
    ensures forall w :: At(delivered, w) == DeliveredTo(sends, w, exact)
  {
    delivered := map[];
    for i := 0 to |sends|
      invariant forall w :: At(delivered, w) == DeliveredTo(sends[..i], w, exact)
    {
      assert sends[..i + 1][..i] == sends[..i];
      var s := sends[i];
      if s.status == Completed && s.amount.Some? {
        var counted := if exact then SentFromKeeper(s) else s.amount.value;
        delivered := delivered[s.recipient := At(delivered, s.recipient) + counted];
      }
    }
    assert sends[..|sends|] == sends;
  }

  method BusyWallets(sends: seq<SendRecord>) returns (busy: set<Wallet>)
    ensures forall w :: w in busy <==> Busy(sends, w)
  {
    busy := set s | s in sends && Queued(s) :: s.recipient;
  }

  /** The deliveries to queue, wallet by wallet. */
  method QueueTopUps(sends: seq<SendRecord>, unsure: set<Wallet>, b: Books) returns (added: seq<SendRecord>)
    requires b.bought > 0 && TotalStake(b.shares) > 0
    ensures added == NewTopUps(sends, unsure, b)
  {
    var delivered := DeliveredPerWallet(sends, b.exact);
    var busy := BusyWallets(sends);
    var ws := Recipients(sends);
    RecipientsAreThose(sends);
    added := [];
    for i := 0 to |ws|
      invariant forall w | w in ws[..i] :: Receives(sends, w)
      invariant added == TopUps(sends, unsure, ws[..i], b)
    {
      assert ws[..i + 1][..i] == ws[..i] && ws[i] in ws;
      var w := ws[i];
      if w in busy || w in unsure { continue; }
      var target := if b.exact then DeliveryOwed(b.bought, w, b.shares)
                    else (b.bought * StakeOf(b.shares, w)) / TotalStake(b.shares);
      var short := target - At(delivered, w);
      if short <= 0 || Dust(short, b) { continue; }
      added := added + [TopUp(w, FirstOf(sends, w), b.rounds)];
    }
    assert ws[..|ws|] == ws;
  }

  lemma {:induction false} NewClaimNothing(sends: seq<SendRecord>, added: seq<SendRecord>, c: Chain, w: Wallet)
    requires forall i | 0 <= i < |added| :: added[i].pending.None? && added[i].signature.None?
    ensures PotentialTo(sends + added, c, w) == PotentialTo(sends, c, w)
  {
    if added == [] {
      assert sends + added == sends;
    } else {
      var n := |added| - 1;
      var more := sends + added;
      NewClaimNothing(sends, added[..n], c, w);
      assert more[..|sends| + n] == sends + added[..n];
      assert Potentials(more, c)[..|sends| + n] == Potentials(sends + added[..n], c);
    }
  }

  lemma NewRecordsOk(sends: seq<SendRecord>, added: seq<SendRecord>, c: Chain, sent: seq<Tx>, b: Books,
                     origin: seq<SendRecord>)
    requires SendsOk(sends, c, sent) && forall i | 0 <= i < |added| :: IsTopUp(added[i], origin, b.rounds)
    ensures SendsOk(sends + added, c, sent)
  {
    forall t | t in sent ensures Accounted(t, sends + added, c) {
      assert Accounted(t, sends, c);
    }
    forall id | 0 <= id < |sends + added| ensures RecordOk((sends + added)[id], id, c, sent) {
      if id < |sends| {
        assert RecordOk(sends[id], id, c, sent);
      } else {
        assert IsTopUp(added[id - |sends|], origin, b.rounds);
      }
    }
  }

  /** New records are in order and take nothing yet. */
  method Add(coin: Coin, world: World, unsure: set<Wallet>, b: Books, added: seq<SendRecord>)
    requires Kept(coin, world) && added == NewTopUps(coin.sends, unsure, b)
    modifies coin`sends
    ensures Kept(coin, world) && coin.sends == old(coin.sends) + added
  {
    RecipientsAreThose(coin.sends);
    TopUpsAre(coin.sends, unsure, Recipients(coin.sends), b, added);
    NewRecordsOk(coin.sends, added, world.chain, world.sent, b, coin.sends);
    coin.sends := coin.sends + added;
    forall w ensures PotentialTo(coin.sends, world.chain, w) == PotentialTo(old(coin.sends), world.chain, w) {
      NewClaimNothing(old(coin.sends), added, world.chain, w);
    }
  }

  lemma NothingOwedNothingWanted(sends: seq<SendRecord>, unsure: set<Wallet>, b: Books)
    requires b.exact && (b.bought == 0 || TotalStake(b.shares) == 0)
    ensures NewTopUps(sends, unsure, b) == []
  {
    RecipientsAreThose(sends);
    NoneWanted(sends, unsure, Recipients(sends), b);
  }

  /** A coin's top-ups. For a coin somebody burns, the exact books are `known`. */
  method TopUpsFor(coin: Coin, world: World, spent: nat, rounds: nat)
    returns (crashed: bool, ghost verdicts: seq<Outcome>)
    requires Kept(coin, world)
    modifies coin`sends, world
    ensures Kept(coin, world) && Extends(old(world.chain), world.chain) && old(world.bought) <= world.bought
            && old(world.mishaps) <= world.mishaps
    ensures !crashed ==> |verdicts| == |old(coin.sends)| && Told(old(coin.sends), verdicts, world.chain, |verdicts|)
    ensures HasBurn(coin.shares) ==> world.read == old(world.read)
    ensures world.mishaps == old(world.mishaps) ==> !crashed && UnsureOf(old(coin.sends), verdicts) == {}
    ensures world.sent == old(world.sent)
    ensures !crashed && HasBurn(coin.shares) ==>
              coin.sends == SettledBy(old(coin.sends), verdicts, Books(true, coin.known, coin.shares, spent, rounds))
    ensures !crashed && !HasBurn(coin.shares) ==>
              coin.sends == AllLookedUp(old(coin.sends), verdicts)
              || exists bought ::
                   coin.sends == SettledBy(old(coin.sends), verdicts, Books(false, bought, coin.shares, spent, rounds))
    ensures world.mishaps == old(world.mishaps) && !HasBurn(coin.shares) ==>
              Inferred(AllLookedUp(old(coin.sends), verdicts), coin.sends, {}, world.read, coin.shares, spent, rounds)
    ensures world.deaths == old(world.deaths) + (if crashed then 1 else 0)
  {
    verdicts := [];
    var seen, unsure;
    seen, unsure, crashed := LookUpGivenUp(coin, world);
    if crashed { return; }
    verdicts := seen;
    if HasBurn(coin.shares) {
      ExactTopUps(coin, world, unsure, Books(true, coin.known, coin.shares, spent, rounds));
    } else {
      crashed := InferredTopUps(coin, world, unsure, spent, rounds);
    }
  }

  method ExactTopUps(coin: Coin, world: World, unsure: set<Wallet>, b: Books)
    requires Kept(coin, world) && b.exact && b.bought == coin.known
    modifies coin`sends
    ensures Kept(coin, world) && coin.sends == old(coin.sends) + NewTopUps(old(coin.sends), unsure, b)
  {
    if TotalStake(b.shares) == 0 || b.bought <= 0 {
      NothingOwedNothingWanted(coin.sends, unsure, b);
      return;
    }
    var added := QueueTopUps(coin.sends, unsure, b);
    Add(coin, world, unsure, b, added);
  }

  /** What a wallet is to have where nobody burns goes by the keeper's balance and what has
      gone out. */
  ghost predicate Inferred(before: seq<SendRecord>, after: seq<SendRecord>, unsure: set<Wallet>, read: Option<nat>,
                           shares: seq<Share>, spent: nat, rounds: nat)
  {
    if TotalStake(shares) == 0 then after == before
    else
      && read.Some?
      && var bought := read.value + DeliveredInAll(before);
         after == before + if bought == 0 then []
           else NewTopUps(before, unsure, Books(false, bought, shares, spent, rounds))
  }

  /** Nobody burns: the pot is what the keeper holds and what has gone out. */
  method InferredTopUps(coin: Coin, world: World, unsure: set<Wallet>, spent: nat, rounds: nat) returns (crashed: bool)
    requires Kept(coin, world)
    modifies coin`sends, world
    ensures Kept(coin, world) && Extends(old(world.chain), world.chain) && old(world.bought) <= world.bought
            && old(world.mishaps) <= world.mishaps
    ensures world.sent == old(world.sent)
    ensures world.mishaps == old(world.mishaps) ==>
              !crashed && Inferred(old(coin.sends), coin.sends, unsure, world.read, coin.shares, spent, rounds)
    ensures coin.sends == old(coin.sends)
            || exists bought ::
                 coin.sends == old(coin.sends)
                   + NewTopUps(old(coin.sends), unsure, Books(false, bought, coin.shares, spent, rounds))
    ensures world.deaths == old(world.deaths) + (if crashed then 1 else 0)
  {
    crashed := false;
    if TotalStake(coin.shares) == 0 { return; }
    var balance;
    balance, crashed := ReadBalance(coin, world);
    if crashed || balance.None? { return; }
    var bought := balance.value + DeliveredInAll(coin.sends);
    if bought <= 0 { return; }
    var b := Books(false, bought, coin.shares, spent, rounds);
    var added := QueueTopUps(coin.sends, unsure, b);
    Add(coin, world, unsure, b, added);
  }
}