/** The purchases of a coin and the transactions signed for them
    (offchain/scheduler/types.ts, state.ts, batch.ts; offchain/orchestrator/resume.ts). */
module PurchaseLedger {
  import opened Solana

  datatype PurchaseStatus = Waiting | InProgress | Completed | Failed | Abandoned

  /** `sentAttempts` are the transactions written down before they went out, oldest
      first. `solAmount` is in lamports. A purchase's number is its place among all the
      purchases of the coin, over all its batches. */
  datatype Purchase = Purchase(
    solAmount: nat,
    status: PurchaseStatus,
    signature: Option<Tx>,
    pending: Option<Tx>,
    pendingLimit: Option<nat>,
    sentAttempts: seq<Tx>,
    attempts: nat)

  /** The last transaction a purchase put on the wire, if it put any. */
  function LastAttempt(p: Purchase): Option<Tx> {
    if p.sentAttempts != [] then Some(p.sentAttempts[|p.sentAttempts| - 1]) else p.pending
  }

  predicate BuysFor(t: Tx, id: nat) {
    t.effect.Purchase? && t.effect.purchase == id
  }

  /** The invariant of one purchase: only its last transaction is not dead, it is for
      the amount on record, and a completed purchase is the one that landed. */
  ghost predicate PurchaseOk(p: Purchase, id: nat, c: Chain, sent: seq<Tx>) {
    && (forall k | 0 <= k < |p.sentAttempts| :: p.sentAttempts[k] in sent && BuysFor(p.sentAttempts[k], id))
    && (forall k | 0 <= k < |p.sentAttempts| - 1 :: Dead(c, p.sentAttempts[k]))
    && p.pending == (if p.sentAttempts == [] then None else Some(p.sentAttempts[|p.sentAttempts| - 1]))
    && (p.pending.Some? ==> p.pendingLimit == Some(p.pending.value.limit))
    && (p.pending.Some? && !Dead(c, p.pending.value) ==> p.pending.value.effect.lamports == p.solAmount)
    && (p.signature.Some? ==> p.status == Completed)
    && (p.status == Completed ==> p.signature.Some? && p.signature == p.pending && Succeeded(c, p.signature.value))
  }

  /** Every signed purchase transaction that can still land is the last of its purchase. */
  ghost predicate OnRecord(t: Tx, all: seq<Purchase>, c: Chain) {
    t.effect.Purchase? ==> t.effect.purchase < |all| && (Dead(c, t) || all[t.effect.purchase].pending == Some(t))
  }

  ghost predicate LedgerOk(all: seq<Purchase>, c: Chain, sent: seq<Tx>) {
    && (forall i | 0 <= i < |sent| :: sent[i].nonce == i)
    && (forall id | 0 <= id < |all| :: PurchaseOk(all[id], id, c, sent))
    && (forall t | t in sent :: OnRecord(t, all, c))
  }

  /** Nothing signed for this purchase is alive: a replacement may be signed. */
  ghost predicate NothingInFlight(p: Purchase, c: Chain) {
    p.pending.None? || Dead(c, p.pending.value)
  }

  // --- At most one lands ------------------------------------------------------------------

  /** However late transactions land and whatever is still to come, of all the
      transactions ever signed for a purchase at most one succeeds, and it is the last. */
  lemma OnePurchaseLands(all: seq<Purchase>, c: Chain, d: Chain, sent: seq<Tx>, t: Tx, u: Tx, id: nat)
    requires LedgerOk(all, c, sent) && Extends(c, d)
    requires t in sent && u in sent && BuysFor(t, id) && BuysFor(u, id) && Succeeded(d, t) && Succeeded(d, u)
    ensures t == u && id < |all| && LastAttempt(all[id]) == Some(t) && t.effect.lamports == all[id].solAmount
  {
    assert OnRecord(t, all, c) && OnRecord(u, all, c);
    DeadStaysDead(c, d, t);
    DeadStaysDead(c, d, u);
    assert PurchaseOk(all[id], id, c, sent);
  }

  /** Nothing that was signed for a purchase with nothing in flight ever succeeds. */
  lemma NothingInFlightIsAllDead(all: seq<Purchase>, c: Chain, sent: seq<Tx>, id: nat)
    requires LedgerOk(all, c, sent) && id < |all| && NothingInFlight(all[id], c)
    ensures forall t | t in sent && BuysFor(t, id) :: Dead(c, t)
  {
    forall t | t in sent && BuysFor(t, id) ensures Dead(c, t) {
      assert OnRecord(t, all, c);
    }
  }

  // --- Keeping the ledger ------------------------------------------------------------------

  lemma LedgerOverTime(all: seq<Purchase>, c: Chain, d: Chain, sent: seq<Tx>)
    requires LedgerOk(all, c, sent) && Extends(c, d)
    ensures LedgerOk(all, d, sent)
    ensures forall id | 0 <= id < |all| && NothingInFlight(all[id], c) :: NothingInFlight(all[id], d)
  {
    forall id | 0 <= id < |all| ensures PurchaseOk(all[id], id, d, sent) {
      assert PurchaseOk(all[id], id, c, sent);
    }
    forall t | t in sent ensures OnRecord(t, all, d) {
      assert OnRecord(t, all, c);
    }
  }

  /** One purchase's record changed, its transactions the same. */
  lemma LedgerUpdate(all: seq<Purchase>, c: Chain, sent: seq<Tx>, id: nat, p: Purchase)
    requires LedgerOk(all, c, sent) && id < |all| && PurchaseOk(p, id, c, sent) && p.pending == all[id].pending
    ensures LedgerOk(all[id := p], c, sent)
  {
    forall t | t in sent ensures OnRecord(t, all[id := p], c) {
      assert OnRecord(t, all, c);
    }
  }

  function WithAttempt(p: Purchase, t: Tx): Purchase {
    p.(pending := Some(t), pendingLimit := Some(t.limit), sentAttempts := p.sentAttempts + [t])
  }

  /** A transaction signed while everything before it is dead. */
  lemma LedgerSign(all: seq<Purchase>, c: Chain, sent: seq<Tx>, id: nat, t: Tx)
    requires LedgerOk(all, c, sent) && id < |all| && NothingInFlight(all[id], c) && all[id].status != Completed
    requires t.nonce == |sent| && t.effect == Effect.Purchase(id, all[id].solAmount)
    ensures LedgerOk(all[id := WithAttempt(all[id], t)], c, sent + [t])
  {
    var after := all[id := WithAttempt(all[id], t)];
    NothingInFlightIsAllDead(all, c, sent, id);
    forall k | 0 <= k < |after| ensures PurchaseOk(after[k], k, c, sent + [t]) {
      assert PurchaseOk(all[k], k, c, sent);
    }
    forall u | u in sent + [t] ensures OnRecord(u, after, c) {
      if u in sent {
        assert OnRecord(u, all, c);
      }
    }
  }

  /** New purchases, with nothing signed. */
  lemma LedgerGrows(all: seq<Purchase>, more: seq<Purchase>, c: Chain, sent: seq<Tx>)
    requires LedgerOk(all, c, sent)
    requires forall i | 0 <= i < |more| ::
               more[i].status == Waiting && more[i].sentAttempts == [] && more[i].pending.None?
                 && more[i].signature.None?
    ensures LedgerOk(all + more, c, sent)
  {
    forall id | 0 <= id < |all + more| ensures PurchaseOk((all + more)[id], id, c, sent) {
      if id < |all| {
        assert PurchaseOk(all[id], id, c, sent);
      }
    }
    forall t | t in sent ensures OnRecord(t, all + more, c) {
      assert OnRecord(t, all, c);
    }
  }

  // --- What is spent ---------------------------------------------------------------------------

  /** Really spent: every signed purchase transaction that ran without an error. */
  function LandedLamports(sent: seq<Tx>, c: Chain): nat {
    if sent == [] then 0
    else
      var t := sent[|sent| - 1];
      LandedLamports(sent[..|sent| - 1], c) + if t.effect.Purchase? && Succeeded(c, t) then t.effect.lamports else 0
  }

  /** What a purchase has spent or may still spend. */
  ghost function MaySpend(p: Purchase, c: Chain): nat {
    if NothingInFlight(p, c) then 0 else p.solAmount
  }

  ghost function MaySpendInAll(all: seq<Purchase>, c: Chain): nat {
    if all == [] then 0 else MaySpendInAll(all[..|all| - 1], c) + MaySpend(all[|all| - 1], c)
  }

  function Planned(all: seq<Purchase>): nat {
    if all == [] then 0 else Planned(all[..|all| - 1]) + all[|all| - 1].solAmount
  }

  /** What landed for the purchases numbered below `n`. */
  function LandedBelow(sent: seq<Tx>, c: Chain, n: nat): nat {
    if sent == [] then 0
    else
      var t := sent[|sent| - 1];
      LandedBelow(sent[..|sent| - 1], c, n)
      + if t.effect.Purchase? && t.effect.purchase < n && Succeeded(c, t) then t.effect.lamports else 0
  }

  function LandedFor(sent: seq<Tx>, c: Chain, id: nat): nat {
    if sent == [] then 0
    else
      var t := sent[|sent| - 1];
      LandedFor(sent[..|sent| - 1], c, id) + if BuysFor(t, id) && Succeeded(c, t) then t.effect.lamports else 0
  }

  lemma {:induction false} OneMorePurchase(sent: seq<Tx>, c: Chain, n: nat)
    ensures LandedBelow(sent, c, n + 1) == LandedBelow(sent, c, n) + LandedFor(sent, c, n)
  {
    if sent != [] {
      OneMorePurchase(sent[..|sent| - 1], c, n);
    }
  }

  lemma {:induction false} NoneBelowZero(sent: seq<Tx>, c: Chain)
    ensures LandedBelow(sent, c, 0) == 0
  {
    if sent != [] {
      NoneBelowZero(sent[..|sent| - 1], c);
    }
  }

  lemma {:induction false} AllBelow(sent: seq<Tx>, c: Chain, n: nat)
    requires forall t | t in sent && t.effect.Purchase? :: t.effect.purchase < n
    ensures LandedBelow(sent, c, n) == LandedLamports(sent, c)
  {
    if sent != [] {
      assert sent[|sent| - 1] in sent && forall t | t in sent[..|sent| - 1] :: t in sent;
      AllBelow(sent[..|sent| - 1], c, n);
    }
  }

  lemma {:induction false} LandedOnlyBy(sent: seq<Tx>, c: Chain, id: nat, u: Tx)
    requires forall i | 0 <= i < |sent| :: sent[i].nonce == i
    requires forall t | t in sent && BuysFor(t, id) && Succeeded(c, t) :: t == u
    requires BuysFor(u, id)
    ensures LandedFor(sent, c, id) == if u in sent && Succeeded(c, u) then u.effect.lamports else 0
  {
    if sent != [] {
      var n := |sent| - 1;
      assert sent[n] in sent && forall t | t in sent[..n] :: t in sent;
      LandedOnlyBy(sent[..n], c, id, u);
      assert sent == sent[..n] + [sent[n]];
      if sent[n] == u {
        assert u !in sent[..n];
      }
    }
  }

  lemma {:induction false} LandedByNone(sent: seq<Tx>, c: Chain, id: nat)
    requires forall t | t in sent && BuysFor(t, id) :: !Succeeded(c, t)
    ensures LandedFor(sent, c, id) == 0
  {
    if sent != [] {
      assert sent[|sent| - 1] in sent && forall t | t in sent[..|sent| - 1] :: t in sent;
      LandedByNone(sent[..|sent| - 1], c, id);
    }
  }

  /** What a purchase has really spent, by its record. */
  function LandedOf(p: Purchase, c: Chain): nat {
    if p.pending.Some? && Succeeded(c, p.pending.value) then p.solAmount else 0
  }

  function LandedIn(all: seq<Purchase>, c: Chain): nat {
    if all == [] then 0 else LandedIn(all[..|all| - 1], c) + LandedOf(all[|all| - 1], c)
  }

  lemma LandedForIs(all: seq<Purchase>, c: Chain, sent: seq<Tx>, id: nat)
    requires LedgerOk(all, c, sent) && ValidChain(c) && id < |all|
    ensures LandedFor(sent, c, id) == LandedOf(all[id], c)
  {
    assert PurchaseOk(all[id], id, c, sent);
    if NothingInFlight(all[id], c) {
      NothingInFlightIsAllDead(all, c, sent, id);
      LandedByNone(sent, c, id);
    } else {
      forall t | t in sent && BuysFor(t, id) && Succeeded(c, t) ensures t == all[id].pending.value {
        assert OnRecord(t, all, c);
      }
      LandedOnlyBy(sent, c, id, all[id].pending.value);
    }
  }

  lemma {:induction false} LandedBelowIs(all: seq<Purchase>, c: Chain, sent: seq<Tx>, n: nat)
    requires LedgerOk(all, c, sent) && ValidChain(c) && n <= |all|
    ensures LandedBelow(sent, c, n) == LandedIn(all[..n], c)
  {
    if n == 0 {
      NoneBelowZero(sent, c);
    } else {
      LandedBelowIs(all, c, sent, n - 1);
      OneMorePurchase(sent, c, n - 1);
      LandedForIs(all, c, sent, n - 1);
      assert all[..n][..n - 1] == all[..n - 1];
    }
  }

  /** What has landed is exactly what the purchases on record whose last transaction
      succeeded were for. */
  lemma LandedIsOnRecord(all: seq<Purchase>, c: Chain, sent: seq<Tx>)
    requires LedgerOk(all, c, sent) && ValidChain(c)
    ensures LandedLamports(sent, c) == LandedIn(all, c)
  {
    forall t | t in sent && t.effect.Purchase? ensures t.effect.purchase < |all| {
      assert OnRecord(t, all, c);
    }
    LandedBelowIs(all, c, sent, |all|);
    AllBelow(sent, c, |all|);
    assert all[..|all|] == all;
  }

  lemma {:induction false} LandedIsMaySpend(all: seq<Purchase>, c: Chain)
    requires ValidChain(c)
    ensures LandedIn(all, c) <= MaySpendInAll(all, c)
  {
    if all != [] {
      LandedIsMaySpend(all[..|all| - 1], c);
    }
  }

  /** Everything that has landed is on record as spent or possibly spent. */
  lemma LandedWithin(all: seq<Purchase>, c: Chain, sent: seq<Tx>)
    requires LedgerOk(all, c, sent) && ValidChain(c)
    ensures LandedLamports(sent, c) <= MaySpendInAll(all, c)
  {
    LandedIsOnRecord(all, c, sent);
    LandedIsMaySpend(all, c);
  }

  lemma {:induction false} LandedJoined(a: seq<Purchase>, b: seq<Purchase>, c: Chain)
    ensures LandedIn(a + b, c) == LandedIn(a, c) + LandedIn(b, c)
  {
    if b == [] {
      assert a + b == a;
    } else {
      assert (a + b)[..|a + b| - 1] == a + b[..|b| - 1];
      LandedJoined(a, b[..|b| - 1], c);
    }
  }

  lemma {:induction false} MaySpendShrinks(all: seq<Purchase>, c: Chain, d: Chain)
    requires Extends(c, d)
    ensures MaySpendInAll(all, d) <= MaySpendInAll(all, c)
  {
    if all != [] {
      MaySpendShrinks(all[..|all| - 1], c, d);
      var p := all[|all| - 1];
      if p.pending.Some? {
        DeadStaysDead(c, d, p.pending.value);
      }
    }
  }

  lemma {:induction false} MaySpendIsPlanned(all: seq<Purchase>, c: Chain)
    ensures MaySpendInAll(all, c) <= Planned(all)
  {
    if all != [] {
      MaySpendIsPlanned(all[..|all| - 1], c);
    }
  }

  lemma {:induction false} MaySpendJoined(a: seq<Purchase>, b: seq<Purchase>, c: Chain)
    ensures MaySpendInAll(a + b, c) == MaySpendInAll(a, c) + MaySpendInAll(b, c)
  {
    if b == [] {
      assert a + b == a;
    } else {
      assert (a + b)[..|a + b| - 1] == a + b[..|b| - 1];
      MaySpendJoined(a, b[..|b| - 1], c);
    }
  }

  // --- Signing again too early ---------------------------------------------------------

  /** Signing a purchase again is safe exactly when the transaction signed before is dead:
      otherwise there is a future in which both succeed. */
  lemma SafeToSignAgain(c: Chain, t: Tx, u: Tx)
    requires ValidChain(c) && t != u && u !in c.landed && u !in c.neverLeft && c.height < u.limit
    ensures Dead(c, t) <==> forall d | Extends(c, d) :: !(Succeeded(d, t) && Succeeded(d, u))
  {
    if Dead(c, t) {
      forall d | Extends(c, d) ensures !Succeeded(d, t) {
        DeadStaysDead(c, d, t);
      }
    } else {
      var next := Landing(c.height + 1, true);
      var d := Chain(c.height + 1, if t in c.landed then c.landed[u := next] else c.landed[t := next][u := next],
                     c.neverLeft);
      assert Extends(c, d) && Succeeded(d, t) && Succeeded(d, u);
    }
  }

  /** An error seen in a block that is only processed is taken for final, and the purchase
      is signed again; if that block is left, both transactions buy. */
  lemma ProcessedFailureBuysTwice(lamports: nat)
    ensures var t := Tx(0, 5, Effect.Purchase(0, lamports)); var u := Tx(1, 5, Effect.Purchase(0, lamports));
            var p := Purchase.Purchase(lamports, InProgress, None, Some(t), Some(5), [t], 1);
            var c := Chain(0, map[], {}); var d := Chain(1, map[t := Landing(1, true), u := Landing(1, true)], {});
            && LedgerOk([p], c, [t]) && MayAnswer(c, 0, t, Found(true, Processed))
            && Verdict(Some(5), Some(0), Some(Found(true, Processed))) == Outcome.Failed
            && Extends(c, d) && LandedFor([t, u], d, 0) == 2 * lamports
  {
    var t := Tx(0, 5, Effect.Purchase(0, lamports));
    var u := Tx(1, 5, Effect.Purchase(0, lamports));
    assert [t, u][..1] == [t] && [t][..0] == [];
    var d := Chain(1, map[t := Landing(1, true), u := Landing(1, true)], {});
    assert LandedFor([t], d, 0) == lamports;
  }
}
