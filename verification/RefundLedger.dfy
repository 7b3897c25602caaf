/** What each coin really cost, read off the chain
    (offchain/orchestrator/refundLedger.ts). Amounts are in lamports; `debits` holds what
    the chain answered, and a signature it holds nothing for is unread. */
module RefundLedger {
  import opened Solana
  import opened Shares
  import opened SendRecords
  import opened CoinState
  import opened PurchaseLedger
  import opened PurchaseTokens

  const ATA_FEE: nat := 2_040_000
  const TX_FEE: nat := 10_000
  const BUY_TX_FEE: nat := 105_000

  datatype BatchFile = BatchFile(hadAta: bool, purchases: seq<Purchase>)

  function Charge(debits: map<Tx, nat>, estimate: nat): Tx -> nat {
    (t: Tx) => if t in debits then debits[t] else estimate
  }

  function AsList(t: Option<Tx>): seq<Tx> { if t.Some? then [t.value] else [] }

  /** A list with every signature once, where it first stands. */
  function Once(ts: seq<Tx>): seq<Tx> {
    if ts == [] then [] else AddOnce(Once(ts[..|ts| - 1]), ts[|ts| - 1])
  }

  lemma {:induction false} OnceIs(ts: seq<Tx>)
    ensures EachOnce(Once(ts)) && forall t :: t in Once(ts) <==> t in ts
  {
    if ts != [] {
      OnceIs(ts[..|ts| - 1]);
      assert ts == ts[..|ts| - 1] + [ts[|ts| - 1]];
    }
  }

  lemma OnceNext(ts: seq<Tx>, t: Tx)
    ensures Once(ts + [t]) == AddOnce(Once(ts), t)
  {
    assert (ts + [t])[..|ts|] == ts;
  }

  /** Two lists of the same signatures, each once, come to the same. */
  lemma SameMembers(a: seq<Tx>, b: seq<Tx>, f: Tx -> nat)
    requires EachOnce(a) && EachOnce(b) && forall t :: t in a <==> t in b
    ensures SumOf(a, f) == SumOf(b, f)
  {
    SumSubset(a, b, f, f);
    SumSubset(b, a, f, f);
  }

  // --- Every signature of the round -----------------------------------------------------

  function SignaturesOfPurchase(p: Purchase): seq<Tx> { AsList(p.signature) + AsList(p.pending) + p.sentAttempts }

  function SignaturesOfPurchases(ps: seq<Purchase>): seq<Tx> {
    if ps == [] then [] else SignaturesOfPurchases(ps[..|ps| - 1]) + SignaturesOfPurchase(ps[|ps| - 1])
  }

  function SignaturesOfSend(s: SendRecord): seq<Tx> { AsList(s.signature) + AsList(s.pending) + s.failedSignatures }

  function SignaturesOfSends(sends: seq<SendRecord>): seq<Tx> {
    if sends == [] then [] else SignaturesOfSends(sends[..|sends| - 1]) + SignaturesOfSend(sends[|sends| - 1])
  }

  function SignaturesOfBurn(b: BurnRecord): seq<Tx> { AsList(b.signature) + AsList(b.pending) }

  function SignaturesOfBurns(burns: seq<BurnRecord>): seq<Tx> {
    if burns == [] then [] else SignaturesOfBurns(burns[..|burns| - 1]) + SignaturesOfBurn(burns[|burns| - 1])
  }

  function AllPurchases(files: seq<BatchFile>): seq<Purchase> {
    if files == [] then [] else AllPurchases(files[..|files| - 1]) + files[|files| - 1].purchases
  }

  method ListPurchases(purchases: seq<Purchase>) returns (found: seq<Tx>)
    ensures found == SignaturesOfPurchases(purchases)
  {
    found := [];
    for i := 0 to |purchases|
      invariant found == SignaturesOfPurchases(purchases[..i])
    {
      assert purchases[..i + 1][..i] == purchases[..i];
      found := found + SignaturesOfPurchase(purchases[i]);
    }
    assert purchases[..|purchases|] == purchases;
  }

  method ListSends(sends: seq<SendRecord>) returns (found: seq<Tx>)
    ensures found == SignaturesOfSends(sends)
  {
    found := [];
    for i := 0 to |sends|
      invariant found == SignaturesOfSends(sends[..i])
    {
      assert sends[..i + 1][..i] == sends[..i];
      found := found + SignaturesOfSend(sends[i]);
    }
    assert sends[..|sends|] == sends;
  }

  method ListBurns(burns: seq<BurnRecord>) returns (found: seq<Tx>)
    ensures found == SignaturesOfBurns(burns)
  {
    found := [];
    for i := 0 to |burns|
      invariant found == SignaturesOfBurns(burns[..i])
    {
      assert burns[..i + 1][..i] == burns[..i];
      found := found + SignaturesOfBurn(burns[i]);
    }
    assert burns[..|burns|] == burns;
  }

  /** Every signature the round may have been charged for. */
  method CollectRoundSignatures(purchases: seq<Purchase>, sends: seq<SendRecord>, burns: seq<BurnRecord>)
    returns (signatures: seq<Tx>)
    ensures signatures == Once(SignaturesOfPurchases(purchases) + SignaturesOfSends(sends) + SignaturesOfBurns(burns))
  {
    var bought := ListPurchases(purchases);
    var sent := ListSends(sends);
    var burned := ListBurns(burns);
    signatures := Once(bought + sent + burned);
  }

  // --- What buying took ---------------------------------------------------------------------

  /** Earlier attempts at a purchase, whatever became of it. */
  function Earlier(p: Purchase): seq<Tx> {
    AddAttempts(if p.pending.Some? && p.pending != p.signature then [p.pending.value] else [], p.sentAttempts,
                p.signature)
  }

  /** A completed purchase is charged what was read, if that is anything; otherwise at the
      ceiling, with the rent of an account it may have had to make. */
  function BoughtCost(p: Purchase, debits: map<Tx, nat>, createsAta: bool): nat
    requires IsBought(p)
  {
    var t := p.signature.value;
    if t in debits && debits[t] > 0 then debits[t] else p.solAmount + BUY_TX_FEE + if createsAta then ATA_FEE else 0
  }

  predicate FirstBought(ps: seq<Purchase>) {
    forall i | 0 <= i < |ps| :: !IsBought(ps[i])
  }

  function CostOf(ps: seq<Purchase>, debits: map<Tx, nat>, createsAta: bool): nat {
    if ps == [] then 0
    else
      var before, p := ps[..|ps| - 1], ps[|ps| - 1];
      CostOf(before, debits, createsAta)
      + (if IsBought(p) then BoughtCost(p, debits, createsAta && FirstBought(before)) else 0)
      + SumOf(Earlier(p), Charge(debits, BUY_TX_FEE))
  }

  predicate ReadInFull(p: Purchase, debits: map<Tx, nat>) {
    && (IsBought(p) ==> p.signature.value in debits && debits[p.signature.value] > 0)
    && forall t | t in Earlier(p) :: t in debits
  }

  method ChargeList(ts: seq<Tx>, debits: map<Tx, nat>, estimate: nat) returns (spent: nat, exact: bool)
    ensures spent == SumOf(ts, Charge(debits, estimate)) && (exact <==> forall t | t in ts :: t in debits)
  {
    spent, exact := 0, true;
    for i := 0 to |ts|
      invariant spent == SumOf(ts[..i], Charge(debits, estimate))
      invariant exact <==> forall j | 0 <= j < i :: ts[j] in debits
    {
      assert ts[..i + 1][..i] == ts[..i];
      if ts[i] in debits {
        spent := spent + debits[ts[i]];
      } else {
        spent := spent + estimate;
        exact := false;
      }
    }
    assert ts[..|ts|] == ts;
  }

  /** What one purchase is charged. */
  method PurchaseSpend(p: Purchase, debits: map<Tx, nat>, createsAta: bool) returns (spent: nat, exact: bool)
    ensures spent == (if IsBought(p) then BoughtCost(p, debits, createsAta) else 0)
            + SumOf(Earlier(p), Charge(debits, BUY_TX_FEE))
    ensures exact <==> ReadInFull(p, debits)
  {
    spent, exact := 0, true;
    if IsBought(p) {
      var t := p.signature.value;
      if t in debits && debits[t] > 0 {
        spent := debits[t];
      } else {
        spent := p.solAmount + BUY_TX_FEE + (if createsAta then ATA_FEE else 0);
        exact := false;
      }
    }
    var earlier, read := ChargeList(Earlier(p), debits, BUY_TX_FEE);
    spent := spent + earlier;
    exact := exact && read;
  }

  /** One batch of a coin. */
  method BatchSpend(batch: BatchFile, debits: map<Tx, nat>) returns (spent: nat, exact: bool)
    ensures spent == CostOf(batch.purchases, debits, !batch.hadAta)
    ensures exact <==> BatchReadInFull(batch.purchases, debits)
  {
    var ps, createsAta, firstCompleted := batch.purchases, !batch.hadAta, true;
    spent, exact := 0, true;
    for i := 0 to |ps|
      invariant spent == CostOf(ps[..i], debits, createsAta) && (firstCompleted <==> FirstBought(ps[..i]))
      invariant exact <==> BatchReadInFull(ps[..i], debits)
    {
      ReadNext(ps, i, debits);
      CostNext(ps, i, debits, createsAta);
      StillFirst(ps, i);
      var cost, read := PurchaseSpend(ps[i], debits, createsAta && firstCompleted);
      spent := spent + cost;
      exact := exact && read;
      firstCompleted := firstCompleted && !IsBought(ps[i]);
    }
    assert ps[..|ps|] == ps;
  }

  predicate BatchReadInFull(ps: seq<Purchase>, debits: map<Tx, nat>) {
    forall i | 0 <= i < |ps| :: ReadInFull(ps[i], debits)
  }

  lemma ReadNext(ps: seq<Purchase>, i: nat, debits: map<Tx, nat>)
    requires i < |ps|
    ensures BatchReadInFull(ps[..i + 1], debits) <==> BatchReadInFull(ps[..i], debits) && ReadInFull(ps[i], debits)
  {
    assert ps[..i + 1] == ps[..i] + [ps[i]];
  }

  lemma CostNext(ps: seq<Purchase>, i: nat, debits: map<Tx, nat>, createsAta: bool)
    requires i < |ps|
    ensures CostOf(ps[..i + 1], debits, createsAta)
            == CostOf(ps[..i], debits, createsAta)
               + (if IsBought(ps[i]) then BoughtCost(ps[i], debits, createsAta && FirstBought(ps[..i])) else 0)
               + SumOf(Earlier(ps[i]), Charge(debits, BUY_TX_FEE))
  {
    assert ps[..i + 1][..i] == ps[..i];
  }

  lemma StillFirst(ps: seq<Purchase>, i: nat)
    requires i < |ps|
    ensures FirstBought(ps[..i + 1]) <==> FirstBought(ps[..i]) && !IsBought(ps[i])
  {
    assert ps[..i + 1] == ps[..i] + [ps[i]];
  }

  function CostOfFiles(files: seq<BatchFile>, debits: map<Tx, nat>): nat {
    if files == [] then 0
    else
      CostOfFiles(files[..|files| - 1], debits)
      + CostOf(files[|files| - 1].purchases, debits, !files[|files| - 1].hadAta)
  }

  predicate FilesReadInFull(files: seq<BatchFile>, debits: map<Tx, nat>) {
    forall f | 0 <= f < |files| :: BatchReadInFull(files[f].purchases, debits)
  }

  /** What buying one coin took from the keeper; with no file left, what was planned. */
  method BuySpend(files: seq<BatchFile>, planned: nat, debits: map<Tx, nat>) returns (spent: nat, exact: bool)
    ensures files == [] ==> spent == planned && !exact
    ensures files != [] ==> spent == CostOfFiles(files, debits) && (exact <==> FilesReadInFull(files, debits))
  {
    if files == [] { return planned, false; }
    spent, exact := 0, true;
    for f := 0 to |files|
      invariant spent == CostOfFiles(files[..f], debits) && (exact <==> FilesReadInFull(files[..f], debits))
    {
      assert files[..f + 1][..f] == files[..f];
      var inBatch, read := BatchSpend(files[f], debits);
      FullToo(files, f, debits);
      spent := spent + inBatch;
      exact := exact && read;
    }
    assert files[..|files|] == files;
  }

  lemma FullToo(files: seq<BatchFile>, f: nat, debits: map<Tx, nat>)
    requires f < |files|
    ensures FilesReadInFull(files[..f + 1], debits) <==>
              FilesReadInFull(files[..f], debits) && BatchReadInFull(files[f].purchases, debits)
  {
    assert files[..f + 1] == files[..f] + [files[f]];
  }

  // --- What delivery took -------------------------------------------------------------------

  /** Wallets one of whose deliveries was read: the rent is inside what was read. */
  function RentKnown(sends: seq<SendRecord>, debits: map<Tx, nat>): set<Wallet> {
    set s | s in sends && exists t :: t in AsList(s.signature) + AsList(s.pending) && t in debits :: s.recipient
  }

  function RentOwed(sends: seq<SendRecord>, debits: map<Tx, nat>): set<Wallet> {
    set s | s in sends && s.hadAtaAtStart == Some(false) && s.recipient !in RentKnown(sends, debits) :: s.recipient
  }

  /** The rent of an account is estimated for exactly the wallets that had none and none of
      whose deliveries was read. */
  lemma RentOwedExactly(sends: seq<SendRecord>, debits: map<Tx, nat>, w: Wallet)
    ensures w in RentOwed(sends, debits) <==>
            && (exists s | s in sends :: s.recipient == w && s.hadAtaAtStart == Some(false))
            && (forall s | s in sends && s.recipient == w ::
                  && (s.signature.Some? ==> s.signature.value !in debits)
                  && (s.pending.Some? ==> s.pending.value !in debits))
  {
    forall s | s in sends && s.recipient == w
      ensures (exists t :: t in AsList(s.signature) + AsList(s.pending) && t in debits) <==>
              (s.signature.Some? && s.signature.value in debits) || (s.pending.Some? && s.pending.value in debits)
    {
      if s.signature.Some? { assert s.signature.value in AsList(s.signature) + AsList(s.pending); }
      if s.pending.Some? { assert s.pending.value in AsList(s.signature) + AsList(s.pending); }
    }
  }

  /** Each signature once, however many records share it. */
  function DeliverySignatures(sends: seq<SendRecord>, burns: seq<BurnRecord>): seq<Tx> {
    Once(SignaturesOfSends(sends) + SignaturesOfBurns(burns))
  }

  function DeliverySpend(sends: seq<SendRecord>, burns: seq<BurnRecord>, debits: map<Tx, nat>): nat {
    SumOf(DeliverySignatures(sends, burns), Charge(debits, TX_FEE)) + |RentOwed(sends, debits)| * 2_040_000
  }

  lemma SumAddOnce(ts: seq<Tx>, t: Tx, f: Tx -> nat)
    ensures SumOf(AddOnce(ts, t), f) == SumOf(ts, f) + if t in ts then 0 else f(t)
  {
    assert (ts + [t])[..|ts|] == ts;
  }

  /** The first `i` signatures of `ts` are charged, those not seen before. */
  ghost predicate ChargedSoFar(before: seq<Tx>, ts: seq<Tx>, i: nat, debits: map<Tx, nat>, seen: set<Tx>, spent: nat,
                               exact: bool) {
    && i <= |ts|
    && (forall t :: t in seen <==> t in before + ts[..i])
    && SumOf(Once(before), Charge(debits, TX_FEE)) + spent == SumOf(Once(before + ts[..i]), Charge(debits, TX_FEE))
    && (exact <==> forall t | t in ts[..i] && t !in before :: t in debits)
  }

  lemma OneMoreSeen(before: seq<Tx>, ts: seq<Tx>, i: nat)
    requires i < |ts|
    ensures before + ts[..i + 1] == (before + ts[..i]) + [ts[i]]
    ensures forall t :: t in before + ts[..i + 1] <==> t in before + ts[..i] || t == ts[i]
    ensures forall t :: t in ts[..i + 1] <==> t in ts[..i] || t == ts[i]
  {
    assert ts[..i + 1] == ts[..i] + [ts[i]];
  }

  lemma OneMoreCharged(so: seq<Tx>, t: Tx, f: Tx -> nat)
    ensures SumOf(Once(so + [t]), f) == SumOf(Once(so), f) + if t in so then 0 else f(t)
  {
    OnceIs(so);
    OnceNext(so, t);
    SumAddOnce(Once(so), t, f);
  }

  lemma ChargedNext(before: seq<Tx>, ts: seq<Tx>, i: nat, debits: map<Tx, nat>, seen: set<Tx>, spent: nat, exact: bool)
    requires i < |ts| && ChargedSoFar(before, ts, i, debits, seen, spent, exact)
    ensures ts[i] in seen ==> ChargedSoFar(before, ts, i + 1, debits, seen, spent, exact)
    ensures ts[i] !in seen ==>
              ChargedSoFar(before, ts, i + 1, debits, seen + {ts[i]}, spent + Charge(debits, TX_FEE)(ts[i]), exact
                           && ts[i] in debits)
  {
    OneMoreSeen(before, ts, i);
    OneMoreCharged(before + ts[..i], ts[i], Charge(debits, TX_FEE));
    assert ts[i] in before + ts[..i] <==> ts[i] in before || ts[i] in ts[..i];
  }

  /** The signatures not seen before are charged, each once. */
  method ChargeNew(ts: seq<Tx>, before: seq<Tx>, seenBefore: set<Tx>, debits: map<Tx, nat>)
    returns (seen: set<Tx>, spent: nat, exact: bool)
    requires forall t :: t in seenBefore <==> t in before
    ensures ChargedSoFar(before, ts, |ts|, debits, seen, spent, exact)
  {
    seen, spent, exact := seenBefore, 0, true;
    assert before + ts[..0] == before;
    for i := 0 to |ts|
      invariant ChargedSoFar(before, ts, i, debits, seen, spent, exact)
    {
      ChargedNext(before, ts, i, debits, seen, spent, exact);
      if ts[i] in seen { continue; }
      seen := seen + {ts[i]};
      if ts[i] in debits {
        spent := spent + debits[ts[i]];
      } else {
        spent := spent + TX_FEE;
        exact := false;
      }
    }
  }

  /** The delivery reserve against what delivery and burning really cost. */
  method DeliverySpent(sends: seq<SendRecord>, burns: seq<BurnRecord>, debits: map<Tx, nat>)
    returns (spent: nat, exact: bool)
    ensures spent == DeliverySpend(sends, burns, debits)
    ensures exact <==> forall t | t in SignaturesOfSends(sends) + SignaturesOfBurns(burns) :: t in debits
  {
    var onSends, onBurns := SignaturesOfSends(sends), SignaturesOfBurns(burns);
    var seen, first, read := ChargeNew(onSends, [], {}, debits);
    assert [] + onSends[..|onSends|] == onSends && onSends[..|onSends|] == onSends;
    var rentOwed := RentOwed(sends, debits);
    var all, second, readToo := ChargeNew(onBurns, onSends, seen, debits);
    assert onBurns[..|onBurns|] == onBurns;
    spent := first + |rentOwed| * ATA_FEE + second;
    exact := read && readToo;
  }

  // --- Every lamport is charged once -------------------------------------------------------------

  /** The signatures a purchase is charged for, each once. */
  function Charged(p: Purchase): seq<Tx> {
    if IsBought(p) then Earlier(p) + [p.signature.value] else Earlier(p)
  }

  function ChargedInAll(ps: seq<Purchase>): seq<Tx> {
    if ps == [] then [] else ChargedInAll(ps[..|ps| - 1]) + Charged(ps[|ps| - 1])
  }

  lemma ChargedIs(p: Purchase)
    requires p.signature.Some? ==> p.status == PurchaseStatus.Completed
    ensures EachOnce(Charged(p)) && forall t :: t in Charged(p) <==> t in SignaturesOfPurchase(p)
  {
    var first := if p.pending.Some? && p.pending != p.signature then [p.pending.value] else [];
    AttemptsAre(first, p.sentAttempts, p.signature);
    if IsBought(p) {
      assert p.signature.value !in Earlier(p);
      EachOnceJoined(Earlier(p), [p.signature.value]);
    }
  }

  /** No signature belongs to two purchases. */
  ghost predicate OwnSignatures(ps: seq<Purchase>) {
    && (forall i | 0 <= i < |ps| :: ps[i].signature.Some? ==> ps[i].status == PurchaseStatus.Completed)
    && forall i, j, t | 0 <= i < j < |ps| && t in SignaturesOfPurchase(ps[i]) :: t !in SignaturesOfPurchase(ps[j])
  }

  ghost predicate Belongs(ps: seq<Purchase>, t: Tx) {
    exists i :: 0 <= i < |ps| && t in SignaturesOfPurchase(ps[i])
  }

  lemma BelongsNext(ps: seq<Purchase>, p: Purchase, t: Tx)
    ensures Belongs(ps + [p], t) <==> Belongs(ps, t) || t in SignaturesOfPurchase(p)
  {
    var more := ps + [p];
    if Belongs(ps, t) {
      var i :| 0 <= i < |ps| && t in SignaturesOfPurchase(ps[i]);
      assert more[i] == ps[i];
    }
    assert more[|ps|] == p;
    if Belongs(more, t) {
      var i :| 0 <= i < |more| && t in SignaturesOfPurchase(more[i]);
      assert i < |ps| ==> ps[i] == more[i];
    }
  }

  lemma {:induction false} MemberOfAll(ps: seq<Purchase>, t: Tx)
    ensures t in SignaturesOfPurchases(ps) <==> Belongs(ps, t)
  {
    if ps != [] {
      var n := |ps| - 1;
      MemberOfAll(ps[..n], t);
      BelongsNext(ps[..n], ps[n], t);
      assert ps == ps[..n] + [ps[n]];
    }
  }

  lemma NotEarlier(ps: seq<Purchase>, n: nat, t: Tx)
    requires OwnSignatures(ps) && n < |ps| && t in SignaturesOfPurchase(ps[n])
    ensures !Belongs(ps[..n], t)
  {
    forall i | 0 <= i < n ensures t !in SignaturesOfPurchase(ps[..n][i]) {
      assert ps[..n][i] == ps[i];
    }
  }

  lemma {:induction false} ChargedInAllIs(ps: seq<Purchase>)
    requires OwnSignatures(ps)
    ensures EachOnce(ChargedInAll(ps)) && forall t :: t in ChargedInAll(ps) <==> t in SignaturesOfPurchases(ps)
  {
    if ps != [] {
      var n := |ps| - 1;
      ChargedInAllIs(ps[..n]);
      ChargedIs(ps[n]);
      forall t | t in Charged(ps[n]) ensures t !in ChargedInAll(ps[..n]) {
        NotEarlier(ps, n, t);
        MemberOfAll(ps[..n], t);
      }
      EachOnceJoined(ChargedInAll(ps[..n]), Charged(ps[n]));
    }
  }

  lemma PurchaseCost(p: Purchase, debits: map<Tx, nat>, createsAta: bool, f: Tx -> nat)
    requires ReadInFull(p, debits) && f == Charge(debits, 0)
    ensures (if IsBought(p) then BoughtCost(p, debits, createsAta) else 0)
            + SumOf(Earlier(p), Charge(debits, BUY_TX_FEE))
            == SumOf(Charged(p), f)
  {
    SameCharges(Earlier(p), Charge(debits, BUY_TX_FEE), f);
    if IsBought(p) {
      var t := p.signature.value;
      assert (Earlier(p) + [t])[..|Earlier(p)|] == Earlier(p);
    }
  }

  lemma {:induction false} CostIsCharged(ps: seq<Purchase>, debits: map<Tx, nat>, createsAta: bool, f: Tx -> nat)
    requires BatchReadInFull(ps, debits) && f == Charge(debits, 0)
    ensures CostOf(ps, debits, createsAta) == SumOf(ChargedInAll(ps), f)
  {
    if ps != [] {
      var n := |ps| - 1;
      CostIsCharged(ps[..n], debits, createsAta, f);
      PurchaseCost(ps[n], debits, createsAta && FirstBought(ps[..n]), f);
      SumJoined(ChargedInAll(ps[..n]), Charged(ps[n]), f);
    }
  }

  lemma {:induction false} SameCharges(ts: seq<Tx>, f: Tx -> nat, g: Tx -> nat)
    requires forall t | t in ts :: f(t) == g(t)
    ensures SumOf(ts, f) == SumOf(ts, g)
  {
    if ts != [] {
      assert ts[|ts| - 1] in ts && forall t | t in ts[..|ts| - 1] :: t in ts;
      SameCharges(ts[..|ts| - 1], f, g);
    }
  }

  lemma {:induction false} FilesCost(files: seq<BatchFile>, debits: map<Tx, nat>, f: Tx -> nat)
    requires FilesReadInFull(files, debits) && f == Charge(debits, 0)
    ensures CostOfFiles(files, debits) == SumOf(ChargedInAll(AllPurchases(files)), f)
  {
    if files != [] {
      var n := |files| - 1;
      FullToo(files, n, debits);
      assert files[..n + 1] == files;
      FilesCost(files[..n], debits, f);
      CostIsCharged(files[n].purchases, debits, !files[n].hadAta, f);
      ChargedJoined(AllPurchases(files[..n]), files[n].purchases);
      SumJoined(ChargedInAll(AllPurchases(files[..n])), ChargedInAll(files[n].purchases), f);
    }
  }

  lemma Regrouped(a: seq<Tx>, b: seq<Tx>, c: seq<Tx>)
    ensures (a + b) + c == a + (b + c) && a + [] == a
  {
  }

  lemma {:induction false} ChargedJoined(a: seq<Purchase>, b: seq<Purchase>)
    ensures ChargedInAll(a + b) == ChargedInAll(a) + ChargedInAll(b)
  {
    if b == [] {
      assert a + b == a;
      Regrouped(ChargedInAll(a), [], []);
    } else {
      var n := |b| - 1;
      ChargedPurchase(a + b, a + b[..n], b[n]);
      ChargedJoined(a, b[..n]);
      Regrouped(ChargedInAll(a), ChargedInAll(b[..n]), Charged(b[n]));
    }
  }

  lemma ChargedPurchase(ps: seq<Purchase>, before: seq<Purchase>, p: Purchase)
    requires ps == before + [p]
    ensures ChargedInAll(ps) == ChargedInAll(before) + Charged(p)
  {
    assert ps[..|ps| - 1] == before;
  }

  lemma SumsAgree(bought: seq<Tx>, buying: seq<Tx>, rest: seq<Tx>, f: Tx -> nat)
    requires EachOnce(bought) && (forall t :: t in bought <==> t in buying) && forall t | t in buying :: t !in rest
    ensures SumOf(bought, f) + SumOf(Once(rest), f) == SumOf(Once(buying + rest), f)
  {
    OnceIs(rest);
    OnceIs(buying + rest);
    EachOnceJoined(bought, Once(rest));
    SumJoined(bought, Once(rest), f);
    SameMembers(bought + Once(rest), Once(buying + rest), f);
  }

  /** Purchases on a sound record share no signature: each transaction is signed for one. */
  lemma SoundPurchasesOwnTheirs(all: seq<Purchase>, c: Chain, sent: seq<Tx>)
    requires LedgerOk(all, c, sent)
    ensures OwnSignatures(all)
  {
    forall i | 0 <= i < |all|
      ensures all[i].signature.Some? ==> all[i].status == PurchaseStatus.Completed
      ensures forall t | t in SignaturesOfPurchase(all[i]) :: BuysFor(t, i)
    {
      assert PurchaseOk(all[i], i, c, sent);
      forall t | t in SignaturesOfPurchase(all[i]) ensures BuysFor(t, i) {
        assert t in all[i].sentAttempts;
      }
    }
  }

  /** When the chain could be read in full, what the coins' buying and the delivery are
      charged is the sum over the round's signatures, each counted exactly once however
      many records share it, plus the rent of wallets none of whose deliveries was
      read. */
  lemma EveryLamportOnce(files: seq<BatchFile>, sends: seq<SendRecord>, burns: seq<BurnRecord>, debits: map<Tx, nat>)
    requires OwnSignatures(AllPurchases(files)) && FilesReadInFull(files, debits)
    requires forall t | t in SignaturesOfSends(sends) + SignaturesOfBurns(burns) :: t in debits
    requires forall t | t in SignaturesOfPurchases(AllPurchases(files)) ::
               t !in SignaturesOfSends(sends) + SignaturesOfBurns(burns)
    ensures var all :=
            Once(SignaturesOfPurchases(AllPurchases(files)) + SignaturesOfSends(sends) + SignaturesOfBurns(burns));
            CostOfFiles(files, debits) + DeliverySpend(sends, burns, debits)
            == SumOf(all, Charge(debits, 0)) + |RentOwed(sends, debits)| * 2_040_000
  {
    var ps, f := AllPurchases(files), Charge(debits, 0);
    var buying, rest := SignaturesOfPurchases(ps), SignaturesOfSends(sends) + SignaturesOfBurns(burns);
    FilesCost(files, debits, f);
    ChargedInAllIs(ps);
    SumsAgree(ChargedInAll(ps), buying, rest, f);
    OnceIs(rest);
    SameCharges(Once(rest), Charge(debits, TX_FEE), f);
    Regrouped(buying, SignaturesOfSends(sends), SignaturesOfBurns(burns));
  }
}
