/** How many tokens a coin's purchases really brought
    (offchain/orchestrator/purchaseTokens.ts, state.ts recordPurchaseTokens).
    `all` are the coin's purchases over all its batch files, one after the other. */
module PurchaseTokens {
  import opened Solana
  import opened PurchaseLedger

  // --- Sums over lists of signatures ----------------------------------------------------

  function SumOf(ts: seq<Tx>, f: Tx -> nat): nat {
    if ts == [] then 0 else SumOf(ts[..|ts| - 1], f) + f(ts[|ts| - 1])
  }

  ghost predicate EachOnce(ts: seq<Tx>) {
    forall i, j | 0 <= i < j < |ts| :: ts[i] != ts[j]
  }

  lemma {:induction false} SumWithout(ts: seq<Tx>, f: Tx -> nat, j: nat)
    requires j < |ts|
    ensures SumOf(ts, f) == SumOf(ts[..j] + ts[j + 1..], f) + f(ts[j])
  {
    var n := |ts| - 1;
    if j == n {
      assert ts[..j] + ts[j + 1..] == ts[..n];
    } else {
      SumWithout(ts[..n], f, j);
      var rest := ts[..j] + ts[j + 1..];
      assert rest[..|rest| - 1] == ts[..n][..j] + ts[..n][j + 1..];
    }
  }

  /** Distinct signatures that all stand in `many` come to no more than `many` does. */
  lemma {:induction false} SumSubset(few: seq<Tx>, many: seq<Tx>, f: Tx -> nat, g: Tx -> nat)
    requires EachOnce(few) && forall t | t in few && f(t) > 0 :: t in many
    requires forall t | t in few :: f(t) <= g(t)
    ensures SumOf(few, f) <= SumOf(many, g)
  {
    if few != [] {
      var n := |few| - 1;
      var t := few[n];
      assert t in few && forall u | u in few[..n] :: u in few && u != t;
      if f(t) == 0 {
        SumSubset(few[..n], many, f, g);
      } else {
        var j :| 0 <= j < |many| && many[j] == t;
        SumWithout(many, g, j);
        SumSubset(few[..n], many[..j] + many[j + 1..], f, g);
      }
    }
  }

  // --- Which signatures count ---------------------------------------------------------------

  function AddOnce(ts: seq<Tx>, t: Tx): seq<Tx> {
    if t in ts then ts else ts + [t]
  }

  predicate IsBought(p: Purchase) {
    p.status == Completed && p.signature.Some?
  }

  /** The signatures of the completed purchases. */
  function CompletedSignatures(all: seq<Purchase>): seq<Tx> {
    if all == [] then []
    else
      var before, p := CompletedSignatures(all[..|all| - 1]), all[|all| - 1];
      if IsBought(p) then AddOnce(before, p.signature.value) else before
  }

  function AddAttempts(ts: seq<Tx>, attempts: seq<Tx>, but: Option<Tx>): seq<Tx> {
    if attempts == [] then ts
    else
      var before, t := AddAttempts(ts, attempts[..|attempts| - 1], but), attempts[|attempts| - 1];
      if Some(t) == but then before else AddOnce(before, t)
  }

  /** Every other attempt a purchase sent: whichever landed bought. */
  function PendingSignatures(all: seq<Purchase>): seq<Tx> {
    if all == [] then []
    else
      var before, p := PendingSignatures(all[..|all| - 1]), all[|all| - 1];
      var first := if p.pending.Some? && p.pending != p.signature then AddOnce(before, p.pending.value) else before;
      AddAttempts(first, p.sentAttempts, p.signature)
  }

  predicate Attempted(p: Purchase, t: Tx) {
    Some(t) != p.signature && (p.pending == Some(t) || t in p.sentAttempts)
  }

  /** The signature belongs to a purchase of the coin. */
  ghost predicate Counts(all: seq<Purchase>, t: Tx) {
    exists i :: 0 <= i < |all| && CountsFor(all[i], t)
  }

  predicate CountsFor(p: Purchase, t: Tx) {
    (IsBought(p) && p.signature == Some(t)) || Attempted(p, t)
  }

  function Others(ts: seq<Tx>, completed: seq<Tx>): seq<Tx> {
    if ts == [] then []
    else
      var before, t := Others(ts[..|ts| - 1], completed), ts[|ts| - 1];
      if t in completed then before else before + [t]
  }

  /** The signatures that count, each once. */
  function Counted(all: seq<Purchase>): seq<Tx> {
    CompletedSignatures(all) + Others(PendingSignatures(all), CompletedSignatures(all))
  }

  lemma {:induction false} CompletedAre(all: seq<Purchase>)
    ensures EachOnce(CompletedSignatures(all))
    ensures forall t ::
              t in CompletedSignatures(all) <==> exists i ::
                0 <= i < |all| && IsBought(all[i]) && all[i].signature == Some(t)
  {
    if all != [] {
      var n := |all| - 1;
      CompletedAre(all[..n]);
      forall t ensures t in CompletedSignatures(all) <==> exists i ::
        0 <= i < |all| && IsBought(all[i]) && all[i].signature == Some(t) {
        assert (exists i :: 0 <= i < |all| && IsBought(all[i]) && all[i].signature == Some(t)) <==>
               (exists i :: 0 <= i < n && IsBought(all[..n][i]) && all[..n][i].signature == Some(t))
               || (IsBought(all[n]) && all[n].signature == Some(t));
      }
    }
  }

  lemma {:induction false} AttemptsAre(ts: seq<Tx>, attempts: seq<Tx>, but: Option<Tx>)
    requires EachOnce(ts)
    ensures var r := AddAttempts(ts, attempts, but);
            EachOnce(r) && forall t :: t in r <==> t in ts || (t in attempts && Some(t) != but)
  {
    if attempts != [] {
      var n := |attempts| - 1;
      AttemptsAre(ts, attempts[..n], but);
      assert attempts == attempts[..n] + [attempts[n]];
    }
  }

  lemma {:induction false} PendingAre(all: seq<Purchase>)
    ensures EachOnce(PendingSignatures(all))
    ensures forall t :: t in PendingSignatures(all) <==> exists i :: 0 <= i < |all| && Attempted(all[i], t)
  {
    if all != [] {
      var n := |all| - 1;
      PendingAre(all[..n]);
      var before, p := PendingSignatures(all[..n]), all[n];
      var first := if p.pending.Some? && p.pending != p.signature then AddOnce(before, p.pending.value) else before;
      AttemptsAre(first, p.sentAttempts, p.signature);
      forall t ensures t in PendingSignatures(all) <==> exists i :: 0 <= i < |all| && Attempted(all[i], t) {
        assert (exists i :: 0 <= i < |all| && Attempted(all[i], t))
          <==> (exists i :: 0 <= i < n && Attempted(all[..n][i], t)) || Attempted(p, t);
      }
    }
  }

  lemma {:induction false} OthersAre(ts: seq<Tx>, completed: seq<Tx>)
    requires EachOnce(ts)
    ensures EachOnce(Others(ts, completed)) && forall t :: t in Others(ts, completed) <==> t in ts && t !in completed
  {
    if ts != [] {
      var n := |ts| - 1;
      OthersAre(ts[..n], completed);
      assert ts == ts[..n] + [ts[n]] && ts[n] !in ts[..n];
    }
  }

  lemma EachOnceJoined(a: seq<Tx>, b: seq<Tx>)
    requires EachOnce(a) && EachOnce(b) && forall t | t in b :: t !in a
    ensures EachOnce(a + b)
  {
    forall i, j | 0 <= i < j < |a + b| ensures (a + b)[i] != (a + b)[j] {
      if i < |a| <= j {
        assert b[j - |a|] in b && a[i] in a;
      }
    }
  }

  /** Each signature once, however many records share it. */
  lemma CountedAre(all: seq<Purchase>)
    ensures EachOnce(Counted(all)) && forall t :: t in Counted(all) <==> Counts(all, t)
  {
    CompletedAre(all);
    PendingAre(all);
    OthersAre(PendingSignatures(all), CompletedSignatures(all));
    EachOnceJoined(CompletedSignatures(all), Others(PendingSignatures(all), CompletedSignatures(all)));
    forall t ensures t in Counted(all) <==> Counts(all, t) {
      if Counts(all, t) {
        var i :| 0 <= i < |all| && CountsFor(all[i], t);
      }
      if t in CompletedSignatures(all) {
        var i :| 0 <= i < |all| && IsBought(all[i]) && all[i].signature == Some(t);
        assert CountsFor(all[i], t);
      } else if t in PendingSignatures(all) {
        var i :| 0 <= i < |all| && Attempted(all[i], t);
        assert CountsFor(all[i], t);
      }
    }
  }

  // --- What is known to have been bought ----------------------------------------------------

  function RecordedOf(recorded: map<Tx, nat>): Tx -> nat {
    (t: Tx) => if t in recorded then recorded[t] else 0
  }

  function Known(all: seq<Purchase>, recorded: map<Tx, nat>): nat {
    SumOf(Counted(all), RecordedOf(recorded))
  }

  /** The signatures of a list that have not been read. */
  function Unread(ts: seq<Tx>, recorded: map<Tx, nat>): seq<Tx> {
    if ts == [] then []
    else
      var before, t := Unread(ts[..|ts| - 1], recorded), ts[|ts| - 1];
      if t in recorded then before else before + [t]
  }

  /** The sum over a list of signatures, and what of it is still to be read. */
  method ReadSoFar(ts: seq<Tx>, recorded: map<Tx, nat>) returns (known: nat, unread: seq<Tx>)
    ensures known == SumOf(ts, RecordedOf(recorded)) && unread == Unread(ts, recorded)
  {
    known, unread := 0, [];
    for i := 0 to |ts|
      invariant known == SumOf(ts[..i], RecordedOf(recorded)) && unread == Unread(ts[..i], recorded)
    {
      assert ts[..i + 1][..i] == ts[..i];
      if ts[i] !in recorded {
        unread := unread + [ts[i]];
      } else {
        known := known + recorded[ts[i]];
      }
    }
    assert ts[..|ts|] == ts;
  }

  lemma {:induction false} SumJoined(a: seq<Tx>, b: seq<Tx>, f: Tx -> nat)
    ensures SumOf(a + b, f) == SumOf(a, f) + SumOf(b, f)
  {
    if b == [] {
      assert a + b == a;
    } else {
      assert (a + b)[..|a + b| - 1] == a + b[..|b| - 1];
      SumJoined(a, b[..|b| - 1], f);
    }
  }

  method TokensBought(all: seq<Purchase>, recorded: map<Tx, nat>)
    returns (known: nat, unread: seq<Tx>, unreadPending: seq<Tx>)
    ensures known == Known(all, recorded)
    ensures unread == Unread(CompletedSignatures(all), recorded)
    ensures unreadPending == Unread(Others(PendingSignatures(all), CompletedSignatures(all)), recorded)
  {
    var completed := CompletedSignatures(all);
    var pending := Others(PendingSignatures(all), completed);
    known, unread := ReadSoFar(completed, recorded);
    var more;
    more, unreadPending := ReadSoFar(pending, recorded);
    known := known + more;
    SumJoined(completed, pending, RecordedOf(recorded));
  }

  // --- Never more than was really bought ------------------------------------------------------

  /** What a transaction has brought, if it landed; `brings` is what each brings. */
  function Brought(c: Chain, brings: Tx -> nat): Tx -> nat {
    (t: Tx) => if t.effect.Purchase? && Succeeded(c, t) then brings(t) else 0
  }

  function BoughtOnChain(sent: seq<Tx>, c: Chain, brings: Tx -> nat): nat {
    SumOf(sent, Brought(c, brings))
  }

  /** Nothing recorded is more than was brought. A signature written off as zero may
      still turn out to have brought something. */
  ghost predicate Truthful(recorded: map<Tx, nat>, c: Chain, brings: Tx -> nat) {
    forall t | t in recorded :: recorded[t] <= Brought(c, brings)(t)
  }

  /** What is known is a lower bound of what was really bought. */
  lemma KnownIsBought(all: seq<Purchase>, recorded: map<Tx, nat>, sent: seq<Tx>, c: Chain, brings: Tx -> nat)
    requires LedgerOk(all, c, sent) && Truthful(recorded, c, brings)
    ensures Known(all, recorded) <= BoughtOnChain(sent, c, brings)
  {
    CountedAre(all);
    forall t | t in Counted(all) ensures t in sent && RecordedOf(recorded)(t) <= Brought(c, brings)(t) {
      CountedIsSigned(all, sent, c, t);
    }
    SumSubset(Counted(all), sent, RecordedOf(recorded), Brought(c, brings));
  }

  lemma CountedIsSigned(all: seq<Purchase>, sent: seq<Tx>, c: Chain, t: Tx)
    requires LedgerOk(all, c, sent) && Counts(all, t)
    ensures t in sent
  {
    var i :| 0 <= i < |all| && CountsFor(all[i], t);
    assert PurchaseOk(all[i], i, c, sent);
  }

  /** And with nothing left to read, and nothing written off that landed after all, it
      is exactly what was bought: looking at the coin's own signatures misses none. */
  lemma KnownIsExact(all: seq<Purchase>, recorded: map<Tx, nat>, sent: seq<Tx>, c: Chain, brings: Tx -> nat)
    requires LedgerOk(all, c, sent) && ValidChain(c) && Truthful(recorded, c, brings)
    requires Unread(Counted(all), recorded) == []
    requires forall t | t in recorded && Counts(all, t) :: recorded[t] == Brought(c, brings)(t)
    ensures Known(all, recorded) == BoughtOnChain(sent, c, brings)
  {
    KnownIsBought(all, recorded, sent, c, brings);
    CountedAre(all);
    SentOnce(sent);
    forall t | t in sent && Brought(c, brings)(t) > 0
      ensures t in Counted(all) && Brought(c, brings)(t) <= RecordedOf(recorded)(t)
    {
      assert OnRecord(t, all, c);
      var id := t.effect.purchase;
      assert PurchaseOk(all[id], id, c, sent);
      assert all[id].pending == Some(t);
      assert CountsFor(all[id], t);
      AllRead(Counted(all), recorded, t);
    }
    AtMost(sent, Counted(all), Brought(c, brings), RecordedOf(recorded));
  }

  lemma SentOnce(sent: seq<Tx>)
    requires forall i | 0 <= i < |sent| :: sent[i].nonce == i
    ensures EachOnce(sent)
  {
  }

  lemma {:induction false} AllRead(ts: seq<Tx>, recorded: map<Tx, nat>, t: Tx)
    requires Unread(ts, recorded) == [] && t in ts
    ensures t in recorded
  {
    var n := |ts| - 1;
    if t != ts[n] {
      assert ts == ts[..n] + [ts[n]];
      AllRead(ts[..n], recorded, t);
    }
  }

  lemma AtMost(few: seq<Tx>, many: seq<Tx>, f: Tx -> nat, g: Tx -> nat)
    requires EachOnce(few) && forall t | t in few && f(t) > 0 :: t in many && f(t) <= g(t)
    ensures SumOf(few, f) <= SumOf(many, g)
  {
    SumSubset(few, many, f, g);
  }

  // --- It never shrinks -------------------------------------------------------------------------

  /** Nothing recorded is lost or changed, and whatever counted still counts: what is
      known does not decrease. */
  lemma KnownGrows(before: seq<Purchase>, after: seq<Purchase>, recorded: map<Tx, nat>, more: map<Tx, nat>)
    requires forall t :: Counts(before, t) ==> Counts(after, t)
    requires forall t | t in recorded :: t in more && more[t] == recorded[t]
    ensures Known(before, recorded) <= Known(after, more)
  {
    CountedAre(before);
    CountedAre(after);
    SumSubset(Counted(before), Counted(after), RecordedOf(recorded), RecordedOf(more));
  }

  /** A purchase that signs another attempt, is marked completed by its last one, or
      changes in anything but its signatures, loses no signature. */
  lemma NothingUncounted(all: seq<Purchase>, id: nat, p: Purchase)
    requires id < |all|
    requires forall t | t in all[id].sentAttempts :: t in p.sentAttempts
    requires p.pending == all[id].pending || all[id].pending.None? || all[id].pending.value in p.sentAttempts
    requires IsBought(all[id]) ==> IsBought(p) && p.signature == all[id].signature
    requires p.signature == all[id].signature || IsBought(p)
    ensures forall t :: Counts(all, t) ==> Counts(all[id := p], t)
  {
    forall t | Counts(all, t) ensures Counts(all[id := p], t) {
      var i :| 0 <= i < |all| && CountsFor(all[i], t);
      assert CountsFor(all[id := p][i], t);
    }
  }

  /** So neither a new attempt nor a completion makes the known amount smaller. */
  lemma AttemptsAndCompletionKeepKnown(all: seq<Purchase>, id: nat, t: Tx, recorded: map<Tx, nat>)
    requires id < |all| && !IsBought(all[id]) && all[id].signature.None?
    requires all[id].pending
             == (if all[id].sentAttempts == [] then None else Some(all[id].sentAttempts[|all[id].sentAttempts| - 1]))
    ensures Known(all, recorded) <= Known(all[id := WithAttempt(all[id], t)], recorded)
    ensures all[id].pending.Some? ==>
              var done := all[id].(status := Completed, signature := all[id].pending, attempts := all[id].attempts + 1);
              Known(all, recorded) <= Known(all[id := done], recorded)
  {
    NothingUncounted(all, id, WithAttempt(all[id], t));
    KnownGrows(all, all[id := WithAttempt(all[id], t)], recorded, recorded);
    if all[id].pending.Some? {
      var done := all[id].(status := Completed, signature := all[id].pending, attempts := all[id].attempts + 1);
      NothingUncounted(all, id, done);
      KnownGrows(all, all[id := done], recorded, recorded);
    }
  }

  // --- Reading --------------------------------------------------------------------------------------

  /** What the round keeps of the purchases read. */
  class TokenRecord {
    var purchaseTokens: map<Tx, nat>

    constructor ()
      ensures purchaseTokens == map[]
    {
      purchaseTokens := map[];
    }

    /** Never overwrites what is known. */
    method RecordPurchaseTokens(signatures: seq<Tx>, tokens: map<Tx, nat>)
      requires forall t :: t in tokens <==> t in signatures
      modifies this
      ensures forall t | t in old(purchaseTokens) :: t in purchaseTokens && purchaseTokens[t] == old(purchaseTokens)[t]
      ensures forall t | t in tokens && t !in old(purchaseTokens) ::
                t in purchaseTokens && purchaseTokens[t] == tokens[t]
      ensures forall t | t in purchaseTokens :: t in old(purchaseTokens) || t in tokens
    {
      for i := 0 to |signatures|
        invariant forall t | t in old(purchaseTokens) ::
                    t in purchaseTokens && purchaseTokens[t] == old(purchaseTokens)[t]
        invariant forall j | 0 <= j < i && signatures[j] !in old(purchaseTokens) ::
                    signatures[j] in purchaseTokens && purchaseTokens[signatures[j]] == tokens[signatures[j]]
        invariant forall t | t in purchaseTokens && t !in old(purchaseTokens) ::
                    t in tokens && purchaseTokens[t] == tokens[t]
      {
        if signatures[i] !in purchaseTokens {
          purchaseTokens := purchaseTokens[signatures[i] := tokens[signatures[i]]];
        }
      }
    }
  }

  /** A node's answer about one signature: the request failed, it has no such
      transaction, or this is what the transaction changed. */
  datatype Effect = Unanswered | NotFound | Found(delta: int)

  /** What a node may answer: a transaction it has moved what it really moved. */
  predicate MayRead(c: Chain, brings: Tx -> nat, t: Tx, effect: Effect) {
    effect.Found? ==> t in c.landed && effect.delta == Brought(c, brings)(t)
  }

  predicate IsCompleted(all: seq<Purchase>, t: Tx) {
    exists i :: 0 <= i < |all| && IsBought(all[i]) && all[i].signature == Some(t)
  }

  /** The answer is enough to put a figure on record. */
  ghost predicate Settling(all: seq<Purchase>, t: Tx, effect: Effect, longAgo: bool) {
    effect.Found? || (effect.NotFound? && longAgo && !IsCompleted(all, t))
  }

  /** Reads what has not been read: `effects` are the node's answers, and `longAgo` says
      which attempts were last touched too long ago to land any more. Just the signatures
      that count and were not read are put on record: what the node answered for, and as
      zero an attempt it does not have that was signed long ago. */
  method Refresh(record: TokenRecord, all: seq<Purchase>, effects: Tx -> Effect, longAgo: Tx -> bool, ghost c: Chain,
                 ghost brings: Tx -> nat)
    requires Truthful(record.purchaseTokens, c, brings)
    requires forall t :: MayRead(c, brings, t, effects(t))
    modifies record
    ensures Truthful(record.purchaseTokens, c, brings)
    ensures forall t | t in old(record.purchaseTokens) ::
              t in record.purchaseTokens && record.purchaseTokens[t] == old(record.purchaseTokens)[t]
    ensures forall t | t !in old(record.purchaseTokens) ::
              t in record.purchaseTokens <==> Counts(all, t) && Settling(all, t, effects(t), longAgo(t))
    ensures forall t | t !in old(record.purchaseTokens) && t in record.purchaseTokens ::
              record.purchaseTokens[t] == if effects(t).Found? then Brought(c, brings)(t) else 0
    ensures Known(all, old(record.purchaseTokens)) <= Known(all, record.purchaseTokens)
    ensures (forall t | Counts(all, t) && t !in old(record.purchaseTokens) ::
               Settling(all, t, effects(t), longAgo(t))) ==>
              Unread(Counted(all), record.purchaseTokens) == []
  {
    hide Counts, IsCompleted, Counted, CompletedSignatures, PendingSignatures, Others, Unread, Known;
    var known, unread, unreadPending := TokensBought(all, record.purchaseTokens);
    var wanted := unread + unreadPending;
    WantedAre(all, record.purchaseTokens);
    var found: map<Tx, nat>, signatures: seq<Tx> := map[], [];
    for i := 0 to |wanted|
      invariant forall t :: t in found <==> t in signatures
      invariant forall t :: t in found <==> t in wanted[..i] && Settling(all, t, effects(t), longAgo(t))
      invariant forall t | t in found :: found[t] == if effects(t).Found? then Brought(c, brings)(t) else 0
    {
      var t, pending := wanted[i], i >= |unread|;
      assert IsCompleted(all, t) <==> !pending by {
        if pending { assert t == unreadPending[i - |unread|]; } else { assert t == unread[i]; }
      }
      assert MayRead(c, brings, t, effects(t));
      assert wanted[..i + 1] == wanted[..i] + [t];
      if effects(t).Found? {
        found := found[t := if effects(t).delta > 0 then effects(t).delta else 0];
        signatures := signatures + [t];
      } else if effects(t).NotFound? && pending && longAgo(t) {
        found := found[t := 0];
        signatures := signatures + [t];
      }
    }
    assert wanted[..|wanted|] == wanted;
    record.RecordPurchaseTokens(signatures, found);
    KnownGrows(all, all, old(record.purchaseTokens), record.purchaseTokens);
    CountedAre(all);
    AllAreRead(Counted(all), record.purchaseTokens);
  }

  /** What is asked about is what counts and has not been read: completed purchases in
      the first list, other attempts in the second. */
  lemma WantedAre(all: seq<Purchase>, recorded: map<Tx, nat>)
    ensures var unread := Unread(CompletedSignatures(all), recorded);
            var pending := Unread(Others(PendingSignatures(all), CompletedSignatures(all)), recorded);
            && (forall t :: t in unread + pending <==> Counts(all, t) && t !in recorded)
            && (forall t | t in unread :: IsCompleted(all, t)) && forall t | t in pending :: !IsCompleted(all, t)
  {
    CountedAre(all);
    CompletedAre(all);
    PendingAre(all);
    OthersAre(PendingSignatures(all), CompletedSignatures(all));
    UnreadAre(CompletedSignatures(all), recorded);
    UnreadAre(Others(PendingSignatures(all), CompletedSignatures(all)), recorded);
  }

  lemma {:induction false} UnreadAre(ts: seq<Tx>, recorded: map<Tx, nat>)
    ensures forall t :: t in Unread(ts, recorded) <==> t in ts && t !in recorded
  {
    if ts != [] {
      var n := |ts| - 1;
      UnreadAre(ts[..n], recorded);
      assert ts == ts[..n] + [ts[n]];
    }
  }

  lemma AllAreRead(ts: seq<Tx>, recorded: map<Tx, nat>)
    ensures (forall t | t in ts :: t in recorded) ==> Unread(ts, recorded) == []
  {
    UnreadAre(ts, recorded);
    assert Unread(ts, recorded) != [] ==> Unread(ts, recorded)[0] in Unread(ts, recorded);
  }
}
