/** What the delivery records of a coin and the chain have to do with each other:
    at most one transaction of a record can still matter, and the record names it
    (offchain/orchestrator/sendRounds.ts). */
module DeliveryLedger {
  import opened Solana
  import opened Shares
  import opened SendRecords

  /** A delivery that has used this many attempts is not tried again. */
  const MAX_SEND_ATTEMPTS: nat := 3

  /** The transaction a record answers for: the one it was completed with, for good,
      or the one whose fate is still to be settled. */
  function Named(r: SendRecord): Option<Tx> {
    if r.signature.Some? then r.signature else r.pending
  }

  /** What that transaction takes from the keeper for this record. */
  function NamedAmount(r: SendRecord): nat {
    if r.signature.Some? then SentFromKeeper(r)
    else if r.amount.Some? then r.amount.value
    else 0
  }

  /** What a record has taken from the keeper or still may. */
  ghost function Potential(r: SendRecord, c: Chain): nat {
    if Named(r).Some? && !Dead(c, Named(r).value) then NamedAmount(r) else 0
  }

  /** The record of a delivery whose last transaction turns out to have arrived.
      `amount` is what was put into that transaction, the gross figure. */
  function Arrived(r: SendRecord): SendRecord {
    r.(status := Completed, signature := r.pending, pending := None, pendingLimit := None, gross := r.amount)
  }

  /** The delivery had arrived. */
  predicate HasArrived(before: SendRecord, now: SendRecord) {
    before.pending.Some? && now == Arrived(before)
  }

  ghost predicate RecordOk(r: SendRecord, id: nat, c: Chain, sent: seq<Tx>) {
    && (Named(r).Some? ==>
          Named(r).value in sent && Pays(Named(r).value, id) && NamedAmount(r) == Named(r).value.effect.pay[id])
    && (r.signature.Some? ==>
        Succeeded(c, r.signature.value) && r.pending.None? && (r.status == Completed || r.status == AtaMismatch))
    && (r.status == Completed ==> r.signature.Some? && r.amount.Some?)
    && (r.pending.Some? ==> r.amount.Some? && r.pendingLimit == Some(r.pending.value.limit))
    && (r.status == Satisfied || r.status == AtaMismatch ==> r.pending.None?)
    && r.attempts <= MAX_SEND_ATTEMPTS
    && (r.status == Pending || r.status == InProgress ==> r.attempts < MAX_SEND_ATTEMPTS)
  }

  /** Every signed transaction that could still pay a record is the one it names. */
  ghost predicate Accounted(t: Tx, sends: seq<SendRecord>, c: Chain) {
    forall id: nat :: Pays(t, id) ==> id < |sends| && (Dead(c, t) || Named(sends[id]) == Some(t))
  }

  ghost predicate SendsOk(sends: seq<SendRecord>, c: Chain, sent: seq<Tx>) {
    && (forall i | 0 <= i < |sent| :: sent[i].nonce == i)
    && (forall id | 0 <= id < |sends| :: RecordOk(sends[id], id, c, sent))
    && (forall t | t in sent :: Accounted(t, sends, c))
  }

  lemma {:induction false} PaidOnlyBy(sent: seq<Tx>, c: Chain, id: nat, t: Tx)
    requires forall i | 0 <= i < |sent| :: sent[i].nonce == i
    requires Pays(t, id)
    requires forall u | u in sent && Pays(u, id) && Succeeded(c, u) :: u == t
    ensures Paid(sent, c, id) == if t in sent && Succeeded(c, t) then t.effect.pay[id] else 0
  {
    if sent != [] {
      var n := |sent| - 1;
      forall u | u in sent[..n] ensures u in sent {
      }
      PaidOnlyBy(sent[..n], c, id, t);
      assert sent[n] in sent;
      if sent[n] == t {
        assert t !in sent[..n];
      } else {
        assert t in sent ==> t in sent[..n];
      }
    }
  }

  lemma {:induction false} PaidByNone(sent: seq<Tx>, c: Chain, id: nat)
    requires forall u | u in sent && Pays(u, id) :: !Succeeded(c, u)
    ensures Paid(sent, c, id) == 0
  {
    if sent != [] {
      assert sent[|sent| - 1] in sent;
      forall u | u in sent[..|sent| - 1] ensures u in sent {
      }
      PaidByNone(sent[..|sent| - 1], c, id);
    }
  }

  /** A record never takes more than the one transaction it names. */
  lemma PaidIsPotential(sends: seq<SendRecord>, c: Chain, sent: seq<Tx>, id: nat)
    requires SendsOk(sends, c, sent) && ValidChain(c) && id < |sends|
    ensures Paid(sent, c, id) <= Potential(sends[id], c)
  {
    var named := Named(sends[id]);
    assert RecordOk(sends[id], id, c, sent);
    forall u | u in sent && Pays(u, id) && Succeeded(c, u) ensures named == Some(u) {
      assert Accounted(u, sends, c);
    }
    if named.Some? {
      PaidOnlyBy(sent, c, id, named.value);
    } else {
      PaidByNone(sent, c, id);
    }
  }

  /** At most one of all the transactions ever signed for a delivery lands, however
      late: in no future of the chain do two of them succeed. */
  lemma OneDeliveryLands(sends: seq<SendRecord>, c: Chain, d: Chain, sent: seq<Tx>, id: nat, t: Tx, u: Tx)
    requires SendsOk(sends, c, sent) && ValidChain(c) && Extends(c, d)
    requires t in sent && u in sent && Pays(t, id) && Pays(u, id)
    requires Succeeded(d, t) && Succeeded(d, u)
    ensures t == u && id < |sends| && Named(sends[id]) == Some(t)
    ensures Paid(sent, d, id) == t.effect.pay[id] == NamedAmount(sends[id])
  {
    assert Accounted(t, sends, c) && Accounted(u, sends, c);
    DeadStaysDead(c, d, t);
    DeadStaysDead(c, d, u);
    assert RecordOk(sends[id], id, c, sent);
    forall v | v in sent && Pays(v, id) && Succeeded(d, v) ensures v == t {
      assert Accounted(v, sends, c);
      DeadStaysDead(c, d, v);
    }
    PaidOnlyBy(sent, d, id, t);
  }

  // --- What keeps the records in order -----------------------------------------------

  lemma SendsStayOk(sends: seq<SendRecord>, c: Chain, d: Chain, sent: seq<Tx>)
    requires SendsOk(sends, c, sent) && Extends(c, d)
    ensures SendsOk(sends, d, sent)
    ensures forall id | 0 <= id < |sends| :: Potential(sends[id], d) <= Potential(sends[id], c)
  {
    forall id | 0 <= id < |sends| ensures RecordOk(sends[id], id, d, sent) {
      assert RecordOk(sends[id], id, c, sent);
    }
    forall t | t in sent ensures Accounted(t, sends, d) {
      assert Accounted(t, sends, c);
      DeadStaysDead(c, d, t);
    }
  }

  /** Nothing signed for this record is alive: it may be signed again. */
  ghost predicate Idle(sends: seq<SendRecord>, c: Chain, sent: seq<Tx>, id: nat) {
    forall t | t in sent :: Pays(t, id) ==> Dead(c, t)
  }

  lemma IdleIfNothingNamed(sends: seq<SendRecord>, c: Chain, sent: seq<Tx>, id: nat)
    requires SendsOk(sends, c, sent) && id < |sends| && sends[id].signature.None?
    requires sends[id].pending.None? || Dead(c, sends[id].pending.value)
    ensures Idle(sends, c, sent, id)
  {
    forall t | t in sent ensures Pays(t, id) ==> Dead(c, t) {
      assert Accounted(t, sends, c);
    }
  }

  /** One record replaced: in order as long as the new one is, and names whatever may
      still pay it. */
  lemma UpdateOne(sends: seq<SendRecord>, c: Chain, sent: seq<Tx>, id: nat, r: SendRecord)
    requires SendsOk(sends, c, sent) && id < |sends| && RecordOk(r, id, c, sent)
    requires Named(r) == Named(sends[id]) || Idle(sends, c, sent, id)
    ensures SendsOk(sends[id := r], c, sent)
  {
    forall t | t in sent ensures Accounted(t, sends[id := r], c) {
      assert Accounted(t, sends, c);
    }
  }

  /** Other effects signed: nothing here changes. */
  lemma SendsIgnoreOthers(sends: seq<SendRecord>, c: Chain, sent: seq<Tx>, more: seq<Tx>)
    requires SendsOk(sends, c, sent) && sent <= more
    requires forall i | 0 <= i < |more| :: more[i].nonce == i
    requires forall i | |sent| <= i < |more| :: !more[i].effect.Delivery?
    ensures SendsOk(sends, c, more)
  {
    forall t | t in more ensures Accounted(t, sends, c) {
      var i :| 0 <= i < |more| && more[i] == t;
      if i < |sent| {
        assert sent[i] == t;
        assert Accounted(t, sends, c);
      }
    }
    forall id | 0 <= id < |sends| ensures RecordOk(sends[id], id, c, more) {
      assert RecordOk(sends[id], id, c, sent);
      if Named(sends[id]).Some? && Named(sends[id]).value in sent {
        var i :| 0 <= i < |sent| && sent[i] == Named(sends[id]).value;
        assert more[i] == sent[i];
      }
    }
  }
}
