/** The chain the buyer works against, and the world the process lives in.

  A signed transaction carries its blockhash limit inside the signed message, so
  the limit is part of its identity. The chain is adversarial: between any two
  awaits it may grow by any number of blocks and include any transaction that
  was ever signed, at any height up to that transaction's limit, at most once,
  with or without an error. */
module Solana {
  datatype Option<+T> = None | Some(value: T)

  /** What a transaction does if it runs without an error. `purchase` is the number of
      the purchase it is signed for; `pay` maps the number of a delivery record to the
      raw units the transfer takes from the keeper. */
  datatype Effect =
    | Purchase(purchase: nat, lamports: nat)
    | Burn(raw: nat)
    | Delivery(pay: map<nat, nat>)

  datatype Tx = Tx(nonce: nat, limit: nat, effect: Effect)

  datatype Landing = Landing(height: nat, ok: bool)

  /** The canonical chain: its height and where each included transaction sits.
      `neverLeft` are the signed transactions that were never handed to any node
      and no longer will be: too large to serialize, say. */
  datatype Chain = Chain(height: nat, landed: map<Tx, Landing>, neverLeft: set<Tx>)

  predicate ValidChain(c: Chain) {
    && (forall t | t in c.landed :: c.landed[t].height <= c.height && c.landed[t].height <= t.limit)
    && (forall t | t in c.landed :: t !in c.neverLeft)
  }

  /** `d` is a later state of the chain `c`: blocks are only ever added. */
  predicate Extends(c: Chain, d: Chain) {
    && ValidChain(d)
    && c.height <= d.height
    && c.neverLeft <= d.neverLeft
    && (forall t | t in c.landed :: t in d.landed && d.landed[t] == c.landed[t])
    && (forall t | t in d.landed :: t in c.landed || c.height < d.landed[t].height)
  }

  predicate Succeeded(c: Chain, t: Tx) {
    t in c.landed && c.landed[t].ok
  }

  predicate FailedOnChain(c: Chain, t: Tx) {
    t in c.landed && !c.landed[t].ok
  }

  /** The transaction can no longer do anything: see `DeadMeansNever`. */
  predicate Dead(c: Chain, t: Tx) {
    FailedOnChain(c, t) || t in c.neverLeft || (t !in c.landed && t.limit <= c.height)
  }

  lemma ExtendsTransitive(a: Chain, b: Chain, c: Chain)
    requires Extends(a, b) && Extends(b, c)
    ensures Extends(a, c)
  {
  }

  /** `Dead` is exactly "succeeds in no future of this chain". */
  lemma DeadMeansNever(c: Chain, t: Tx)
    requires ValidChain(c)
    ensures Dead(c, t) <==> forall d | Extends(c, d) :: !Succeeded(d, t)
  {
    if !Dead(c, t) {
      var d := if t in c.landed then c
               else Chain(c.height + 1, c.landed[t := Landing(c.height + 1, true)], c.neverLeft);
      assert Extends(c, d) && Succeeded(d, t);
    }
  }

  lemma DeadStaysDead(c: Chain, d: Chain, t: Tx)
    requires Extends(c, d)
    ensures Dead(c, t) ==> Dead(d, t)
    ensures Succeeded(c, t) ==> Succeeded(d, t)
    ensures Succeeded(c, t) ==> !Dead(d, t)
  {
  }

  // --- What became of a signature (solana/signatureOutcome.ts) ---------------

  datatype Outcome = Landed | Absent | Failed | Unknown

  datatype Level = Processed | Confirmed | Finalized

  datatype Status = NotFound | Found(err: bool, level: Level)

  const EXPIRY_MARGIN_BLOCKS: nat := 32

  /** The decision, over the two reads. `None` for a read is a request that threw;
      the height is only read when a limit was given. */
  function Verdict(limit: Option<nat>, height: Option<nat>, status: Option<Status>): Outcome {
    if limit.Some? && height.None? then Unknown
    else match status
      case None => Unknown
      case Some(NotFound) =>
        if limit.Some? && height.value <= limit.value + EXPIRY_MARGIN_BLOCKS then Unknown else Absent
      case Some(Found(err, level)) =>
        if err then Failed
        else if level == Processed then Unknown
        else Landed
  }

  /** The two reads tell: both were answered, and the transaction was found at a level that
      counts or with an error, or is missing past its limit and the margin. */
  predicate Tells(limit: Option<nat>, height: Option<nat>, status: Option<Status>) {
    && status.Some? && (limit.Some? ==> height.Some?)
    && match status.value
       case NotFound => limit.Some? ==> limit.value + EXPIRY_MARGIN_BLOCKS < height.value
       case Found(err, level) => err || level != Processed
  }

  /** A status a node may give that has applied the canonical blocks up to `root`.
      What it calls confirmed or finalized is canonical. A transaction it calls
      processed may sit in a fork that the chain then leaves. */
  predicate MayAnswer(c: Chain, root: nat, t: Tx, status: Status) {
    match status
    case NotFound => t !in c.landed || root < c.landed[t].height
    case Found(err, level) => level == Processed || (t in c.landed && c.landed[t].ok == !err)
  }

  /** The rule in one place: `height` was finalized on `before`, the status came
      later, from a node at most the margin (or even one block more) behind that
      height. Then "absent" is final. */
  lemma AbsentIsFinal(before: Chain, c: Chain, d: Chain, t: Tx, height: nat, root: nat, status: Status)
    requires ValidChain(before) && Extends(before, c) && Extends(c, d)
    requires height <= before.height && height <= root + EXPIRY_MARGIN_BLOCKS + 1
    requires MayAnswer(c, root, t, status)
    requires Verdict(Some(t.limit), Some(height), Some(status)) == Absent
    ensures Dead(c, t) && t !in d.landed
  {
    assert height > t.limit + EXPIRY_MARGIN_BLOCKS;
  }

  /** That is the whole slack: one block further behind, and a transaction that
      has already landed is called absent. */
  lemma MarginIsTight(t: Tx)
    requires 0 < t.limit
    ensures exists c, root: nat, height: nat ::
              && ValidChain(c) && Succeeded(c, t)
              && height <= c.height && height == root + EXPIRY_MARGIN_BLOCKS + 2
              && MayAnswer(c, root, t, NotFound)
              && Verdict(Some(t.limit), Some(height), Some(NotFound)) == Absent
  {
    var height := t.limit + EXPIRY_MARGIN_BLOCKS + 1;
    var c := Chain(height, map[t := Landing(t.limit, true)], {});
    var root: nat := t.limit - 1;
    assert ValidChain(c) && Succeeded(c, t) && MayAnswer(c, root, t, NotFound);
    assert Verdict(Some(t.limit), Some(height), Some(NotFound)) == Absent;
    assert height == root + EXPIRY_MARGIN_BLOCKS + 2;
  }

  /** Without a limit "absent" says nothing about the future: any transaction whose
      limit is still ahead is called absent and may land in the next block. */
  lemma AbsentWithoutALimit(c: Chain, t: Tx, root: nat)
    requires ValidChain(c) && t !in c.landed && t !in c.neverLeft
    ensures MayAnswer(c, root, t, NotFound) && Verdict(None, None, Some(NotFound)) == Absent
    ensures c.height < t.limit <==> exists d :: Extends(c, d) && Succeeded(d, t)
  {
    DeadMeansNever(c, t);
  }

  /** "Landed" is always a success, and stays one. "Failed" is final exactly for
      an error reported at `confirmed` or above: the code returns it at
      `processed` as well, and such a block may be left for a fork in which the
      same transaction runs without an error. */
  lemma LandedAndFailedAreFinal(c: Chain, d: Chain, t: Tx, root: nat, limit: Option<nat>, height: Option<nat>,
                                status: Status)
    requires ValidChain(c) && Extends(c, d)
    requires MayAnswer(c, root, t, status)
    ensures Verdict(limit, height, Some(status)) == Landed ==> Succeeded(d, t)
    ensures Verdict(limit, height, Some(status)) == Failed && status.level != Processed ==> Dead(d, t)
    ensures status.Found? && status.level != Processed && (limit.Some? ==> height.Some?) ==>
              && (Verdict(limit, height, Some(status)) == Landed <==> Succeeded(c, t))
              && (Verdict(limit, height, Some(status)) == Failed <==> FailedOnChain(c, t))
  {
  }

  /** And from the chain to the answer. The answer is "unknown" exactly when the reads do
      not tell. A transaction found at `confirmed` or above is called landed exactly if it
      succeeded and failed exactly if it ran into an error; one that is not found is
      absent, and past its own limit it is then in no future of the chain. */
  lemma WhatTheChainSays(before: Chain, c: Chain, t: Tx, root: nat, limit: Option<nat>, height: Option<nat>,
                         status: Option<Status>)
    requires ValidChain(before) && Extends(before, c)
    requires status.Some? ==> MayAnswer(c, root, t, status.value)
    ensures Verdict(limit, height, status) != Unknown <==> Tells(limit, height, status)
    ensures Tells(limit, height, status) && status.value.Found? && status.value.level != Processed ==>
              && (Verdict(limit, height, status) == Landed <==> Succeeded(c, t))
              && (Verdict(limit, height, status) == Failed <==> FailedOnChain(c, t))
    ensures Tells(limit, height, status) && status.value.NotFound? ==> Verdict(limit, height, status) == Absent
    ensures Tells(limit, height, status) && status.value.NotFound? && limit == Some(t.limit)
            && height.value <= before.height && height.value <= root + EXPIRY_MARGIN_BLOCKS + 1 ==>
              Dead(c, t)
  {
    if Tells(limit, height, status) && status.value.NotFound? && limit == Some(t.limit)
       && height.value <= before.height && height.value <= root + EXPIRY_MARGIN_BLOCKS + 1 {
      AbsentIsFinal(before, c, c, t, height.value, root, status.value);
    }
  }

  lemma ProcessedFailureIsNotFinal(t: Tx)
    requires 0 < t.limit
    ensures exists c, d ::
              && ValidChain(c) && Extends(c, d) && MayAnswer(c, 0, t, Found(true, Processed))
              && Verdict(Some(t.limit), Some(c.height), Some(Found(true, Processed))) == Failed
              && Succeeded(d, t)
  {
    var c := Chain(0, map[], {});
    var d := Chain(1, map[t := Landing(1, true)], {});
    assert MayAnswer(c, 0, t, Found(true, Processed)) && Extends(c, d);
  }

  predicate OnlySigned(c: Chain, sent: seq<Tx>) {
    (forall t | t in c.landed :: t in sent) && (forall t | t in c.neverLeft :: t in sent)
  }

  /** How sending a signed transaction and waiting for it can end. `Rejected` are
      the errors that say nothing is in flight: it failed on chain, a program
      refused it, or it never left. */
  datatype Report = Confirmed | Rejected | Unconfirmed

  predicate MayReport(c: Chain, t: Tx, report: Report) {
    match report
    case Confirmed => Succeeded(c, t)
    case Rejected => Dead(c, t)
    case Unconfirmed => true
  }

  // --- What the keeper holds of the coin ----------------------------------------------

  /** Really destroyed: every signed burn that ran without an error. */
  function BurnedOnChain(sent: seq<Tx>, c: Chain): nat {
    if sent == [] then 0
    else
      var t := sent[|sent| - 1];
      BurnedOnChain(sent[..|sent| - 1], c) + if t.effect.Burn? && Succeeded(c, t) then t.effect.raw else 0
  }

  predicate Pays(t: Tx, id: nat) {
    t.effect.Delivery? && id in t.effect.pay
  }

  /** Really taken from the keeper for one record. */
  function Paid(sent: seq<Tx>, c: Chain, id: nat): nat {
    if sent == [] then 0
    else
      var t := sent[|sent| - 1];
      Paid(sent[..|sent| - 1], c, id) + if Pays(t, id) && Succeeded(c, t) then t.effect.pay[id] else 0
  }

  /** Everything that has left the keeper in deliveries. */
  function PaidToAll(sent: seq<Tx>, c: Chain, n: nat): nat {
    if n == 0 then 0 else PaidToAll(sent, c, n - 1) + Paid(sent, c, n - 1)
  }

  /** What the keeper really holds of the coin. */
  function KeeperBalance(bought: nat, sent: seq<Tx>, c: Chain, records: nat): int {
    bought - BurnedOnChain(sent, c) - PaidToAll(sent, c, records)
  }

  ghost predicate TrueBalance(balance: Option<nat>, held: int) {
    balance == Some(if held < 0 then 0 else held)
  }

  // --- The world: chain, signatures given out, crashes ------------------------

  /** Everything outside the process. Each method that stands for an await returns
      whether the process died there. `mishaps` counts what went wrong so far: a crash, a
      request that failed, an answer of "do not know", a transaction not confirmed. What
      a run without mishaps comes to is stated by comparing two readings of it. */
  class World {
    var chain: Chain
    /** Every transaction ever signed, in signing order. Nothing else can land. */
    var sent: seq<Tx>
    /** Raw tokens the coin's purchases have brought so far. */
    var bought: nat
    ghost var mishaps: nat
    /** How many of them were the process dying. */
    ghost var deaths: nat
    /** The balance last read, if that request was answered. */
    ghost var read: Option<nat>
    /** The finalized height and the status last read, if those requests were answered. */
    ghost var finalized: Option<nat>
    ghost var status: Option<Status>
    /** The transactions whose fate the chain did not tell when it was asked. */
    ghost var untold: set<Tx>
    /** Whether the token account last looked up was there. */
    ghost var account: bool

    ghost predicate Valid()
      reads this
    {
      && ValidChain(chain) && OnlySigned(chain, sent)
      && (forall i | 0 <= i < |sent| :: sent[i].nonce == i)
    }

    constructor ()
      ensures Valid() && sent == [] && bought == 0 && mishaps == 0 && deaths == 0
    {
      chain := Chain(0, map[], {});
      sent := [];
      bought, mishaps, deaths, read := 0, 0, 0, None;
      finalized, status, untold, account := None, None, {}, false;
    }

    /** An await: the chain moves on as it likes, purchases in flight may bring
        tokens, and the process may die. */
    method Await() returns (crashed: bool)
      requires Valid()
      modifies this
      ensures Valid() && sent == old(sent)
      ensures Extends(old(chain), chain) && old(bought) <= bought
      ensures read == old(read) && mishaps == if crashed then old(mishaps) + 1 else old(mishaps)
      ensures finalized == old(finalized) && status == old(status) && untold == old(untold) && account == old(account)
      ensures deaths == old(deaths) + (if crashed then 1 else 0)
    {
      assert Extends(chain, chain) && OnlySigned(chain, sent);
      var c: Chain :| Extends(chain, c) && OnlySigned(c, sent);
      var b: nat :| bought <= b;
      assert Extends(chain, c) && OnlySigned(c, sent);
      chain := c;
      bought := b;
      crashed := *;
      if crashed { mishaps, deaths := mishaps + 1, deaths + 1; }
    }

    /** Whether a token account is there. */
    method HasAccount() returns (has: bool)
      requires Valid()
      modifies this`account
      ensures Valid() && has == account
    {
      has := *;
      account := has;
    }

    /** A request of which only matters whether it is answered. */
    method Ask() returns (answered: bool)
      requires Valid()
      modifies this`mishaps
      ensures Valid() && mishaps == if answered then old(mishaps) else old(mishaps) + 1
    {
      answered := *;
      if !answered { mishaps := mishaps + 1; }
    }

    /** The keeper's balance of the coin, as some node has it: perhaps stale. A balance
        that is not the truth is a mishap. */
    method ReadBalance(records: nat) returns (balance: Option<nat>, crashed: bool)
      requires Valid()
      modifies this
      ensures Valid() && sent == old(sent) && old(mishaps) <= mishaps
      ensures Extends(old(chain), chain) && old(bought) <= bought
      ensures read == balance
      ensures mishaps == old(mishaps) <==> !crashed && TrueBalance(balance, KeeperBalance(bought, sent, chain, records))
      ensures deaths == old(deaths) + (if crashed then 1 else 0)
    {
      crashed := Await();
      balance := *;
      read := balance;
      if !crashed && !TrueBalance(balance, KeeperBalance(bought, sent, chain, records)) { mishaps := mishaps + 1; }
    }

    /** The same, from a look-up that gives the truth or nothing. */
    method ReadHeld(records: nat) returns (balance: Option<nat>)
      requires Valid()
      modifies this`read, this`mishaps
      ensures Valid() && read == balance
      ensures balance.Some? ==> TrueBalance(balance, KeeperBalance(bought, sent, chain, records))
      ensures mishaps == if balance.Some? then old(mishaps) else old(mishaps) + 1
    {
      var answered := Ask();
      var held := KeeperBalance(bought, sent, chain, records);
      balance := if answered then Some(if held < 0 then 0 else held) else None;
      read := balance;
    }

    /** The keeper's balance of SOL, shared with other coins: any figure, or none. One that
        does not cover what is needed is a mishap. */
    method ReadSol(needed: nat) returns (balance: Option<nat>, crashed: bool)
      requires Valid()
      modifies this
      ensures Valid() && sent == old(sent)
      ensures Extends(old(chain), chain) && old(bought) <= bought
      ensures read == balance
      ensures mishaps == old(mishaps)
                         + if crashed || balance.None? || balance.value < needed then 1 else 0
      ensures deaths == old(deaths) + (if crashed then 1 else 0)
    {
      crashed := Await();
      balance := *;
      read := balance;
      if !crashed && (balance.None? || balance.value < needed) { mishaps := mishaps + 1; }
    }

    /** Signs a transaction. From here on it may land, whatever the process does. */
    method Sign(effect: Effect) returns (t: Tx)
      requires Valid()
      modifies this
      ensures Valid() && sent == old(sent) + [t] && chain == old(chain) && bought == old(bought)
      ensures mishaps == old(mishaps) && read == old(read)
      ensures t.effect == effect && t.nonce == |old(sent)| && t !in old(sent) && t !in chain.landed
              && t !in chain.neverLeft
      ensures deaths == old(deaths)
    {
      var limit: nat := *;
      t := Tx(|sent|, limit, effect);
      sent := sent + [t];
    }

    /** Sends a signed transaction and waits for its confirmation. */
    method Send(t: Tx) returns (report: Report, crashed: bool)
      requires Valid()
      modifies this
      ensures Valid() && sent == old(sent)
      ensures Extends(old(chain), chain) && old(bought) <= bought
      ensures MayReport(chain, t, report) && read == old(read)
      ensures old(mishaps) <= mishaps && (mishaps == old(mishaps) <==> !crashed && report == Report.Confirmed)
      ensures deaths == old(deaths) + (if crashed then 1 else 0)
    {
      crashed := Await();
      assert MayReport(chain, t, Unconfirmed);
      report :| MayReport(chain, t, report);
      assert MayReport(chain, t, report);
      if !crashed && report != Report.Confirmed { mishaps := mishaps + 1; }
    }

    /** The same for a transaction with `size` transfers in it. One that is refused for
        its size is no mishap while it can be halved. */
    method SendMany(t: Tx, size: nat) returns (report: Report, tooLarge: bool, crashed: bool)
      requires Valid()
      modifies this
      ensures Valid() && sent == old(sent)
      ensures Extends(old(chain), chain) && old(bought) <= bought
      ensures MayReport(chain, t, report) && read == old(read)
      ensures old(mishaps) <= mishaps
      ensures mishaps == old(mishaps) <==>
                !crashed && (report == Report.Confirmed || (report == Rejected && tooLarge && size > 1))
      ensures deaths == old(deaths) + (if crashed then 1 else 0)
    {
      ghost var before := mishaps;
      report, crashed := Send(t);
      tooLarge := *;
      if !crashed && report == Rejected && tooLarge && size > 1 { mishaps := before; }
    }

    /** Building a transaction with `size` transfers: it may fail, or be too large. */
    method Build(size: nat) returns (built: bool, tooLarge: bool)
      requires Valid()
      modifies this`mishaps
      ensures Valid() && old(mishaps) <= mishaps
      ensures mishaps == old(mishaps) <==> built || (tooLarge && size > 1)
    {
      built := *;
      tooLarge := *;
      if !built && !(tooLarge && size > 1) { mishaps := mishaps + 1; }
    }

    /** The finalized height, as some node has it. */
    method ReadHeight() returns (height: Option<nat>)
      requires Valid()
      modifies this`finalized
      ensures Valid() && finalized == height && (height.Some? ==> height.value <= chain.height)
    {
      height := None;
      if * {
        var h: nat :| h <= chain.height;
        height := Some(h);
      }
      finalized := height;
    }

    /** A transaction's status, from a node at most the margin behind the height read. An
        error is taken as reported from a block that stays (see
        `ProcessedFailureIsNotFinal`). Reads that do not tell are a mishap. */
    method ReadStatus(t: Tx, limit: Option<nat>, height: Option<nat>) returns (answer: Option<Status>, ghost root: nat)
      requires Valid()
      modifies this`status, this`mishaps, this`untold
      ensures Valid() && status == answer && (height.Some? ==> height.value <= root + EXPIRY_MARGIN_BLOCKS)
      ensures answer.Some? ==> MayAnswer(chain, root, t, answer.value)
      ensures answer.Some? && answer.value.Found? && answer.value.err ==> answer.value.level != Processed
      ensures if Tells(limit, height, answer) then mishaps == old(mishaps) && untold == old(untold)
              else mishaps == old(mishaps) + 1 && untold == old(untold) + {t}
    {
      root := if height.Some? then height.value else 0;
      answer := None;
      if * {
        var behind: nat :| height.Some? ==> height.value <= behind + EXPIRY_MARGIN_BLOCKS;
        assert MayAnswer(chain, behind, t, Found(false, Processed));
        var s: Status :| MayAnswer(chain, behind, t, s) && (s.Found? && s.err ==> s.level != Processed);
        assert MayAnswer(chain, behind, t, s);
        answer, root := Some(s), behind;
      }
      status := answer;
      if !Tells(limit, height, answer) { mishaps, untold := mishaps + 1, untold + {t}; }
    }

    /** `signatureOutcome` against this chain: the finalized height first, then the
        status, each a separate request that may fail, from nodes at most the margin
        apart. "Unknown" is answered exactly when the reads do not tell. Of a transaction
        found, the answer is landed exactly if it succeeded and failed exactly if it ran
        into an error; of one not found it is absent. */
    method SignatureOutcome(t: Tx, limit: Option<nat>) returns (outcome: Outcome, crashed: bool)
      requires Valid()
      modifies this
      ensures Valid() && sent == old(sent) && read == old(read)
      ensures Extends(old(chain), chain) && old(bought) <= bought
      ensures outcome == Landed ==> Succeeded(chain, t)
      ensures outcome == Failed ==> Dead(chain, t)
      ensures outcome == Absent && limit == Some(t.limit) ==> Dead(chain, t)
      ensures !crashed ==> (outcome != Unknown <==> Tells(limit, finalized, status))
      ensures !crashed && Tells(limit, finalized, status) ==>
                if status.value.Found? then
                  (outcome == Landed <==> Succeeded(chain, t)) && (outcome == Failed <==> FailedOnChain(chain, t))
                else outcome == Absent
      ensures old(mishaps) <= mishaps && (mishaps == old(mishaps) <==> !crashed && outcome != Unknown)
      ensures old(untold) <= untold && (!crashed && outcome == Unknown ==> t in untold)
      ensures account == old(account)
      ensures deaths == old(deaths) + (if crashed then 1 else 0)
    {
      outcome := Unknown;
      crashed := Await();
      if crashed { return; }
      ghost var before := chain;
      var height: Option<nat> := None;
      if limit.Some? {
        height := ReadHeight();
        crashed := Await();
        if crashed { return; }
      }
      var answer;
      ghost var root;
      answer, root := ReadStatus(t, limit, height);
      WhatTheChainSays(before, chain, t, root, limit, height, answer);
      outcome := Verdict(limit, height, answer);
    }
  }
}
