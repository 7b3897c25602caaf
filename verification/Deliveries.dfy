/** One delivery round of one coin: the fate of stuck signatures, then the batches
    (offchain/orchestrator/sendRounds.ts). */
module Deliveries {
  import opened Solana
  import opened Shares
  import opened SendRecords
  import opened CoinState
  import opened Deficits
  import opened DeliveryLedger
  import opened Burns
  import opened Conservation

  /** The records and the chain agree. */
  ghost predicate Sound(coin: Coin, world: World)
    reads coin, world
  {
    && world.Valid()
    && SendsOk(coin.sends, world.chain, world.sent)
    && BurnsOk(coin.burns, coin.burnedRaw, world.chain, world.sent)
  }

  /** No record takes more than it did before. */
  ghost predicate NoWorse(before: seq<SendRecord>, c: Chain, after: seq<SendRecord>, d: Chain) {
    && SameRecipients(before, after)
    && forall i | 0 <= i < |before| :: Potential(after[i], d) <= Potential(before[i], c)
  }

  lemma SoundOverTime(coin: Coin, world: World, c: Chain)
    requires SendsOk(coin.sends, c, world.sent) && BurnsOk(coin.burns, coin.burnedRaw, c, world.sent)
    requires world.Valid() && Extends(c, world.chain)
    ensures Sound(coin, world) && NoWorse(coin.sends, c, coin.sends, world.chain)
  {
    SendsStayOk(coin.sends, c, world.chain, world.sent);
    BurnsStayOk(coin.burns, coin.burnedRaw, c, world.chain, world.sent);
  }

  /** An await during which no record changes. */
  method Wait(coin: Coin, world: World) returns (crashed: bool)
    requires Sound(coin, world)
    modifies world
    ensures Sound(coin, world) && world.sent == old(world.sent)
    ensures Extends(old(world.chain), world.chain) && old(world.bought) <= world.bought
            && old(world.mishaps) <= world.mishaps && world.read == old(world.read)
    ensures NoWorse(coin.sends, old(world.chain), coin.sends, world.chain)
    ensures (world.mishaps == old(world.mishaps) ==> !crashed) && world.read == old(world.read)
    ensures world.deaths == old(world.deaths) + (if crashed then 1 else 0)
  {
    crashed := world.Await();
    SoundOverTime(coin, world, old(world.chain));
  }

  // --- Stuck signatures ------------------------------------------------------------

  datatype SendVerdict = Send | Settled | UnknownFate

  /** Nothing of this record is in flight and nothing has been delivered by it. */
  predicate Free(r: SendRecord) {
    r.pending.None? && r.signature.None?
  }

  /** Closes a delivery if its previous transaction did arrive after all. */
  method CheckPendingSend(coin: Coin, world: World, id: nat) returns (verdict: SendVerdict, crashed: bool)
    requires Sound(coin, world) && id < |coin.sends| && coin.sends[id].status == Pending
    modifies coin`sends, world
    ensures Sound(coin, world) && world.sent == old(world.sent)
    ensures Extends(old(world.chain), world.chain) && old(world.bought) <= world.bought
            && old(world.mishaps) <= world.mishaps && world.read == old(world.read)
    ensures NoWorse(old(coin.sends), old(world.chain), coin.sends, world.chain)
    ensures coin.sends == old(coin.sends)[id := coin.sends[id]]
    ensures crashed || old(coin.sends)[id].pending.None? ==> coin.sends == old(coin.sends)
    ensures !crashed && verdict == Send ==> coin.sends[id].status == Pending && Free(coin.sends[id])
    ensures !crashed && verdict == Send && old(coin.sends)[id].pending.Some? ==>
              Dead(world.chain, old(coin.sends)[id].pending.value)
    ensures !crashed && verdict == Settled ==> coin.sends[id] == Arrived(old(coin.sends)[id])
    ensures !crashed && verdict == UnknownFate ==> coin.sends[id] == old(coin.sends)[id] && coin.sends[id].pending.Some?
    ensures world.mishaps == old(world.mishaps) ==> !crashed && verdict != UnknownFate
    ensures world.deaths == old(world.deaths) + (if crashed then 1 else 0)
  {
    var send := coin.sends[id];
    assert RecordOk(send, id, world.chain, world.sent);
    if send.pending.None? { return Send, false; }
    var outcome;
    outcome, crashed := world.SignatureOutcome(send.pending.value, send.pendingLimit);
    SoundOverTime(coin, world, old(world.chain));
    if crashed || outcome == Unknown { return UnknownFate, crashed; }
    verdict := CloseOrClear(coin, world, id, outcome);
  }

  /** The fate is known: the record is closed, or free to be sent again. */
  method CloseOrClear(coin: Coin, world: World, id: nat, outcome: Outcome) returns (verdict: SendVerdict)
    requires Sound(coin, world) && id < |coin.sends| && coin.sends[id].status == Pending && coin.sends[id].pending.Some?
    requires outcome != Unknown
    requires if outcome == Landed then Succeeded(world.chain, coin.sends[id].pending.value)
             else Dead(world.chain, coin.sends[id].pending.value)
    modifies coin`sends
    ensures Sound(coin, world) && NoWorse(old(coin.sends), world.chain, coin.sends, world.chain)
    ensures coin.sends == old(coin.sends)[id := coin.sends[id]]
    ensures verdict == Send ==> coin.sends[id].status == Pending && Free(coin.sends[id])
    ensures verdict == if outcome == Landed then Settled else Send
    ensures verdict == Settled ==> coin.sends[id] == Arrived(old(coin.sends)[id])
  {
    var send := coin.sends[id];
    assert RecordOk(send, id, world.chain, world.sent);
    var signature := send.pending.value;
    var after := send.(pending := None, pendingLimit := None);
    if outcome == Landed {
      after := Arrived(send);
    } else {
      IdleIfNothingNamed(coin.sends, world.chain, world.sent, id);
      if outcome == Failed {
        after := after.(failedSignatures := send.failedSignatures + [signature]);
      }
    }
    UpdateOne(coin.sends, world.chain, world.sent, id, after);
    coin.sends := coin.sends[id := after];
    verdict := if outcome == Landed then Settled else Send;
  }

  // --- Changing the records of a batch -------------------------------------------------

  /** The same update for each record of a batch, with no await in between. */
  method UpdateEach(coin: Coin, ids: seq<nat>, f: (SendRecord, nat) -> SendRecord)
    requires Distinct(ids) && ValidIds(coin.sends, ids)
    modifies coin`sends
    ensures |coin.sends| == |old(coin.sends)|
    ensures forall i | 0 <= i < |coin.sends| && i !in ids :: coin.sends[i] == old(coin.sends)[i]
    ensures forall k | 0 <= k < |ids| :: coin.sends[ids[k]] == f(old(coin.sends)[ids[k]], ids[k])
  {
    for k := 0 to |ids|
      invariant |coin.sends| == |old(coin.sends)|
      invariant forall i | 0 <= i < |coin.sends| && i !in ids :: coin.sends[i] == old(coin.sends)[i]
      invariant forall j | k <= j < |ids| :: coin.sends[ids[j]] == old(coin.sends)[ids[j]]
      invariant forall j | 0 <= j < k :: coin.sends[ids[j]] == f(old(coin.sends)[ids[j]], ids[j])
    {
      coin.sends := coin.sends[ids[k] := f(coin.sends[ids[k]], ids[k])];
    }
  }

  lemma UpdateManyOk(before: seq<SendRecord>, after: seq<SendRecord>, c: Chain, sent: seq<Tx>)
    requires SendsOk(before, c, sent) && |before| == |after|
    requires forall id | 0 <= id < |before| :: after[id] == before[id] || RecordOk(after[id], id, c, sent)
    requires forall id | 0 <= id < |before| :: Named(after[id]) == Named(before[id]) || Idle(before, c, sent, id)
    ensures SendsOk(after, c, sent)
  {
    forall id | 0 <= id < |after| ensures RecordOk(after[id], id, c, sent) {
      assert RecordOk(before[id], id, c, sent);
    }
    forall t | t in sent ensures Accounted(t, after, c) {
      assert Accounted(t, before, c);
    }
  }

  // --- The batches, interleaved in any order -----------------------------------------

  datatype Stage = Queued | Building | OnTheWire(t: Tx)

  /** A transaction's worth of deliveries, and how far it has got. */
  datatype Job = Job(entries: seq<nat>, stage: Stage)

  const BATCH: nat := 5

  /** What each of a job's records looks like while the job is where it is. */
  ghost predicate EntryOk(r: SendRecord, id: nat, plan: map<nat, nat>, stage: Stage) {
    && id in plan && r.signature.None?
    && match stage
       case Queued => (r.status == Pending || r.status == InProgress) && r.pending.None?
       case Building => r.status == InProgress && r.pending.None? && r.amount == Some(plan[id])
       case OnTheWire(t) => r.status == InProgress && r.pending == Some(t) && r.amount == Some(plan[id])
  }

  ghost predicate JobOk(job: Job, sends: seq<SendRecord>, plan: map<nat, nat>) {
    && job.entries != [] && Distinct(job.entries) && ValidIds(sends, job.entries)
    && forall k | 0 <= k < |job.entries| :: EntryOk(sends[job.entries[k]], job.entries[k], plan, job.stage)
  }

  /** A record whose job is over: off the wire, and if it was completed it took exactly
      what was planned. `calm` is that nothing went wrong on the way: then it was. */
  ghost predicate Over(r: SendRecord, id: nat, plan: map<nat, nat>, calm: bool) {
    && r.status != InProgress && r.status != Satisfied
    && (r.status == Completed ==> id in plan && SentFromKeeper(r) == plan[id])
    && (calm ==> r.status == Completed)
  }

  /** How much is left to do; the halves of a job that splits are less than it was. */
  function Weight(job: Job): int {
    10 * |job.entries| - match job.stage
                         case Queued => 7
                         case Building => 8
                         case OnTheWire(_) => 9
  }

  /** What a job's step leaves behind: every record it is done with takes no more
      than was planned for it, the rest are in jobs that are smaller. */
  ghost predicate StepOk(before: seq<SendRecord>, after: seq<SendRecord>, c: Chain, plan: map<nat, nat>, job: Job,
                         rest: seq<Job>, calm: bool) {
    && SameRecipients(before, after)
    && (forall i | 0 <= i < |before| && i !in job.entries :: after[i] == before[i])
    && (forall k | 0 <= k < |job.entries| ::
        job.entries[k] < |after| && Potential(after[job.entries[k]], c) <= AmountOf(plan, job.entries[k]))
    && (forall j | 0 <= j < |rest| ::
        JobOk(rest[j], after, plan) && forall i | i in rest[j].entries :: i in job.entries)
    && (|rest| == 2 ==> forall i | i in rest[0].entries :: i !in rest[1].entries)
    && |rest| <= 2 && TotalWeight(rest) < Weight(job)
    && (forall k | 0 <= k < |job.entries| ::
        InSome(rest, job.entries[k]) || Over(after[job.entries[k]], job.entries[k], plan, calm))
  }

  ghost predicate InSome(jobs: seq<Job>, id: nat) {
    exists j :: 0 <= j < |jobs| && id in jobs[j].entries
  }

  function TotalWeight(jobs: seq<Job>): int {
    if jobs == [] then 0 else TotalWeight(jobs[..|jobs| - 1]) + Weight(jobs[|jobs| - 1])
  }

  /** Signatures given out by a step pay only the records of its job. */
  ghost predicate PaysOnly(before: seq<Tx>, after: seq<Tx>, ids: seq<nat>) {
    before <= after && forall i, id: nat | |before| <= i < |after| && Pays(after[i], id) :: id in ids
  }

  function MarkInProgress(plan: map<nat, nat>): (SendRecord, nat) -> SendRecord {
    (r: SendRecord, id: nat) => r.(status := InProgress, amount := Some(AmountOf(plan, id)))
  }

  function MarkSigned(t: Tx): (SendRecord, nat) -> SendRecord {
    (r: SendRecord, id: nat) => r.(pending := Some(t), pendingLimit := Some(t.limit))
  }

  /** `delivered` is what arrived, which a transfer fee makes less than was sent. */
  function MarkDelivered(t: Tx, plan: map<nat, nat>, delivered: map<nat, nat>): (SendRecord, nat) -> SendRecord {
    (r: SendRecord, id: nat) => r.(status := Completed, signature := Some(t), pending := None, pendingLimit := None,
      amount := Some(AmountOf(delivered, id)), gross := Some(AmountOf(plan, id)), attempts := r.attempts + 1)
  }

  function MarkSplit(tried: seq<Tx>): (SendRecord, nat) -> SendRecord {
    (r: SendRecord, id: nat) => r.(pending := None, pendingLimit := None,
                                   failedSignatures := r.failedSignatures + tried)
  }

  function MarkFailed(kind: ErrorClass, pending: Option<Tx>, limit: Option<nat>): (SendRecord, nat) -> SendRecord {
    (r: SendRecord, id: nat) =>
      if kind == NonRetryable then r.(status := Abandoned, errorClass := Some(kind), attempts := r.attempts + 1)
      else r.(status := if r.attempts + 1 >= MAX_SEND_ATTEMPTS then Abandoned else Pending, errorClass := Some(kind),
              attempts := r.attempts + 1, pending := pending, pendingLimit := limit)
  }

  /** A batch's records replaced: in order if each new one is, and still names whatever
      may pay it. */
  lemma EntriesReplaced(before: seq<SendRecord>, after: seq<SendRecord>, c: Chain, sent: seq<Tx>, ids: seq<nat>)
    requires SendsOk(before, c, sent) && |before| == |after| && ValidIds(before, ids)
    requires forall i | 0 <= i < |before| && i !in ids :: after[i] == before[i]
    requires forall k | 0 <= k < |ids| ::
               RecordOk(after[ids[k]], ids[k], c, sent) && SameOwner(before[ids[k]], after[ids[k]])
    requires forall k | 0 <= k < |ids| :: Named(after[ids[k]]) == Named(before[ids[k]]) || Idle(before, c, sent, ids[k])
    ensures SendsOk(after, c, sent) && SameRecipients(before, after)
  {
    forall id | 0 <= id < |before|
      ensures after[id] == before[id] || RecordOk(after[id], id, c, sent)
      ensures Named(after[id]) == Named(before[id]) || Idle(before, c, sent, id)
      ensures SameOwner(before[id], after[id])
    {
      if id in ids {
        var k :| 0 <= k < |ids| && ids[k] == id;
      }
    }
    UpdateManyOk(before, after, c, sent);
  }

  lemma Started(r: SendRecord, id: nat, plan: map<nat, nat>, c: Chain, sent: seq<Tx>)
    requires EntryOk(r, id, plan, Queued) && RecordOk(r, id, c, sent)
    ensures var next := MarkInProgress(plan)(r, id);
            && EntryOk(next, id, plan, Building) && RecordOk(next, id, c, sent) && SameOwner(r, next)
            && Named(next) == Named(r) && Potential(next, c) <= AmountOf(plan, id)
  {
  }

  method StartBatch(coin: Coin, world: World, plan: map<nat, nat>, job: Job) returns (next: Job)
    requires Sound(coin, world) && JobOk(job, coin.sends, plan) && job.stage == Queued
    modifies coin`sends
    ensures Sound(coin, world) && next == Job(job.entries, Building)
    ensures StepOk(old(coin.sends), coin.sends, world.chain, plan, job, [next], true)
  {
    next := Job(job.entries, Building);
    var ids := job.entries;
    UpdateEach(coin, ids, MarkInProgress(plan));
    forall k | 0 <= k < |ids|
      ensures RecordOk(coin.sends[ids[k]], ids[k], world.chain, world.sent)
              && SameOwner(old(coin.sends)[ids[k]], coin.sends[ids[k]])
      ensures Named(coin.sends[ids[k]]) == Named(old(coin.sends)[ids[k]])
              && EntryOk(coin.sends[ids[k]], ids[k], plan, Building)
      ensures Potential(coin.sends[ids[k]], world.chain) <= AmountOf(plan, ids[k])
    {
      assert EntryOk(old(coin.sends)[ids[k]], ids[k], plan, Queued);
      Started(old(coin.sends)[ids[k]], ids[k], plan, world.chain, world.sent);
    }
    EntriesReplaced(old(coin.sends), coin.sends, world.chain, world.sent, ids);
    OneJobLeft(old(coin.sends), coin.sends, world.chain, plan, job, next, true);
  }

  /** The same records in one job that is further on. */
  lemma OneJobLeft(before: seq<SendRecord>, after: seq<SendRecord>, c: Chain, plan: map<nat, nat>, job: Job, next: Job,
                   landed: bool)
    requires SameRecipients(before, after) && next.entries == job.entries && Weight(next) < Weight(job)
    requires forall i | 0 <= i < |before| && i !in job.entries :: after[i] == before[i]
    requires JobOk(next, after, plan)
    requires forall k | 0 <= k < |job.entries| :: Potential(after[job.entries[k]], c) <= AmountOf(plan, job.entries[k])
    ensures StepOk(before, after, c, plan, job, [next], landed)
  {
    assert [next][..0] == [];
    assert forall k | 0 <= k < |job.entries| :: job.entries[k] in [next][0].entries;
  }

  /** Nothing of the batch is left to do. */
  lemma NoJobLeft(before: seq<SendRecord>, after: seq<SendRecord>, c: Chain, plan: map<nat, nat>, job: Job,
                  landed: bool)
    requires SameRecipients(before, after) && job.entries != []
    requires forall i | 0 <= i < |before| && i !in job.entries :: after[i] == before[i]
    requires forall k | 0 <= k < |job.entries| ::
               job.entries[k] < |after| && Potential(after[job.entries[k]], c) <= AmountOf(plan, job.entries[k])
               && Over(after[job.entries[k]], job.entries[k], plan, landed)
    ensures StepOk(before, after, c, plan, job, [], landed)
  {
  }

  lemma SplitUp(sends: seq<SendRecord>, id: nat, plan: map<nat, nat>, stage: Stage, tried: seq<Tx>, c: Chain,
                sent: seq<Tx>)
    requires SendsOk(sends, c, sent) && id < |sends| && EntryOk(sends[id], id, plan, stage) && stage != Queued
    requires stage.OnTheWire? ==> Dead(c, stage.t)
    ensures var r := sends[id]; var next := MarkSplit(tried)(r, id);
            && RecordOk(next, id, c, sent) && SameOwner(r, next) && Idle(sends, c, sent, id)
            && next.status == InProgress && next.pending.None? && next.signature.None? && Potential(next, c) == 0
  {
    assert RecordOk(sends[id], id, c, sent);
    IdleIfNothingNamed(sends, c, sent, id);
  }

  /** A batch too big for one transaction is halved: nothing of it is in flight. */
  method SplitBatch(coin: Coin, world: World, plan: map<nat, nat>, job: Job) returns (rest: seq<Job>)
    requires Sound(coin, world) && JobOk(job, coin.sends, plan) && job.stage != Queued && |job.entries| > 1
    requires job.stage.OnTheWire? ==> Dead(world.chain, job.stage.t)
    modifies coin`sends
    ensures Sound(coin, world) && StepOk(old(coin.sends), coin.sends, world.chain, plan, job, rest, true)
  {
    var knowsSignature := *;
    var tried := if job.stage.OnTheWire? && knowsSignature then [job.stage.t] else [];
    var ids := job.entries;
    UpdateEach(coin, ids, MarkSplit(tried));
    forall k | 0 <= k < |ids|
      ensures RecordOk(coin.sends[ids[k]], ids[k], world.chain, world.sent)
              && SameOwner(old(coin.sends)[ids[k]], coin.sends[ids[k]])
      ensures Idle(old(coin.sends), world.chain, world.sent, ids[k]) && Potential(coin.sends[ids[k]], world.chain) == 0
      ensures coin.sends[ids[k]].status == InProgress && coin.sends[ids[k]].pending.None?
              && coin.sends[ids[k]].signature.None?
    {
      assert EntryOk(old(coin.sends)[ids[k]], ids[k], plan, job.stage);
      SplitUp(old(coin.sends), ids[k], plan, job.stage, tried, world.chain, world.sent);
    }
    EntriesReplaced(old(coin.sends), coin.sends, world.chain, world.sent, ids);
    var mid := (|ids| + 1) / 2;
    rest := [Job(ids[..mid], Queued), Job(ids[mid..], Queued)];
    Halves(old(coin.sends), coin.sends, plan, job, mid);
    TwoJobsLeft(old(coin.sends), coin.sends, world.chain, plan, job, rest);
  }

  lemma TwoJobsLeft(before: seq<SendRecord>, after: seq<SendRecord>, c: Chain, plan: map<nat, nat>, job: Job,
                    rest: seq<Job>)
    requires SameRecipients(before, after) && |rest| == 2 && TotalWeight(rest) < Weight(job)
    requires forall i | 0 <= i < |before| && i !in job.entries :: after[i] == before[i]
    requires forall k | 0 <= k < |job.entries| :: job.entries[k] < |after| && Potential(after[job.entries[k]], c) == 0
    requires JobOk(rest[0], after, plan) && JobOk(rest[1], after, plan)
    requires forall i | i in rest[0].entries :: i in job.entries && i !in rest[1].entries
    requires forall i | i in rest[1].entries :: i in job.entries
    requires forall k | 0 <= k < |job.entries| :: InSome(rest, job.entries[k])
    ensures StepOk(before, after, c, plan, job, rest, true)
  {
  }

  lemma Halves(before: seq<SendRecord>, after: seq<SendRecord>, plan: map<nat, nat>, job: Job, mid: nat)
    requires JobOk(job, before, plan) && job.stage != Queued && 0 < mid < |job.entries| && |before| == |after|
    requires forall k | 0 <= k < |job.entries| ::
               after[job.entries[k]].status == InProgress && after[job.entries[k]].pending.None?
                 && after[job.entries[k]].signature.None?
    ensures var rest := [Job(job.entries[..mid], Queued), Job(job.entries[mid..], Queued)];
            && JobOk(rest[0], after, plan) && JobOk(rest[1], after, plan)
            && (forall i | i in rest[0].entries :: i in job.entries && i !in rest[1].entries)
            && (forall i | i in rest[1].entries :: i in job.entries)
            && (forall k | 0 <= k < |job.entries| :: InSome(rest, job.entries[k]))
            && TotalWeight(rest) < Weight(job)
  {
    var left, right := Job(job.entries[..mid], Queued), Job(job.entries[mid..], Queued);
    forall k | 0 <= k < |job.entries| ensures EntryOk(after[job.entries[k]], job.entries[k], plan, Queued) {
      assert EntryOk(before[job.entries[k]], job.entries[k], plan, job.stage);
    }
    forall k | 0 <= k < |job.entries| ensures InSome([left, right], job.entries[k]) {
      if k < mid {
        assert left.entries[k] == job.entries[k] && job.entries[k] in [left, right][0].entries;
      } else {
        assert right.entries[k - mid] == job.entries[k] && job.entries[k] in [left, right][1].entries;
      }
    }
    assert [left, right][..1] == [left];
    assert TotalWeight([left]) == Weight(left) by { assert [left][..0] == []; }
  }

  lemma FailedOnce(r: SendRecord, id: nat, plan: map<nat, nat>, stage: Stage, kind: ErrorClass, pending: Option<Tx>,
                   limit: Option<nat>, c: Chain, sent: seq<Tx>)
    requires EntryOk(r, id, plan, stage) && stage != Queued && RecordOk(r, id, c, sent)
    requires pending == (if stage.OnTheWire? then Some(stage.t) else None)
    requires pending.Some? ==> limit == Some(pending.value.limit)
    ensures var next := MarkFailed(kind, pending, limit)(r, id);
            && RecordOk(next, id, c, sent) && SameOwner(r, next) && Named(next) == Named(r)
            && Potential(next, c) <= AmountOf(plan, id) && Over(next, id, plan, false)
  {
  }

  /** The batch failed for good or for now. A signature that was given out stays on
      every record; the attempt counts. */
  method FailBatch(coin: Coin, world: World, plan: map<nat, nat>, job: Job) returns (rest: seq<Job>)
    requires Sound(coin, world) && JobOk(job, coin.sends, plan) && job.stage != Queued
    modifies coin`sends
    ensures Sound(coin, world) && StepOk(old(coin.sends), coin.sends, world.chain, plan, job, rest, false)
  {
    var kind: ErrorClass := *;
    var ids := job.entries;
    var pending, limit := coin.sends[ids[0]].pending, coin.sends[ids[0]].pendingLimit;
    assert EntryOk(coin.sends[ids[0]], ids[0], plan, job.stage);
    assert RecordOk(coin.sends[ids[0]], ids[0], world.chain, world.sent);
    UpdateEach(coin, ids, MarkFailed(kind, pending, limit));
    forall k | 0 <= k < |ids|
      ensures RecordOk(coin.sends[ids[k]], ids[k], world.chain, world.sent)
              && SameOwner(old(coin.sends)[ids[k]], coin.sends[ids[k]])
      ensures Named(coin.sends[ids[k]]) == Named(old(coin.sends)[ids[k]])
              && Over(coin.sends[ids[k]], ids[k], plan, false)
      ensures Potential(coin.sends[ids[k]], world.chain) <= AmountOf(plan, ids[k])
    {
      assert EntryOk(old(coin.sends)[ids[k]], ids[k], plan, job.stage);
      FailedOnce(old(coin.sends)[ids[k]], ids[k], plan, job.stage, kind, pending, limit, world.chain, world.sent);
    }
    EntriesReplaced(old(coin.sends), coin.sends, world.chain, world.sent, ids);
    rest := [];
    NoJobLeft(old(coin.sends), coin.sends, world.chain, plan, job, false);
  }

  lemma DeliveredOnce(r: SendRecord, id: nat, plan: map<nat, nat>, t: Tx, delivered: map<nat, nat>, c: Chain,
                      sent: seq<Tx>)
    requires EntryOk(r, id, plan, OnTheWire(t)) && RecordOk(r, id, c, sent) && Succeeded(c, t)
    ensures var next := MarkDelivered(t, plan, delivered)(r, id);
            && RecordOk(next, id, c, sent) && SameOwner(r, next) && Named(next) == Named(r)
            && Potential(next, c) <= AmountOf(plan, id) && Over(next, id, plan, true)
  {
  }

  method DeliverBatch(coin: Coin, world: World, plan: map<nat, nat>, job: Job) returns (rest: seq<Job>)
    requires Sound(coin, world) && JobOk(job, coin.sends, plan) && job.stage.OnTheWire?
             && Succeeded(world.chain, job.stage.t)
    modifies coin`sends
    ensures Sound(coin, world) && StepOk(old(coin.sends), coin.sends, world.chain, plan, job, rest, true)
  {
    var delivered: map<nat, nat> := *;
    var ids := job.entries;
    UpdateEach(coin, ids, MarkDelivered(job.stage.t, plan, delivered));
    forall k | 0 <= k < |ids|
      ensures RecordOk(coin.sends[ids[k]], ids[k], world.chain, world.sent)
              && SameOwner(old(coin.sends)[ids[k]], coin.sends[ids[k]])
      ensures Named(coin.sends[ids[k]]) == Named(old(coin.sends)[ids[k]])
              && Over(coin.sends[ids[k]], ids[k], plan, true)
      ensures Potential(coin.sends[ids[k]], world.chain) <= AmountOf(plan, ids[k])
    {
      assert EntryOk(old(coin.sends)[ids[k]], ids[k], plan, job.stage);
      DeliveredOnce(old(coin.sends)[ids[k]], ids[k], plan, job.stage.t, delivered, world.chain, world.sent);
    }
    EntriesReplaced(old(coin.sends), coin.sends, world.chain, world.sent, ids);
    rest := [];
    NoJobLeft(old(coin.sends), coin.sends, world.chain, plan, job, true);
  }

  /** Whatever stopped the batch: halve it if it was too big, count a failure otherwise.
      `dead` is an error that says nothing is in flight. */
  method HandleError(coin: Coin, world: World, plan: map<nat, nat>, job: Job, dead: bool, tooLarge: bool)
    returns (rest: seq<Job>)
    requires Sound(coin, world) && JobOk(job, coin.sends, plan) && job.stage != Queued
    requires dead && job.stage.OnTheWire? ==> Dead(world.chain, job.stage.t)
    modifies coin`sends
    ensures Sound(coin, world)
    ensures StepOk(old(coin.sends), coin.sends, world.chain, plan, job, rest, tooLarge && dead && |job.entries| > 1)
  {
    if tooLarge && dead && |job.entries| > 1 {
      rest := SplitBatch(coin, world, plan, job);
    } else {
      rest := FailBatch(coin, world, plan, job);
    }
  }

  function PayFor(plan: map<nat, nat>, ids: seq<nat>): (pay: map<nat, nat>)
    ensures forall id :: id in pay <==> id in ids
    ensures forall id | id in ids :: pay[id] == AmountOf(plan, id)
  {
    map id | id in ids :: AmountOf(plan, id)
  }

  /** Signing a batch: nothing of its records is alive, so the new transaction is the
      only one that can still pay them. */
  lemma SignedOk(before: seq<SendRecord>, after: seq<SendRecord>, c: Chain, sent: seq<Tx>, t: Tx, plan: map<nat, nat>,
                 ids: seq<nat>)
    requires SendsOk(before, c, sent) && |before| == |after| && ValidIds(before, ids)
    requires t.nonce == |sent| && t.effect == Delivery(PayFor(plan, ids))
    requires forall k | 0 <= k < |ids| :: Free(before[ids[k]]) && before[ids[k]].amount == Some(AmountOf(plan, ids[k]))
                                       && after[ids[k]] == MarkSigned(t)(before[ids[k]], ids[k])
    requires forall i | 0 <= i < |before| && i !in ids :: after[i] == before[i]
    requires forall k | 0 <= k < |ids| :: before[ids[k]].status == InProgress
    ensures SendsOk(after, c, sent + [t])
  {
    var more := sent + [t];
    forall id | 0 <= id < |after| ensures RecordOk(after[id], id, c, more) {
      assert RecordOk(before[id], id, c, sent);
    }
    forall u | u in more ensures Accounted(u, after, c) {
      if u != t {
        assert u in sent && Accounted(u, before, c);
        forall id: nat | Pays(u, id) ensures id < |after| && (Dead(c, u) || Named(after[id]) == Some(u)) {
          if id in ids {
            IdleIfNothingNamed(before, c, sent, id);
          }
        }
      }
    }
  }

  /** Builds and signs a batch; the signature is written down before it is sent. */
  method SignBatch(coin: Coin, world: World, plan: map<nat, nat>, job: Job) returns (rest: seq<Job>, crashed: bool)
    requires Sound(coin, world) && JobOk(job, coin.sends, plan) && job.stage == Building
    modifies coin`sends, world
    ensures Sound(coin, world) && Extends(old(world.chain), world.chain) && old(world.bought) <= world.bought
            && old(world.mishaps) <= world.mishaps && world.read == old(world.read)
    ensures PaysOnly(old(world.sent), world.sent, job.entries)
    ensures if crashed then coin.sends == old(coin.sends)
            else StepOk(old(coin.sends), coin.sends, world.chain, plan, job, rest, world.mishaps == old(world.mishaps))
    ensures world.mishaps == old(world.mishaps) ==> !crashed
    ensures world.deaths == old(world.deaths) + (if crashed then 1 else 0)
  {
    hide SendsOk, BurnsOk, JobOk;
    crashed := Wait(coin, world);
    if crashed { return [job], true; }
    var built, tooLarge := world.Build(|job.entries|);
    if built {
      rest := PutOnTheWire(coin, world, plan, job);
    } else {
      rest := HandleError(coin, world, plan, job, true, tooLarge);
    }
  }

  method PutOnTheWire(coin: Coin, world: World, plan: map<nat, nat>, job: Job) returns (rest: seq<Job>)
    requires Sound(coin, world) && JobOk(job, coin.sends, plan) && job.stage == Building
    modifies coin`sends, world
    ensures world.read == old(world.read)
    ensures Sound(coin, world) && world.chain == old(world.chain) && world.bought == old(world.bought)
    ensures world.mishaps == old(world.mishaps)
    ensures PaysOnly(old(world.sent), world.sent, job.entries)
    ensures StepOk(old(coin.sends), coin.sends, world.chain, plan, job, rest, true)
    ensures world.deaths == old(world.deaths)
  {
    ReadyToSign(coin.sends, plan, job);
    ghost var sent := world.sent;
    var t := world.Sign(Delivery(PayFor(plan, job.entries)));
    UpdateEach(coin, job.entries, MarkSigned(t));
    SignedOk(old(coin.sends), coin.sends, world.chain, sent, t, plan, job.entries);
    BurnsIgnoreOthers(coin.burns, coin.burnedRaw, world.chain, sent, t);
    rest := [Job(job.entries, OnTheWire(t))];
    WireStep(old(coin.sends), coin.sends, world.chain, plan, job, t);
  }

  lemma ReadyToSign(sends: seq<SendRecord>, plan: map<nat, nat>, job: Job)
    requires JobOk(job, sends, plan) && job.stage == Building
    ensures forall k | 0 <= k < |job.entries| ::
              var r := sends[job.entries[k]];
              Free(r) && r.status == InProgress && job.entries[k] in plan
                && r.amount == Some(AmountOf(plan, job.entries[k]))
  {
    assert forall k | 0 <= k < |job.entries| :: EntryOk(sends[job.entries[k]], job.entries[k], plan, Building);
  }

  lemma WireStep(before: seq<SendRecord>, after: seq<SendRecord>, c: Chain, plan: map<nat, nat>, job: Job, t: Tx)
    requires JobOk(job, before, plan) && job.stage == Building && |before| == |after|
    requires forall i | 0 <= i < |before| && i !in job.entries :: after[i] == before[i]
    requires forall k | 0 <= k < |job.entries| ::
               after[job.entries[k]] == MarkSigned(t)(before[job.entries[k]], job.entries[k])
    ensures StepOk(before, after, c, plan, job, [Job(job.entries, OnTheWire(t))], true)
  {
    ReadyToSign(before, plan, job);
    var next := Job(job.entries, OnTheWire(t));
    forall i | 0 <= i < |before| ensures SameOwner(before[i], after[i]) {
      if i in job.entries {
        var k :| 0 <= k < |job.entries| && job.entries[k] == i;
      }
    }
    assert [next][..0] == [];
    assert forall k | 0 <= k < |job.entries| :: job.entries[k] in [next][0].entries;
  }

  method ConfirmBatch(coin: Coin, world: World, plan: map<nat, nat>, job: Job) returns (rest: seq<Job>, crashed: bool)
    requires Sound(coin, world) && JobOk(job, coin.sends, plan) && job.stage.OnTheWire?
    modifies coin`sends, world
    ensures Sound(coin, world) && Extends(old(world.chain), world.chain) && old(world.bought) <= world.bought
            && old(world.mishaps) <= world.mishaps && world.read == old(world.read)
    ensures world.sent == old(world.sent)
    ensures if crashed then coin.sends == old(coin.sends)
            else StepOk(old(coin.sends), coin.sends, world.chain, plan, job, rest, world.mishaps == old(world.mishaps))
    ensures world.mishaps == old(world.mishaps) ==> !crashed
    ensures world.deaths == old(world.deaths) + (if crashed then 1 else 0)
  {
    var report, tooLarge;
    report, tooLarge, crashed := world.SendMany(job.stage.t, |job.entries|);
    SoundOverTime(coin, world, old(world.chain));
    if crashed { return [job], true; }
    if report == Report.Confirmed {
      rest := DeliverBatch(coin, world, plan, job);
    } else {
      rest := HandleError(coin, world, plan, job, report == Rejected, tooLarge);
    }
  }

  method Step(coin: Coin, world: World, plan: map<nat, nat>, job: Job) returns (rest: seq<Job>, crashed: bool)
    requires Sound(coin, world) && JobOk(job, coin.sends, plan)
    modifies coin`sends, world
    ensures Sound(coin, world) && Extends(old(world.chain), world.chain) && old(world.bought) <= world.bought
            && old(world.mishaps) <= world.mishaps && world.read == old(world.read)
    ensures PaysOnly(old(world.sent), world.sent, job.entries)
    ensures if crashed then coin.sends == old(coin.sends)
            else StepOk(old(coin.sends), coin.sends, world.chain, plan, job, rest, world.mishaps == old(world.mishaps))
    ensures world.mishaps == old(world.mishaps) ==> !crashed
    ensures world.deaths == old(world.deaths) + (if crashed then 1 else 0)
  {
    match job.stage
    case Queued =>
      var next := StartBatch(coin, world, plan, job);
      rest, crashed := [next], false;
    case Building =>
      rest, crashed := SignBatch(coin, world, plan, job);
    case OnTheWire(_) =>
      rest, crashed := ConfirmBatch(coin, world, plan, job);
  }

  // --- All the batches of a round -------------------------------------------------------

  ghost predicate Apart(jobs: seq<Job>) {
    forall j, k, i: nat | 0 <= j < k < |jobs| && i in jobs[j].entries :: i !in jobs[k].entries
  }

  ghost predicate JobsOk(jobs: seq<Job>, sends: seq<SendRecord>, plan: map<nat, nat>) {
    Apart(jobs) && forall j | 0 <= j < |jobs| :: JobOk(jobs[j], sends, plan)
  }

  /** Every planned record is in a job or done with, and takes no more than planned. */
  ghost predicate PlanKept(jobs: seq<Job>, sends: seq<SendRecord>, c: Chain, plan: map<nat, nat>, calm: bool) {
    forall id | id in plan ::
      && id < |sends| && Potential(sends[id], c) <= plan[id]
      && (InSome(jobs, id) || Over(sends[id], id, plan, calm))
  }

  function Without(jobs: seq<Job>, j: nat): seq<Job>
    requires j < |jobs|
  {
    jobs[..j] + jobs[j + 1..]
  }

  lemma {:induction false} WeightWithout(jobs: seq<Job>, j: nat)
    requires j < |jobs|
    ensures TotalWeight(Without(jobs, j)) == TotalWeight(jobs) - Weight(jobs[j])
  {
    var n := |jobs| - 1;
    if j == n {
      assert Without(jobs, j) == jobs[..n];
    } else {
      WeightWithout(jobs[..n], j);
      assert Without(jobs, j)[..n - 1] == Without(jobs[..n], j);
    }
  }

  lemma {:induction false} WeightJoined(a: seq<Job>, b: seq<Job>)
    ensures TotalWeight(a + b) == TotalWeight(a) + TotalWeight(b)
  {
    if b == [] {
      assert a + b == a;
    } else {
      assert (a + b)[..|a + b| - 1] == a + b[..|b| - 1];
      WeightJoined(a, b[..|b| - 1]);
    }
  }

  lemma {:induction false} WeightPositive(jobs: seq<Job>, sends: seq<SendRecord>, plan: map<nat, nat>)
    requires forall j | 0 <= j < |jobs| :: JobOk(jobs[j], sends, plan)
    ensures |jobs| <= TotalWeight(jobs)
  {
    if jobs != [] {
      assert JobOk(jobs[|jobs| - 1], sends, plan);
      WeightPositive(jobs[..|jobs| - 1], sends, plan);
    }
  }

  lemma JobsAfterStep(jobs: seq<Job>, j: nat, rest: seq<Job>, before: seq<SendRecord>, after: seq<SendRecord>,
                      c: Chain, plan: map<nat, nat>, all: bool, landed: bool)
    requires JobsOk(jobs, before, plan) && PlanKept(jobs, before, c, plan, all)
    requires j < |jobs| && StepOk(before, after, c, plan, jobs[j], rest, landed)
    ensures JobsOk(Without(jobs, j) + rest, after, plan)
    ensures PlanKept(Without(jobs, j) + rest, after, c, plan, all && landed)
    ensures TotalWeight(Without(jobs, j) + rest) < TotalWeight(jobs)
  {
    var others := Without(jobs, j);
    forall k | 0 <= k < |others| ensures JobOk(others[k], after, plan) {
      OtherJob(jobs, j, k, before, after, plan);
    }
    ApartAfterStep(jobs, j, rest);
    forall id | id in plan
      ensures id < |after| && Potential(after[id], c) <= plan[id]
      ensures InSome(others + rest, id) || Over(after[id], id, plan, all && landed)
    {
      PlanKeptAt(jobs, j, rest, before, after, c, plan, all, landed, id);
    }
    WeightWithout(jobs, j);
    WeightJoined(others, rest);
  }

  /** A job that splits stays apart from every other one. */
  lemma RestIsApart(jobs: seq<Job>, j: nat, m: nat, job: Job)
    requires Apart(jobs) && j < |jobs| && m < |jobs| && m != j
    requires forall i: nat | i in job.entries :: i in jobs[j].entries
    ensures forall i: nat | i in jobs[m].entries :: i !in job.entries
  {
  }

  lemma ApartAfterStep(jobs: seq<Job>, j: nat, rest: seq<Job>)
    requires Apart(jobs) && j < |jobs| && |rest| <= 2
    requires forall k, i: nat | 0 <= k < |rest| && i in rest[k].entries :: i in jobs[j].entries
    requires |rest| == 2 ==> forall i | i in rest[0].entries :: i !in rest[1].entries
    ensures Apart(Without(jobs, j) + rest)
  {
    var others := Without(jobs, j);
    var next := others + rest;
    forall a, b, i: nat | 0 <= a < b < |next| && i in next[a].entries ensures i !in next[b].entries {
      if b < |others| {
        assert others[a] == jobs[if a < j then a else a + 1] && others[b] == jobs[if b < j then b else b + 1];
      } else if a < |others| {
        var m := if a < j then a else a + 1;
        assert others[a] == jobs[m] && next[b] == rest[b - |others|];
        RestIsApart(jobs, j, m, rest[b - |others|]);
      } else {
        assert next[a] == rest[0] && next[b] == rest[1];
      }
    }
  }

  lemma OtherJob(jobs: seq<Job>, j: nat, k: nat, before: seq<SendRecord>, after: seq<SendRecord>, plan: map<nat, nat>)
    requires JobsOk(jobs, before, plan) && j < |jobs| && k < |jobs| - 1 && |before| == |after|
    requires forall i | 0 <= i < |before| && i !in jobs[j].entries :: after[i] == before[i]
    ensures var job := Without(jobs, j)[k];
            JobOk(job, after, plan) && forall i | i in job.entries :: i !in jobs[j].entries
  {
    var m := if k < j then k else k + 1;
    assert Without(jobs, j)[k] == jobs[m] && JobOk(jobs[m], before, plan);
    forall x | 0 <= x < |jobs[m].entries| ensures EntryOk(after[jobs[m].entries[x]], jobs[m].entries[x], plan,
                                                          jobs[m].stage) {
      assert jobs[m].entries[x] in jobs[m].entries;
      assert jobs[m].entries[x] !in jobs[j].entries;
      assert EntryOk(before[jobs[m].entries[x]], jobs[m].entries[x], plan, jobs[m].stage);
    }
  }

  lemma PlanKeptAt(jobs: seq<Job>, j: nat, rest: seq<Job>, before: seq<SendRecord>, after: seq<SendRecord>,
                   c: Chain, plan: map<nat, nat>, all: bool, landed: bool, id: nat)
    requires PlanKept(jobs, before, c, plan, all) && id in plan
    requires j < |jobs| && StepOk(before, after, c, plan, jobs[j], rest, landed)
    ensures id < |after| && Potential(after[id], c) <= plan[id]
    ensures InSome(Without(jobs, j) + rest, id) || Over(after[id], id, plan, all && landed)
  {
    var others := Without(jobs, j);
    if id in jobs[j].entries {
      var k :| 0 <= k < |jobs[j].entries| && jobs[j].entries[k] == id;
      assert InSome(rest, jobs[j].entries[k]) || Over(after[id], id, plan, landed);
      if InSome(rest, id) {
        var m :| 0 <= m < |rest| && id in rest[m].entries;
        assert (others + rest)[|others| + m] == rest[m];
      }
    } else {
      if InSome(jobs, id) {
        var m :| 0 <= m < |jobs| && id in jobs[m].entries;
        assert (others + rest)[if m < j then m else m - 1] == jobs[m];
      }
    }
  }

  lemma InSomeMore(jobs: seq<Job>, job: Job, id: nat)
    requires InSome(jobs, id)
    ensures InSome(jobs + [job], id)
  {
    var m :| 0 <= m < |jobs| && id in jobs[m].entries;
    assert (jobs + [job])[m] == jobs[m];
  }

  /** Cuts the round's records into batches. */
  method Batches(sends: seq<SendRecord>, ids: seq<nat>, plan: map<nat, nat>) returns (jobs: seq<Job>)
    requires Distinct(ids) && ValidIds(sends, ids)
    requires forall k | 0 <= k < |ids| :: EntryOk(sends[ids[k]], ids[k], plan, Queued)
    ensures JobsOk(jobs, sends, plan) && forall k | 0 <= k < |ids| :: InSome(jobs, ids[k])
  {
    jobs := [];
    var i := 0;
    while i < |ids|
      invariant i <= |ids|
      invariant JobsOk(jobs, sends, plan)
      invariant forall k | 0 <= k < i :: InSome(jobs, ids[k])
      invariant forall j, k | 0 <= j < |jobs| && i <= k < |ids| :: ids[k] !in jobs[j].entries
    {
      var to := if i + BATCH < |ids| then i + BATCH else |ids|;
      var job := Job(ids[i..to], Queued);
      forall k | 0 <= k < to ensures InSome(jobs + [job], ids[k]) {
        if k < i {
          assert InSome(jobs, ids[k]);
          InSomeMore(jobs, job, ids[k]);
        } else {
          assert job.entries[k - i] == ids[k] && (jobs + [job])[|jobs|] == job;
        }
      }
      CutIsApart(ids, i, to, jobs);
      JobAdded(jobs, job, sends, plan);
      CutIsGone(ids, i, to, jobs, job);
      jobs := jobs + [job];
      i := to;
    }
  }

  lemma CutIsApart(ids: seq<nat>, i: nat, to: nat, jobs: seq<Job>)
    requires i <= to <= |ids|
    requires forall j, k | 0 <= j < |jobs| && i <= k < |ids| :: ids[k] !in jobs[j].entries
    ensures forall j, x: nat | 0 <= j < |jobs| && x in jobs[j].entries :: x !in ids[i..to]
  {
    forall j, x: nat | 0 <= j < |jobs| && x in jobs[j].entries ensures x !in ids[i..to] {
      forall k | 0 <= k < to - i ensures ids[i..to][k] != x {
        assert ids[i..to][k] == ids[i + k];
      }
    }
  }

  lemma JobAdded(jobs: seq<Job>, job: Job, sends: seq<SendRecord>, plan: map<nat, nat>)
    requires JobsOk(jobs, sends, plan) && JobOk(job, sends, plan)
    requires forall j, x: nat | 0 <= j < |jobs| && x in jobs[j].entries :: x !in job.entries
    ensures JobsOk(jobs + [job], sends, plan)
  {
  }

  lemma CutIsGone(ids: seq<nat>, i: nat, to: nat, jobs: seq<Job>, job: Job)
    requires Distinct(ids) && i <= to <= |ids| && job.entries == ids[i..to]
    requires forall j, k | 0 <= j < |jobs| && i <= k < |ids| :: ids[k] !in jobs[j].entries
    ensures forall j, k | 0 <= j < |jobs + [job]| && to <= k < |ids| :: ids[k] !in (jobs + [job])[j].entries
  {
    forall k | to <= k < |ids| ensures ids[k] !in job.entries {
      forall m | 0 <= m < |job.entries| ensures job.entries[m] != ids[k] {
        assert job.entries[m] == ids[i + m];
      }
    }
  }

  /** Only these records have changed, and none its owner. */
  ghost predicate Touched(before: seq<SendRecord>, after: seq<SendRecord>, ids: seq<nat>) {
    SameRecipients(before, after) && forall i: nat | i < |after| && i !in ids :: after[i] == before[i]
  }

  lemma TouchedTwice(a: seq<SendRecord>, b: seq<SendRecord>, c: seq<SendRecord>, ids: seq<nat>)
    requires Touched(a, b, ids) && Touched(b, c, ids)
    ensures Touched(a, c, ids)
  {
  }

  lemma PaysOnlyTwice(a: seq<Tx>, b: seq<Tx>, c: seq<Tx>, ids: seq<nat>)
    requires PaysOnly(a, b, ids) && PaysOnly(b, c, ids)
    ensures PaysOnly(a, c, ids)
  {
    forall i, id: nat | |a| <= i < |c| && Pays(c[i], id) ensures id in ids {
      if i < |b| {
        assert b[i] == c[i];
      }
    }
  }

  /** Sends everything that was planned. The batches run side by side: which one gets
      to its next await first is not for the program to say. If nothing goes wrong every
      one of them is confirmed, whole or in halves. */
  method DeliverAll(coin: Coin, world: World, ids: seq<nat>, plan: map<nat, nat>) returns (crashed: bool)
    requires Sound(coin, world) && Distinct(ids) && ValidIds(coin.sends, ids)
    requires forall k | 0 <= k < |ids| ::
               ids[k] in plan && coin.sends[ids[k]].status == Pending && Free(coin.sends[ids[k]])
    requires forall id | id in plan :: id in ids
    modifies coin`sends, world
    ensures Sound(coin, world) && Extends(old(world.chain), world.chain) && old(world.bought) <= world.bought
            && old(world.mishaps) <= world.mishaps && world.read == old(world.read)
    ensures PaysOnly(old(world.sent), world.sent, ids)
    ensures Touched(old(coin.sends), coin.sends, ids)
    ensures forall id | id in plan :: id < |coin.sends| && Potential(coin.sends[id], world.chain) <= plan[id]
    ensures !crashed ==> forall id | id in plan :: Over(coin.sends[id], id, plan, world.mishaps == old(world.mishaps))
    ensures world.mishaps == old(world.mishaps) ==> !crashed
    ensures world.deaths == old(world.deaths) + (if crashed then 1 else 0)
  {
    assert forall k | 0 <= k < |ids| :: EntryOk(coin.sends[ids[k]], ids[k], plan, Queued);
    var jobs := Batches(coin.sends, ids, plan);
    crashed := false;
    while jobs != [] && !crashed
      invariant world.deaths == old(world.deaths) + (if crashed then 1 else 0)
      invariant Sound(coin, world)
      invariant Extends(old(world.chain), world.chain) && old(world.bought) <= world.bought
                && old(world.mishaps) <= world.mishaps && world.read == old(world.read)
      invariant world.mishaps == old(world.mishaps) ==> !crashed
      invariant PaysOnly(old(world.sent), world.sent, ids)
      invariant Touched(old(coin.sends), coin.sends, ids)
      invariant JobsOk(jobs, coin.sends, plan)
                && PlanKept(jobs, coin.sends, world.chain, plan, world.mishaps == old(world.mishaps))
      decreases !crashed, TotalWeight(jobs)
    {
      ghost var sends, sent, calm := coin.sends, world.sent, world.mishaps == old(world.mishaps);
      jobs, crashed := Turn(coin, world, ids, plan, jobs, calm);
      TouchedTwice(old(coin.sends), sends, coin.sends, ids);
      PaysOnlyTwice(old(world.sent), sent, world.sent, ids);
    }
  }

  /** One batch, whichever it is, gets to its next await. */
  method Turn(coin: Coin, world: World, ghost ids: seq<nat>, plan: map<nat, nat>, jobs: seq<Job>, ghost calm: bool)
    returns (next: seq<Job>, crashed: bool)
    requires Sound(coin, world) && jobs != [] && forall id | id in plan :: id in ids
    requires JobsOk(jobs, coin.sends, plan) && PlanKept(jobs, coin.sends, world.chain, plan, calm)
    modifies coin`sends, world
    ensures Sound(coin, world) && Extends(old(world.chain), world.chain) && old(world.bought) <= world.bought
            && old(world.mishaps) <= world.mishaps && world.read == old(world.read)
    ensures PaysOnly(old(world.sent), world.sent, ids)
    ensures Touched(old(coin.sends), coin.sends, ids)
    ensures JobsOk(next, coin.sends, plan)
    ensures PlanKept(next, coin.sends, world.chain, plan, calm && world.mishaps == old(world.mishaps))
    ensures !crashed ==> TotalWeight(next) < TotalWeight(jobs)
    ensures 0 <= TotalWeight(jobs)
    ensures world.mishaps == old(world.mishaps) ==> !crashed
    ensures world.deaths == old(world.deaths) + (if crashed then 1 else 0)
  {
    var j: nat :| j < |jobs|;
    JobsWithinPlan(jobs, j, coin.sends, plan, ids);
    WeightPositive(jobs, coin.sends, plan);
    var rest;
    rest, crashed := Step(coin, world, plan, jobs[j]);
    PlanKeptOverTime(old(coin.sends), old(world.chain), world.chain, plan, jobs, calm);
    if crashed { return jobs, true; }
    JobsAfterStep(jobs, j, rest, old(coin.sends), coin.sends, world.chain, plan, calm,
                  world.mishaps == old(world.mishaps));
    next := Without(jobs, j) + rest;
  }

  lemma JobsWithinPlan(jobs: seq<Job>, j: nat, sends: seq<SendRecord>, plan: map<nat, nat>, ids: seq<nat>)
    requires JobsOk(jobs, sends, plan) && j < |jobs| && forall id | id in plan :: id in ids
    ensures forall i | i in jobs[j].entries :: i in ids
  {
    forall i | i in jobs[j].entries ensures i in ids {
      var k :| 0 <= k < |jobs[j].entries| && jobs[j].entries[k] == i;
      assert EntryOk(sends[jobs[j].entries[k]], jobs[j].entries[k], plan, jobs[j].stage);
    }
  }

  lemma PlanKeptOverTime(sends: seq<SendRecord>, c: Chain, d: Chain, plan: map<nat, nat>, jobs: seq<Job>, all: bool)
    requires PlanKept(jobs, sends, c, plan, all) && Extends(c, d)
    ensures PlanKept(jobs, sends, d, plan, all)
  {
    forall id | id in plan ensures Potential(sends[id], d) <= plan[id] {
      if Named(sends[id]).Some? {
        DeadStaysDead(c, d, Named(sends[id]).value);
      }
    }
  }
}
