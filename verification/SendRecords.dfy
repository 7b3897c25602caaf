/** The record of one delivery of one coin (offchain/orchestrator/types.ts). A record's id is its
    place in the coin's list of deliveries; only the fields that decide something
    are kept. */
module SendRecords {
  import opened Solana
  import opened Shares

  datatype SendStatus = Pending | InProgress | Completed | Satisfied | Abandoned | AtaMismatch

  /** How the scheduler classified the error a delivery last met. */
  datatype ErrorClass = Retryable | NonRetryable | UnknownClass

  datatype SendRecord = SendRecord(
    recipient: Wallet,
    betLamports: nat,
    hadAtaAtStart: Option<bool>,
    round: nat,
    status: SendStatus,
    amount: Option<nat>,
    gross: Option<nat>,
    signature: Option<Tx>,
    pending: Option<Tx>,
    pendingLimit: Option<nat>,
    failedSignatures: seq<Tx>,
    errorClass: Option<ErrorClass>,
    attempts: nat,
    topUp: bool)

  /** What a completed delivery took from the keeper. */
  function SentFromKeeper(s: SendRecord): nat {
    if s.gross.Some? then s.gross.value
    else if s.amount.Some? then s.amount.value
    else 0
  }

  /** What a record counts as delivered: what left the keeper where the basis is
      exact, what arrived otherwise. */
  function Counted(s: SendRecord, exact: bool): nat {
    if s.status != Completed || s.amount.None? then 0
    else if exact then SentFromKeeper(s)
    else s.amount.value
  }

  /** Delivered to one wallet so far. */
  function DeliveredTo(sends: seq<SendRecord>, w: Wallet, exact: bool): nat {
    if sends == [] then 0
    else
      var s := sends[|sends| - 1];
      DeliveredTo(sends[..|sends| - 1], w, exact) + if s.recipient == w then Counted(s, exact) else 0
  }

  function DeliveredInAll(sends: seq<SendRecord>): nat {
    if sends == [] then 0
    else DeliveredInAll(sends[..|sends| - 1]) + Counted(sends[|sends| - 1], false)
  }

  predicate Receives(sends: seq<SendRecord>, w: Wallet) {
    exists s | s in sends :: s.recipient == w
  }

  /** A wallet's commit is read from its first record. */
  function BetOf(sends: seq<SendRecord>, w: Wallet): nat {
    if sends == [] then 0
    else if sends[0].recipient == w then sends[0].betLamports
    else BetOf(sends[1..], w)
  }

  /** All commits, each wallet once. */
  function TotalBet(sends: seq<SendRecord>): nat {
    if sends == [] then 0
    else
      var before, s := sends[..|sends| - 1], sends[|sends| - 1];
      TotalBet(before) + if Receives(before, s.recipient) then 0 else s.betLamports
  }
}
