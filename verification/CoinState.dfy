/** What the round keeps about one coin (offchain/orchestrator/state.ts). Every
    update is saved before the next await, so what survives a crash is exactly
    these fields; everything else a method holds is lost. */
module CoinState {
  import opened Solana
  import opened Shares
  import opened SendRecords

  datatype BurnStatus = Open | Done | NotBurned

  datatype BurnRecord = BurnRecord(raw: nat, status: BurnStatus, signature: Option<Tx>,
                                   pending: Option<Tx>, pendingLimit: Option<nat>)

  class Coin {
    const shares: seq<Share>
    /** Raw tokens the purchases read so far have brought (`tokensBought().known`). */
    var known: nat
    var sends: seq<SendRecord>
    var burns: seq<BurnRecord>
    var burnedRaw: nat
    var burnBlocked: bool
    /** Wallets that were given a delivery while a delivery of theirs that had been
        given up could still land. */
    ghost var tainted: set<Wallet>

    constructor (shares: seq<Share>, sends: seq<SendRecord>)
      ensures this.shares == shares && this.sends == sends
      ensures known == 0 && burns == [] && burnedRaw == 0 && !burnBlocked && tainted == {}
    {
      this.shares, this.sends := shares, sends;
      known, burns, burnedRaw, burnBlocked, tainted := 0, [], 0, false, {};
    }
  }
}
