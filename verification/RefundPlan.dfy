/** What goes back to the backers: the budget handed out, and the refund of what was not
    spent (offchain/orchestrator/fees.ts, refundLedger.ts buildRefundLedger, refunds.ts
    planRefunds). All amounts are in lamports, rounded half up. */
module RefundPlan {
  import opened Solana
  import opened Shares
  import BuyAmounts

  const BATCH: nat := 8
  const TX_FEE: nat := 10_000
  const MIN_REFUND: int := 2_000_000
  const MIN_UNSPENT: int := 1_000_000

  // --- The buy budget -------------------------------------------------------------------

  function Requested(requests: seq<nat>): nat { BuyAmounts.Sum(requests) }

  /** The budget over the coins, by what was asked for each; the last takes the rest. */
  method DistributeBuyBudget(requests: seq<nat>, budget: nat) returns (amounts: seq<int>)
    ensures |amounts| == |requests|
    ensures Requested(requests) == 0 ==> forall i | 0 <= i < |amounts| :: amounts[i] == 0
    ensures Requested(requests) > 0 ==>
              BuyAmounts.Total(amounts) == budget
              && amounts[..|requests| - 1] == BuyAmounts.Shares(budget, requests[..|requests| - 1], Requested(requests))
  {
    amounts := [];
    var n, total := |requests|, Requested(requests);
    if n == 0 { return; }
    if total == 0 {
      amounts := seq(n, i => 0);
      return;
    }
    var sum := 0;
    for i := 0 to n
      invariant if i == n then |amounts| == n && BuyAmounts.Total(amounts) == budget
                               && amounts[..n - 1] == BuyAmounts.Shares(budget, requests[..n - 1], total)
                else |amounts| == i && sum == BuyAmounts.Total(amounts)
                     && amounts == BuyAmounts.Shares(budget, requests[..i], total)
    {
      assert requests[..i + 1][..i] == requests[..i];
      var value := if i == n - 1 then budget - sum else BuyAmounts.ShareOf(budget, requests[i], total);
      assert (amounts + [value])[..i] == amounts;
      amounts := amounts + [value];
      sum := sum + value;
    }
  }

  // --- One coin's refund ------------------------------------------------------------------

  /** A coin as the refund sees it: what its buying was given and cost, its share of the
      unused delivery reserve, and who stands behind it. */
  datatype CoinBasis = CoinBasis(given: int, spent: nat, leftover: nat, shares: seq<Share>)

  function Unspent(c: CoinBasis): int { c.given - c.spent + c.leftover }

  /** Rounded up to whole transactions, and shared by everybody behind the coin. */
  function FeeEach(recipients: nat): nat
    requires recipients > 0
  {
    var transactions := (recipients + BATCH - 1) / BATCH;
    var fee := BuyAmounts.Rounded(TX_FEE * transactions, recipients);
    if fee < 0 then 0 else fee
  }

  function Gross(unspent: nat, stake: nat, total: nat): int
    requires total > 0
  {
    BuyAmounts.ShareOf(unspent, stake, total)
  }

  /** Nothing is sent below the threshold. */
  function Net(gross: int, fee: nat): nat {
    if gross - fee < MIN_REFUND then 0 else gross - fee
  }

  predicate Refundable(c: CoinBasis) {
    Unspent(c) >= MIN_UNSPENT && TotalStake(c.shares) > 0
  }

  function PaidToFirst(c: CoinBasis, n: nat): nat
    requires n <= |c.shares| && (n > 0 ==> Refundable(c))
  {
    if n == 0 then 0
    else
      PaidToFirst(c, n - 1)
      + Net(Gross(Unspent(c), c.shares[n - 1].stake, TotalStake(c.shares)), FeeEach(|c.shares|))
  }

  /** How many of them are sent something. */
  function PaidCount(c: CoinBasis, n: nat): nat
    requires n <= |c.shares| && (n > 0 ==> Refundable(c))
  {
    if n == 0 then 0
    else
      PaidCount(c, n - 1)
      + if Net(Gross(Unspent(c), c.shares[n - 1].stake, TotalStake(c.shares)), FeeEach(|c.shares|)) > 0 then 1 else 0
  }

  function PaidFor(c: CoinBasis): nat {
    if Refundable(c) then PaidToFirst(c, |c.shares|) else 0
  }

  function CountFor(c: CoinBasis): nat {
    if Refundable(c) then PaidCount(c, |c.shares|) else 0
  }

  /** The fee each one carries is at least an eighth of a transaction's. */
  lemma FeeIsEnough(n: nat)
    requires n > 0
    ensures FeeEach(n) >= 1_250
  {
    var transactions := (n + 7) / 8;
    assert 8 * transactions >= n;
    var a := 10_000 * transactions;
    BuyAmounts.RoundedIs(a, n);
    FeeAtLeast(a, n, BuyAmounts.Rounded(a, n));
  }

  lemma FeeAtLeast(a: int, n: int, fee: int)
    requires n > 0 && 1_250 * n <= a && 2 * a - n < 2 * n * fee
    ensures 1_250 <= fee
  {
    if fee < 1_250 {
      Scale(fee, 1_249, n);
    }
  }

  lemma Scale(a: int, b: int, c: nat)
    requires a <= b
    ensures c * a <= c * b
  {
  }

  /** What `Sum(stakes)` of the first backers bounds. */
  ghost predicate Bounded(paid: int, count: nat, unspent: nat, stake: nat, total: nat) {
    2 * total * paid <= 2 * (unspent * stake) - 2_499 * (total * count)
  }

  lemma OneMorePaid(paid: int, count: nat, unspent: nat, w1: nat, w2: nat, total: nat, fee: nat)
    requires total > 0 && fee >= 1_250 && Bounded(paid, count, unspent, w1, total)
    ensures var net := Net(Gross(unspent, w2, total), fee);
            Bounded(paid + net, count + if net > 0 then 1 else 0, unspent, w1 + w2, total)
  {
    var gross := Gross(unspent, w2, total);
    var net := Net(gross, fee);
    BuyAmounts.RoundedIs(unspent * w2, total);
    assert unspent * (w1 + w2) == unspent * w1 + unspent * w2;
    if net > 0 {
      OneNet(gross, fee, unspent * w2, total);
      assert 2 * total * (paid + net) == 2 * total * paid + 2 * total * net;
      assert total * (count + 1) == total * count + total;
    }
  }

  lemma OneNet(gross: int, fee: nat, share: int, total: nat)
    requires fee >= 1_250 && 2 * total * gross <= 2 * share + total
    ensures 2 * total * (gross - fee) <= 2 * share - 2_499 * total
  {
    Scale(1_250, fee, total);
    assert 2 * total * (gross - fee) == 2 * total * gross - 2 * (total * fee);
  }

  lemma {:induction false} PaidBounded(c: CoinBasis, n: nat)
    requires Refundable(c) && n <= |c.shares|
    ensures Bounded(PaidToFirst(c, n), PaidCount(c, n), Unspent(c), TotalStake(c.shares[..n]), TotalStake(c.shares))
  {
    if n > 0 {
      PaidBounded(c, n - 1);
      FeeIsEnough(|c.shares|);
      OneMorePaid(PaidToFirst(c, n - 1), PaidCount(c, n - 1), Unspent(c), TotalStake(c.shares[..n - 1]),
                  c.shares[n - 1].stake, TotalStake(c.shares), FeeEach(|c.shares|));
      assert c.shares[..n][..n - 1] == c.shares[..n - 1];
    }
  }

  /** The fee absorbs every rounding lamport: what a coin pays back stays below what it
      did not spend, by more than a thousand lamports for each one paid. */
  lemma PaidWithin(c: CoinBasis)
    requires Refundable(c)
    ensures 2 * PaidFor(c) <= 2 * Unspent(c) - 2_499 * CountFor(c)
  {
    var total := TotalStake(c.shares);
    PaidBounded(c, |c.shares|);
    assert c.shares[..|c.shares|] == c.shares;
    Divide(total, PaidFor(c), Unspent(c), CountFor(c));
  }

  lemma Divide(total: nat, paid: int, unspent: int, count: nat)
    requires total > 0 && 2 * total * paid <= 2 * (unspent * total) - 2_499 * (total * count)
    ensures 2 * paid <= 2 * unspent - 2_499 * count
  {
    var x := 2 * unspent - 2_499 * count - 2 * paid;
    assert total * x == 2 * (unspent * total) - 2_499 * (total * count) - 2 * total * paid;
    if x < 0 {
      Scale(x, -1, total);
    }
  }

  // --- The plan -------------------------------------------------------------------------------

  datatype RefundRecord = RefundRecord(coin: nat, recipient: Wallet, gross: int, fee: nat, amount: nat, pending: bool)

  function RecordFor(c: CoinBasis, coin: nat, i: nat): RefundRecord
    requires Refundable(c) && i < |c.shares|
  {
    var gross, fee := Gross(Unspent(c), c.shares[i].stake, TotalStake(c.shares)), FeeEach(|c.shares|);
    RefundRecord(coin, c.shares[i].wallet, gross, fee, Net(gross, fee), Net(gross, fee) > 0)
  }

  function RecordsFor(c: CoinBasis, coin: nat, n: nat): seq<RefundRecord>
    requires n <= |c.shares| && (n > 0 ==> Refundable(c))
  {
    if n == 0 then [] else RecordsFor(c, coin, n - 1) + [RecordFor(c, coin, n - 1)]
  }

  function PlanOf(coins: seq<CoinBasis>): seq<RefundRecord> {
    if coins == [] then []
    else
      var n := |coins| - 1;
      PlanOf(coins[..n]) + if Refundable(coins[n]) then RecordsFor(coins[n], n, |coins[n].shares|) else []
  }

  /** The plan has a record for every backer of every coin worth refunding, and no
      others. */
  ghost predicate PlanIs(plan: seq<RefundRecord>, coins: seq<CoinBasis>) {
    && (forall i | 0 <= i < |coins| && Refundable(coins[i]) :: AllPlanned(plan, coins[i], i))
    && (forall r | r in plan :: r.coin < |coins| && InRecords(r, coins[r.coin]))
  }

  ghost predicate AllPlanned(plan: seq<RefundRecord>, c: CoinBasis, coin: nat)
    requires Refundable(c)
  {
    forall j | 0 <= j < |c.shares| :: RecordFor(c, coin, j) in plan
  }

  lemma {:induction false} PlanHas(coins: seq<CoinBasis>)
    ensures PlanIs(PlanOf(coins), coins)
  {
    if coins != [] {
      var n := |coins| - 1;
      PlanHas(coins[..n]);
      var added := if Refundable(coins[n]) then RecordsFor(coins[n], n, |coins[n].shares|) else [];
      if Refundable(coins[n]) {
        RecordsPlanned(coins[n], n);
      }
      PlanMore(PlanOf(coins[..n]), coins[..n], coins[n], added);
      assert coins == coins[..n] + [coins[n]];
    }
  }

  lemma RecordsPlanned(c: CoinBasis, coin: nat)
    requires Refundable(c)
    ensures var added := RecordsFor(c, coin, |c.shares|);
            AllPlanned(added, c, coin) && forall r | r in added :: r.coin == coin && InRecords(r, c)
  {
    var added := RecordsFor(c, coin, |c.shares|);
    RecordsHave(c, coin, |c.shares|);
    forall j | 0 <= j < |c.shares| ensures RecordFor(c, coin, j) in added {
      assert added[j] == RecordFor(c, coin, j);
    }
  }

  lemma PlanMore(plan: seq<RefundRecord>, coins: seq<CoinBasis>, c: CoinBasis, added: seq<RefundRecord>)
    requires PlanIs(plan, coins) && forall r | r in added :: r.coin == |coins| && InRecords(r, c)
    requires Refundable(c) ==> AllPlanned(added, c, |coins|)
    ensures PlanIs(plan + added, coins + [c])
  {
    hide InRecords, RecordFor, Refundable;
    forall i | 0 <= i < |coins + [c]|
      && Refundable((coins + [c])[i]) ensures AllPlanned(plan + added, (coins + [c])[i], i) {
      if i < |coins| {
        assert AllPlanned(plan, coins[i], i);
      } else {
        assert AllPlanned(added, c, i);
      }
    }
    forall r | r in plan + added ensures r.coin < |coins + [c]| && InRecords(r, (coins + [c])[r.coin]) {
      if r in plan {
        assert (coins + [c])[r.coin] == coins[r.coin];
      } else {
        assert r in added && (coins + [c])[r.coin] == c;
      }
    }
  }

  ghost predicate InRecords(r: RefundRecord, c: CoinBasis) {
    Refundable(c) && exists j :: 0 <= j < |c.shares| && r == RecordFor(c, r.coin, j)
  }

  lemma {:induction false} RecordsHave(c: CoinBasis, coin: nat, n: nat)
    requires n <= |c.shares| && Refundable(c)
    ensures |RecordsFor(c, coin, n)| == n
    ensures forall j | 0 <= j < n ::
              RecordsFor(c, coin, n)[j] == RecordFor(c, coin, j) && RecordFor(c, coin, j).coin == coin
  {
    if n > 0 {
      RecordsHave(c, coin, n - 1);
    }
  }

  /** No backer of a coin has two records. */
  ghost predicate Once(plan: seq<RefundRecord>) {
    forall k, m | 0 <= k < m < |plan| :: plan[k].coin != plan[m].coin || plan[k].recipient != plan[m].recipient
  }

  lemma {:induction false} PlanOnce(coins: seq<CoinBasis>)
    requires forall i | 0 <= i < |coins| :: WellFormed(coins[i].shares)
    ensures Once(PlanOf(coins))
  {
    if coins != [] {
      var n := |coins| - 1;
      PlanOnce(coins[..n]);
      PlanHas(coins[..n]);
      if Refundable(coins[n]) {
        assert WellFormed(coins[n].shares);
        OnceMore(PlanOf(coins[..n]), coins[n], n);
      }
    }
  }

  lemma OnceMore(plan: seq<RefundRecord>, c: CoinBasis, coin: nat)
    requires Once(plan) && Refundable(c) && WellFormed(c.shares) && forall r | r in plan :: r.coin < coin
    ensures Once(plan + RecordsFor(c, coin, |c.shares|))
  {
    RecordsHave(c, coin, |c.shares|);
    var all := plan + RecordsFor(c, coin, |c.shares|);
    forall k, m | 0 <= k < m < |all| ensures all[k].coin != all[m].coin || all[k].recipient != all[m].recipient {
      if k < |plan| {
        assert plan[k] in plan;
      }
    }
  }

  /** A record's figures: the gross amount is the backer's share of what was not spent, to
      half a lamport, and what is sent is that less the fee, or nothing below the
      threshold. */
  lemma RecordIs(c: CoinBasis, coin: nat, i: nat)
    requires Refundable(c) && i < |c.shares|
    ensures var r, total, share := RecordFor(c, coin, i), TotalStake(c.shares), Unspent(c) * c.shares[i].stake;
            && 2 * share - total < 2 * total * r.gross <= 2 * share + total
            && (r.pending <==> r.gross - r.fee >= MIN_REFUND) && r.amount == (if r.pending then r.gross - r.fee else 0)
  {
    BuyAmounts.RoundedIs(Unspent(c) * c.shares[i].stake, TotalStake(c.shares));
  }

  /** A coin as the round's state has it; `spent` is missing from an older file. */
  datatype TokenBuy = TokenBuy(mint: string, adjusted: int, spent: Option<nat>)

  /** What the refund ledger says of a coin. */
  datatype RefundBasis = RefundBasis(given: int, spent: nat, leftover: nat)

  /** A coin missing from the ledger falls back to the figures in the round's state. */
  function BasisOf(token: TokenBuy, ledger: map<string, RefundBasis>): RefundBasis {
    if token.mint in ledger then ledger[token.mint]
    else RefundBasis(token.adjusted, if token.spent.Some? then token.spent.value else 0, 0)
  }

  function CoinOf(token: TokenBuy, ledger: map<string, RefundBasis>, stakes: map<string, seq<Share>>): CoinBasis {
    var basis := BasisOf(token, ledger);
    CoinBasis(basis.given, basis.spent, basis.leftover, if token.mint in stakes then stakes[token.mint] else [])
  }

  function CoinsOf(tokens: seq<TokenBuy>, ledger: map<string, RefundBasis>,
                   stakes: map<string, seq<Share>>): seq<CoinBasis> {
    seq(|tokens|, i requires 0 <= i < |tokens| => CoinOf(tokens[i], ledger, stakes))
  }

  /** What to return for each coin. */
  method PlanRefunds(tokens: seq<TokenBuy>, ledger: map<string, RefundBasis>, stakes: map<string, seq<Share>>)
    returns (plan: seq<RefundRecord>)
    ensures plan == PlanOf(CoinsOf(tokens, ledger, stakes)) && PlanIs(plan, CoinsOf(tokens, ledger, stakes))
  {
    hide PlanIs, RecordsFor;
    plan := [];
    ghost var coins := CoinsOf(tokens, ledger, stakes);
    for i := 0 to |tokens|
      invariant plan == PlanOf(coins[..i])
    {
      assert coins[..i + 1][..i] == coins[..i];
      var token := tokens[i];
      var basis := if token.mint in ledger then ledger[token.mint]
                   else RefundBasis(token.adjusted, if token.spent.Some? then token.spent.value else 0, 0);
      var unspent := basis.given - basis.spent + basis.leftover;
      if unspent < MIN_UNSPENT { continue; }
      if token.mint !in stakes || stakes[token.mint] == [] { NoStake(coins[i]); continue; }
      var added := PlanCoin(CoinBasis(basis.given, basis.spent, basis.leftover, stakes[token.mint]), i, unspent);
      plan := plan + added;
    }
    assert coins[..|coins|] == coins;
    PlanHas(coins);
  }

  method PlanCoin(c: CoinBasis, coin: nat, unspent: int) returns (added: seq<RefundRecord>)
    requires unspent == Unspent(c) >= MIN_UNSPENT && c.shares != []
    ensures added == if Refundable(c) then RecordsFor(c, coin, |c.shares|) else []
  {
    added := [];
    var total := TotalStake(c.shares);
    if total <= 0 { return; }
    var transactions := (|c.shares| + BATCH - 1) / BATCH;
    var fee := BuyAmounts.Rounded(TX_FEE * transactions, |c.shares|);
    FeeIsEnough(|c.shares|);
    for j := 0 to |c.shares|
      invariant added == RecordsFor(c, coin, j)
    {
      var gross := BuyAmounts.Rounded(unspent * c.shares[j].stake, total);
      var net := gross - fee;
      var record := if net < MIN_REFUND then RefundRecord(coin, c.shares[j].wallet, gross, fee, 0, false)
                    else RefundRecord(coin, c.shares[j].wallet, gross, fee, net, true);
      assert record == RecordFor(c, coin, j);
      added := added + [record];
    }
  }

  lemma NoStake(c: CoinBasis)
    ensures c.shares == [] ==> TotalStake(c.shares) == 0
  {
  }

  function Paid(plan: seq<RefundRecord>): nat {
    if plan == [] then 0 else Paid(plan[..|plan| - 1]) + plan[|plan| - 1].amount
  }

  function PaidForAll(coins: seq<CoinBasis>): nat {
    if coins == [] then 0 else PaidForAll(coins[..|coins| - 1]) + PaidFor(coins[|coins| - 1])
  }

  lemma {:induction false} PaidJoined(a: seq<RefundRecord>, b: seq<RefundRecord>)
    ensures Paid(a + b) == Paid(a) + Paid(b)
  {
    if b == [] {
      assert a + b == a;
    } else {
      assert (a + b)[..|a + b| - 1] == a + b[..|b| - 1];
      PaidJoined(a, b[..|b| - 1]);
    }
  }

  lemma {:induction false} RecordsPay(c: CoinBasis, coin: nat, n: nat)
    requires n <= |c.shares| && Refundable(c)
    ensures Paid(RecordsFor(c, coin, n)) == PaidToFirst(c, n)
  {
    if n > 0 {
      RecordsPay(c, coin, n - 1);
      var r := RecordsFor(c, coin, n);
      assert r[..|r| - 1] == RecordsFor(c, coin, n - 1);
    }
  }

  lemma {:induction false} PlanPays(coins: seq<CoinBasis>)
    ensures Paid(PlanOf(coins)) == PaidForAll(coins)
  {
    if coins != [] {
      var n := |coins| - 1;
      PlanPays(coins[..n]);
      var added := if Refundable(coins[n]) then RecordsFor(coins[n], n, |coins[n].shares|) else [];
      PaidJoined(PlanOf(coins[..n]), added);
      if Refundable(coins[n]) {
        RecordsPay(coins[n], n, |coins[n].shares|);
      }
    }
  }

  // --- The round's accounts -----------------------------------------------------------------------

  function Positive(x: int): nat { if x < 0 then 0 else x }

  function AllocatedInAll(amounts: seq<int>): nat {
    if amounts == [] then 0 else AllocatedInAll(amounts[..|amounts| - 1]) + Positive(amounts[|amounts| - 1])
  }

  /** A coin's share of the leftover, by the size of its allocation. */
  function LeftoverShare(leftover: nat, amount: int, given: nat): nat {
    if given == 0 then 0
    else
      var share := BuyAmounts.Rounded(leftover * Positive(amount), given);
      if share < 0 then 0 else share
  }

  /** The coins' bases: allocations and shares of the leftover as the ledger gives them. */
  ghost predicate FromLedger(coins: seq<CoinBasis>, amounts: seq<int>, leftover: nat) {
    |coins| == |amounts| && forall i | 0 <= i < |coins| ::
      HasItsShare(coins[i], amounts[i], leftover, AllocatedInAll(amounts))
  }

  ghost predicate HasItsShare(c: CoinBasis, amount: int, leftover: nat, all: nat) {
    c.given == amount && c.leftover == LeftoverShare(leftover, amount, all)
  }

  function SpentInAll(coins: seq<CoinBasis>): nat {
    if coins == [] then 0 else SpentInAll(coins[..|coins| - 1]) + coins[|coins| - 1].spent
  }

  /** A coin that pays nothing back stayed within what it was given. */
  ghost predicate WithinAllocation(coins: seq<CoinBasis>) {
    forall i | 0 <= i < |coins| :: CountFor(coins[i]) == 0 ==> coins[i].spent <= coins[i].given
  }

  lemma CoinFits(c: CoinBasis, amount: int, leftover: nat, given: nat)
    requires HasItsShare(c, amount, leftover, given)
    requires given >= Positive(amount)
    requires CountFor(c) == 0 ==> c.spent <= c.given
    ensures Fits(given, c.spent + PaidFor(c), amount, leftover, Positive(amount))
  {
    var taken := c.spent + PaidFor(c);
    if CountFor(c) == 0 {
      if Refundable(c) {
        PaidNothing(c, |c.shares|);
      }
      Scale(taken, amount, given);
      NonNegative(leftover, Positive(amount));
    } else {
      PaidWithin(c);
      LeftoverWithin(leftover, amount, given);
      PayingFits(given, taken, amount, c.leftover, leftover * Positive(amount), CountFor(c));
    }
  }

  lemma NonNegative(a: nat, b: nat)
    ensures a * b >= 0
  {
  }

  lemma {:induction false} PaidNothing(c: CoinBasis, n: nat)
    requires Refundable(c) && n <= |c.shares| && PaidCount(c, n) == 0
    ensures PaidToFirst(c, n) == 0
  {
    if n > 0 {
      PaidNothing(c, n - 1);
    }
  }

  lemma LeftoverWithin(leftover: nat, amount: int, given: nat)
    ensures 2 * given * LeftoverShare(leftover, amount, given) <= 2 * (leftover * Positive(amount)) + given
  {
    NonNegative(leftover, Positive(amount));
    if given > 0 {
      BuyAmounts.RoundedIs(leftover * Positive(amount), given);
    }
  }

  lemma PayingFits(given: nat, taken: int, amount: int, share: nat, part: int, count: nat)
    requires count >= 1 && 2 * taken <= 2 * (amount + share) - 2_499 * count
    requires 2 * given * share <= 2 * part + given
    ensures given * taken <= given * amount + part
  {
    Scale(2 * taken, 2 * (amount + share) - 2_499, given);
    assert given * (2 * (amount + share) - 2_499) == 2 * (given * amount) + 2 * given * share - 2_499 * given;
    assert given * (2 * taken) == 2 * (given * taken);
  }

  lemma {:induction false} AtLeastEach(amounts: seq<int>, i: nat)
    requires i < |amounts|
    ensures Positive(amounts[i]) <= AllocatedInAll(amounts)
  {
    var n := |amounts| - 1;
    if i < n {
      AtLeastEach(amounts[..n], i);
    }
  }

  /** What is taken fits what was given and the leftover. */
  ghost predicate Fits(all: int, taken: int, given: int, leftover: int, part: int) {
    all * taken <= all * given + leftover * part
  }

  /** One coin's takings fit its allocation and its share of the leftover. */
  ghost predicate CoinFitsAt(c: CoinBasis, amount: int, leftover: nat, all: nat) {
    Fits(all, c.spent + PaidFor(c), amount, leftover, Positive(amount))
  }

  lemma EachCoinFits(coins: seq<CoinBasis>, amounts: seq<int>, leftover: nat, all: nat)
    requires FromLedger(coins, amounts, leftover) && WithinAllocation(coins) && all == AllocatedInAll(amounts)
    ensures forall i | 0 <= i < |coins| :: CoinFitsAt(coins[i], amounts[i], leftover, all)
  {
    forall i | 0 <= i < |coins| ensures CoinFitsAt(coins[i], amounts[i], leftover, all) {
      AtLeastEach(amounts, i);
      assert HasItsShare(coins[i], amounts[i], leftover, all);
      CoinFits(coins[i], amounts[i], leftover, all);
    }
  }

  lemma {:induction false} CoinsFit(coins: seq<CoinBasis>, amounts: seq<int>, leftover: nat, all: nat, n: nat)
    requires |coins| == |amounts| && n <= |coins|
    requires forall i | 0 <= i < |coins| :: CoinFitsAt(coins[i], amounts[i], leftover, all)
    ensures Fits(all, SpentInAll(coins[..n]) + PaidForAll(coins[..n]), BuyAmounts.Total(amounts[..n]), leftover,
                 AllocatedInAll(amounts[..n]))
  {
    if n > 0 {
      CoinsFit(coins, amounts, leftover, all, n - 1);
      assert CoinFitsAt(coins[n - 1], amounts[n - 1], leftover, all);
      SumsNext(coins, n);
      AmountsNext(amounts, n);
      NextFits(coins, amounts, leftover, all, n);
    }
  }

  lemma NextFits(coins: seq<CoinBasis>, amounts: seq<int>, leftover: nat, all: nat, n: nat)
    requires 0 < n <= |coins| == |amounts|
    requires Fits(all, SpentInAll(coins[..n - 1]) + PaidForAll(coins[..n - 1]), BuyAmounts.Total(amounts[..n - 1]),
                  leftover, AllocatedInAll(amounts[..n - 1]))
    requires Fits(all, coins[n - 1].spent + PaidFor(coins[n - 1]), amounts[n - 1], leftover, Positive(amounts[n - 1]))
    ensures Fits(all, (SpentInAll(coins[..n - 1]) + PaidForAll(coins[..n - 1]))
                 + (coins[n - 1].spent + PaidFor(coins[n - 1])),
                 BuyAmounts.Total(amounts[..n - 1]) + amounts[n - 1], leftover,
                   AllocatedInAll(amounts[..n - 1]) + Positive(amounts[n - 1]))
  {
    OneMoreFits(all, SpentInAll(coins[..n - 1]) + PaidForAll(coins[..n - 1]),
                coins[n - 1].spent + PaidFor(coins[n - 1]),
                BuyAmounts.Total(amounts[..n - 1]), amounts[n - 1], leftover, AllocatedInAll(amounts[..n - 1]),
                  Positive(amounts[n - 1]));
  }

  lemma SumsNext(coins: seq<CoinBasis>, n: nat)
    requires 0 < n <= |coins|
    ensures SpentInAll(coins[..n]) == SpentInAll(coins[..n - 1]) + coins[n - 1].spent
    ensures PaidForAll(coins[..n]) == PaidForAll(coins[..n - 1]) + PaidFor(coins[n - 1])
  {
    assert coins[..n][..n - 1] == coins[..n - 1];
  }

  lemma AmountsNext(amounts: seq<int>, n: nat)
    requires 0 < n <= |amounts|
    ensures BuyAmounts.Total(amounts[..n]) == BuyAmounts.Total(amounts[..n - 1]) + amounts[n - 1]
    ensures AllocatedInAll(amounts[..n]) == AllocatedInAll(amounts[..n - 1]) + Positive(amounts[n - 1])
  {
    assert amounts[..n][..n - 1] == amounts[..n - 1];
  }

  lemma OneMoreFits(all: int, s1: int, s2: int, t1: int, t2: int, leftover: int, p1: int, p2: int)
    requires Fits(all, s1, t1, leftover, p1) && Fits(all, s2, t2, leftover, p2)
    ensures Fits(all, s1 + s2, t1 + t2, leftover, p1 + p2)
  {
    assert all * (s1 + s2) == all * s1 + all * s2;
    assert all * (t1 + t2) == all * t1 + all * t2;
    assert leftover * (p1 + p2) == leftover * p1 + leftover * p2;
  }

  /** With nothing given nothing is paid back. */
  lemma {:induction false} NothingAllocated(coins: seq<CoinBasis>, amounts: seq<int>, leftover: nat, n: nat)
    requires FromLedger(coins, amounts, leftover) && WithinAllocation(coins) && n <= |coins|
             && AllocatedInAll(amounts) == 0
    ensures SpentInAll(coins[..n]) == PaidForAll(coins[..n]) == 0
    ensures 0 <= BuyAmounts.Total(amounts[..n])
  {
    if n > 0 {
      NothingAllocated(coins, amounts, leftover, n - 1);
      AtLeastEach(amounts, n - 1);
      assert coins[..n][..n - 1] == coins[..n - 1] && amounts[..n][..n - 1] == amounts[..n - 1];
      assert HasItsShare(coins[n - 1], amounts[n - 1], leftover, 0);
      assert !Refundable(coins[n - 1]);
    }
  }

  /** What the delivery reserve did not use, once what is still held is put aside. */
  function DeliveryLeftover(reserve: nat, spent: nat, held: nat): nat {
    Positive(reserve - spent - held)
  }

  /** Refunds, purchases and deliveries together never take more than the round had,
      when every coin that pays nothing back stayed within its allocation and delivery
      within its reserve: for any coins, allocations and stakes. */
  lemma RefundsFit(coins: seq<CoinBasis>, amounts: seq<int>, budget: nat, reserve: nat, delivered: nat, held: nat)
    requires FromLedger(coins, amounts, DeliveryLeftover(reserve, delivered, held)) && WithinAllocation(coins)
    requires BuyAmounts.Total(amounts) <= budget && delivered <= reserve
    ensures Paid(PlanOf(coins)) + SpentInAll(coins) + delivered <= budget + reserve
  {
    var leftover, all := DeliveryLeftover(reserve, delivered, held), AllocatedInAll(amounts);
    PlanPays(coins);
    assert coins[..|coins|] == coins && amounts[..|coins|] == amounts;
    if all == 0 {
      NothingAllocated(coins, amounts, leftover, |coins|);
    } else {
      EachCoinFits(coins, amounts, leftover, all);
      CoinsFit(coins, amounts, leftover, all, |coins|);
      Whole(all, SpentInAll(coins) + PaidForAll(coins), BuyAmounts.Total(amounts), leftover);
    }
  }

  /** The pool less the delivery reserve. */
  function BuyBudget(total: nat, reserve: nat): nat { Positive(total - reserve) }

  /** So the round never takes more than its pool, as long as the pool covered the
      delivery reserve in the first place. */
  lemma RoundStaysInItsPool(coins: seq<CoinBasis>, amounts: seq<int>, total: nat, reserve: nat, delivered: nat,
                            held: nat)
    requires FromLedger(coins, amounts, DeliveryLeftover(reserve, delivered, held)) && WithinAllocation(coins)
    requires BuyAmounts.Total(amounts) <= BuyBudget(total, reserve) && delivered <= reserve
    ensures Paid(PlanOf(coins)) + SpentInAll(coins) + delivered <= if reserve <= total then total else reserve
  {
    RefundsFit(coins, amounts, BuyBudget(total, reserve), reserve, delivered, held);
  }

  lemma Whole(all: nat, taken: int, total: int, leftover: nat)
    requires all > 0 && Fits(all, taken, total, leftover, all)
    ensures taken <= total + leftover
  {
    var x := total + leftover - taken;
    assert all * x == all * total + leftover * all - all * taken;
    if x < 0 {
      Scale(x, -1, all);
    }
  }

  // --- The fee is not always covered ----------------------------------------------------------------

  /** What sending the refunds of one coin costs. */
  function ActualFees(paid: nat): nat { TX_FEE * ((paid + BATCH - 1) / BATCH) }

  /** The keeper pays those fees out of what the recipients were charged, and comes short
      by less than one transaction and half a lamport a head. */
  lemma FeesNearlyCovered(c: CoinBasis)
    requires Refundable(c)
    ensures 2 * (PaidFor(c) + ActualFees(CountFor(c))) <= 2 * (Unspent(c) + 8_750) + CountFor(c)
  {
    PaidWithin(c);
    assert 8 * ((CountFor(c) + 7) / 8) <= CountFor(c) + 7;
  }

  function GrossTo(c: CoinBasis, n: nat): int
    requires n <= |c.shares| && (n > 0 ==> Refundable(c))
  {
    if n == 0 then 0 else GrossTo(c, n - 1) + Gross(Unspent(c), c.shares[n - 1].stake, TotalStake(c.shares))
  }

  /** The shares too small to be sent, which stay with the keeper. */
  function UnsentTo(c: CoinBasis, n: nat): int
    requires n <= |c.shares| && (n > 0 ==> Refundable(c))
  {
    if n == 0 then 0
    else
      var gross := Gross(Unspent(c), c.shares[n - 1].stake, TotalStake(c.shares));
      UnsentTo(c, n - 1) + if Net(gross, FeeEach(|c.shares|)) > 0 then 0 else gross
  }

  /** All that a coin did not spend is paid out, charged as a fee, or stays unsent. */
  lemma {:induction false} WhereItGoes(c: CoinBasis, n: nat)
    requires Refundable(c) && n <= |c.shares|
    ensures PaidToFirst(c, n) + FeeEach(|c.shares|) * PaidCount(c, n) + UnsentTo(c, n) == GrossTo(c, n)
    ensures var total, part := TotalStake(c.shares), Unspent(c) * TotalStake(c.shares[..n]);
            2 * part - n * total <= 2 * total * GrossTo(c, n) <= 2 * part + n * total
  {
    if n > 0 {
      WhereItGoes(c, n - 1);
      var unspent, stake, total := Unspent(c), c.shares[n - 1].stake, TotalStake(c.shares);
      assert c.shares[..n][..n - 1] == c.shares[..n - 1];
      BuyAmounts.RoundedIs(unspent * stake, total);
      BuyAmounts.OneMoreShare(unspent, TotalStake(c.shares[..n - 1]), stake, total, GrossTo(c, n - 1),
                              Gross(unspent, stake, total), n - 1);
      OneMoreCharged(FeeEach(|c.shares|), PaidCount(c, n - 1));
    }
  }

  lemma OneMoreCharged(fee: int, count: nat)
    ensures fee * (count + 1) == fee * count + fee
  {
  }

  /** The refunds' own fees are covered exactly when they are no more than what those paid
      were charged, what stays unsent, and what the rounding lost; rounding moves no more
      than half a lamport a backer. */
  lemma WhenFeesAreCovered(c: CoinBasis)
    requires Refundable(c)
    ensures var n, count := |c.shares|, CountFor(c); var lost := Unspent(c) - GrossTo(c, n);
            && (PaidFor(c) + ActualFees(count) <= Unspent(c)
                <==> ActualFees(count) <= FeeEach(n) * count + UnsentTo(c, n) + lost)
            && -2 * lost <= n && 2 * lost <= n
  {
    var n := |c.shares|;
    WhereItGoes(c, n);
    assert c.shares[..n] == c.shares;
    Half(TotalStake(c.shares), Unspent(c), GrossTo(c, n), n);
  }

  lemma Half(total: nat, unspent: int, gross: int, n: nat)
    requires total > 0 && 2 * (unspent * total) - n * total <= 2 * total * gross <= 2 * (unspent * total) + n * total
    ensures -2 * (unspent - gross) <= n && 2 * (unspent - gross) <= n
  {
    var x := 2 * (unspent - gross);
    assert total * x == 2 * (unspent * total) - 2 * total * gross;
    BuyAmounts.InOrder(x, n, total);
    BuyAmounts.InOrder(-x, n, total);
  }

  /** If everybody behind the coin is paid, rounding is all that can be missing: at most a
      lamport a backer. */
  lemma AllPaidAllCovered(c: CoinBasis)
    requires Refundable(c) && CountFor(c) == |c.shares|
    ensures PaidFor(c) + ActualFees(CountFor(c)) <= Unspent(c) + |c.shares|
  {
    var n := |c.shares|;
    WhenFeesAreCovered(c);
    WhereItGoes(c, n);
    AllPaidUnsent(c, n);
    FeeAllows(n);
  }

  lemma FeeAllows(n: nat)
    requires n > 0
    ensures 2 * ActualFees(n) <= 2 * (FeeEach(n) * n) + n
  {
    FeeIsEnough(n);
    BuyAmounts.RoundedIs(ActualFees(n), n);
    assert 2 * n * FeeEach(n) == 2 * (FeeEach(n) * n);
  }

  lemma {:induction false} PaidCountWithin(c: CoinBasis, n: nat)
    requires Refundable(c) && n <= |c.shares|
    ensures PaidCount(c, n) <= n
  {
    if n > 0 {
      PaidCountWithin(c, n - 1);
    }
  }

  lemma {:induction false} AllPaidUnsent(c: CoinBasis, n: nat)
    requires Refundable(c) && n <= |c.shares| && PaidCount(c, n) == n
    ensures UnsentTo(c, n) == 0
  {
    if n > 0 {
      PaidCountWithin(c, n - 1);
      AllPaidUnsent(c, n - 1);
    }
  }

  const ONE_BIG: seq<Share> :=
    [Share("a", 1_000_000_000_000, 0), Share("b", 1, 0), Share("c", 1, 0), Share("d", 1, 0),
     Share("e", 1, 0), Share("f", 1, 0), Share("g", 1, 0), Share("h", 1, 0)]

  lemma {:induction false} OneBigStake(n: nat)
    requires 1 <= n <= 8
    ensures TotalStake(ONE_BIG[..n]) == 999_999_999_999 + n
  {
    if n == 1 {
      assert ONE_BIG[..1][..0] == [];
    } else {
      OneBigStake(n - 1);
      assert ONE_BIG[..n][..n - 1] == ONE_BIG[..n - 1];
    }
  }

  lemma {:induction false} OnlyTheFirstIsPaid(c: CoinBasis, n: nat)
    requires c == CoinBasis(100_000_000, 0, 0, ONE_BIG) && TotalStake(ONE_BIG) == 1_000_000_000_007 && 1 <= n <= 8
    ensures PaidToFirst(c, n) == 99_998_750 && PaidCount(c, n) == 1
  {
    assert FeeEach(8) == 1_250;
    if n == 1 {
      assert Gross(100_000_000, 1_000_000_000_000, 1_000_000_000_007) == 100_000_000;
      assert PaidToFirst(c, 0) == 0 && PaidCount(c, 0) == 0;
    } else {
      OnlyTheFirstIsPaid(c, n - 1);
      assert ONE_BIG[n - 1].stake == 1 && Gross(100_000_000, 1, 1_000_000_000_007) == 0;
    }
  }

  /** The bound is reached: of eight backers only the big one is worth paying, and it is
      charged an eighth of the transaction's fee. */
  lemma FeesMayNotBeCovered()
    ensures var c := CoinBasis(100_000_000, 0, 0, ONE_BIG);
            Refundable(c) && CountFor(c) == 1 && PaidFor(c) + ActualFees(CountFor(c)) == Unspent(c) + 8_750
  {
    OneBigStake(8);
    assert ONE_BIG[..8] == ONE_BIG;
    OnlyTheFirstIsPaid(CoinBasis(100_000_000, 0, 0, ONE_BIG), 8);
  }
}
