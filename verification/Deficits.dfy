/** How much each delivery of a round carries
    (offchain/orchestrator/sendRounds.ts, calculateDeficitAmounts). */
module Deficits {
  import opened Solana
  import opened Shares
  import opened SendRecords

  /** The exact basis of a coin with burners. */
  datatype Basis = Basis(bought: int, shares: seq<Share>)

  // --- What each recipient is short of ------------------------------------------

  function Target(sends: seq<SendRecord>, w: Wallet, balance: int, basis: Option<Basis>): int
    requires TotalBet(sends) > 0
  {
    match basis
    case Some(b) => DeliveryOwed(b.bought, w, b.shares)
    case None => Portion(balance + DeliveredInAll(sends), BetOf(sends, w), TotalBet(sends))
  }

  function Deficit(sends: seq<SendRecord>, w: Wallet, balance: int, basis: Option<Basis>): nat
    requires TotalBet(sends) > 0
  {
    Max(0, Target(sends, w, balance, basis) - DeliveredTo(sends, w, basis.Some?))
  }

  ghost predicate Distinct<T>(s: seq<T>) {
    forall i, j | 0 <= i < j < |s| :: s[i] != s[j]
  }

  predicate ValidIds(sends: seq<SendRecord>, ids: seq<nat>) {
    forall k | 0 <= k < |ids| :: ids[k] < |sends|
  }

  /** The recipients of the records in `ids`, in order of first appearance. */
  function RecipientsOf(sends: seq<SendRecord>, ids: seq<nat>): seq<Wallet>
    requires ValidIds(sends, ids)
  {
    if ids == [] then []
    else
      var before, w := RecipientsOf(sends, ids[..|ids| - 1]), sends[ids[|ids| - 1]].recipient;
      if w in before then before else before + [w]
  }

  lemma {:induction false} RecipientsAre(sends: seq<SendRecord>, ids: seq<nat>)
    requires ValidIds(sends, ids)
    ensures var ws := RecipientsOf(sends, ids);
            && Distinct(ws)
            && (forall k | 0 <= k < |ids| :: sends[ids[k]].recipient in ws)
            && (forall w | w in ws :: exists k :: 0 <= k < |ids| && sends[ids[k]].recipient == w)
  {
    if ids != [] {
      var n := |ids| - 1;
      RecipientsAre(sends, ids[..n]);
      var before := RecipientsOf(sends, ids[..n]);
      forall k | 0 <= k < n ensures sends[ids[k]].recipient in before {
        assert ids[..n][k] == ids[k];
      }
      forall w | w in before ensures exists k :: 0 <= k < |ids| && sends[ids[k]].recipient == w {
        var k :| 0 <= k < n && sends[ids[..n][k]].recipient == w;
        assert ids[..n][k] == ids[k];
      }
      assert sends[ids[n]].recipient == sends[ids[|ids| - 1]].recipient;
    }
  }

  /** The coin's wallets, in order of first appearance. */
  function Recipients(sends: seq<SendRecord>): seq<Wallet> {
    if sends == [] then []
    else
      var before, w := Recipients(sends[..|sends| - 1]), sends[|sends| - 1].recipient;
      if w in before then before else before + [w]
  }

  lemma {:induction false} RecipientsAreThose(sends: seq<SendRecord>)
    ensures Distinct(Recipients(sends)) && forall w :: w in Recipients(sends) <==> Receives(sends, w)
  {
    if sends != [] {
      var n := |sends| - 1;
      RecipientsAreThose(sends[..n]);
      assert sends == sends[..n] + [sends[n]];
      forall w ensures Receives(sends, w) <==> Receives(sends[..n], w) || sends[n].recipient == w {
        if sends[n].recipient == w { assert sends[n] in sends; }
      }
    }
  }

  /** One recipient's records among `ids`. */
  function IdsOf(sends: seq<SendRecord>, ids: seq<nat>, w: Wallet): seq<nat>
    requires ValidIds(sends, ids)
  {
    if ids == [] then []
    else
      var before, id := IdsOf(sends, ids[..|ids| - 1], w), ids[|ids| - 1];
      if sends[id].recipient == w then before + [id] else before
  }

  lemma {:induction false} IdsAre(sends: seq<SendRecord>, ids: seq<nat>, w: Wallet)
    requires ValidIds(sends, ids)
    ensures var r := IdsOf(sends, ids, w);
            && (forall k | 0 <= k < |r| :: r[k] in ids && r[k] < |sends| && sends[r[k]].recipient == w)
            && (forall k | 0 <= k < |ids| :: sends[ids[k]].recipient == w ==> ids[k] in r)
            && (Distinct(ids) ==> Distinct(r))
  {
    if ids != [] {
      var n := |ids| - 1;
      IdsAre(sends, ids[..n], w);
      assert forall k | 0 <= k < n :: ids[..n][k] == ids[k];
    }
  }

  function DeficitsOf(sends: seq<SendRecord>, ws: seq<Wallet>, balance: int, basis: Option<Basis>): (d: seq<nat>)
    requires TotalBet(sends) > 0
    ensures |d| == |ws| && forall i | 0 <= i < |ws| :: d[i] == Deficit(sends, ws[i], balance, basis)
  {
    if ws == [] then []
    else DeficitsOf(sends, ws[..|ws| - 1], balance, basis) + [Deficit(sends, ws[|ws| - 1], balance, basis)]
  }

  // --- Sharing the balance out ------------------------------------------------------

  function Sum(d: seq<nat>): nat {
    if d == [] then 0 else Sum(d[..|d| - 1]) + d[|d| - 1]
  }

  /** What a recipient that is not the last one gets. */
  function Regular(deficit: nat, total: int, balance: int): int
    requires total > 0
  {
    if total <= balance then deficit else Portion(balance, deficit, total)
  }

  function RegularSum(d: seq<nat>, n: nat, balance: int): int
    requires n <= |d| && Sum(d) > 0
  {
    if n == 0 then 0 else RegularSum(d, n - 1, balance) + Regular(d[n - 1], Sum(d), balance)
  }

  function Given(d: seq<nat>, i: nat, balance: int): int
    requires i < |d| && Sum(d) > 0
  {
    if i == |d| - 1 then Min(Sum(d), balance) - RegularSum(d, i, balance)
    else Regular(d[i], Sum(d), balance)
  }

  function GivenSum(d: seq<nat>, n: nat, balance: int): int
    requires n <= |d| && Sum(d) > 0
  {
    if n == 0 then 0 else GivenSum(d, n - 1, balance) + Given(d, n - 1, balance)
  }

  lemma {:induction false} RegularFloored(d: seq<nat>, n: nat, balance: int)
    requires n <= |d| && 0 < balance < Sum(d)
    ensures Floored(Sum(d), balance, Sum(d[..n]), RegularSum(d, n, balance), n)
  {
    if n > 0 {
      RegularFloored(d, n - 1, balance);
      assert d[..n][..n - 1] == d[..n - 1];
      FlooredPortion(Sum(d), balance, d[n - 1]);
      FlooredSum(Sum(d), balance, Sum(d[..n - 1]), d[n - 1], RegularSum(d, n - 1, balance),
                 Regular(d[n - 1], Sum(d), balance), n - 1, 1);
    }
  }

  lemma {:induction false} RegularUnscaled(d: seq<nat>, n: nat, balance: int)
    requires n <= |d| && 0 < Sum(d) <= balance
    ensures RegularSum(d, n, balance) == Sum(d[..n])
  {
    if n > 0 {
      RegularUnscaled(d, n - 1, balance);
      assert d[..n][..n - 1] == d[..n - 1];
    }
  }

  /** Everything that fits is handed out and nothing more: the recipients' amounts
      add up to the smaller of the total deficit and the balance. With enough on
      the keeper each gets its deficit; scaled down, each but the last gets at most
      its deficit and at most its proportional share, and the last is above its
      proportional share by less than one raw unit for each of the others. */
  lemma SharedOut(d: seq<nat>, balance: int)
    requires 0 < Sum(d) && 0 < balance
    ensures GivenSum(d, |d|, balance) == Min(Sum(d), balance)
    ensures forall i | 0 <= i < |d| :: 0 <= Given(d, i, balance)
    ensures Sum(d) <= balance ==> forall i | 0 <= i < |d| :: Given(d, i, balance) == d[i]
    ensures balance < Sum(d) ==> forall i | 0 <= i < |d| - 1 ::
              Given(d, i, balance) <= d[i] && Given(d, i, balance) == Portion(balance, d[i], Sum(d))
    ensures var last := |d| - 1;
            balance < Sum(d) ==>
              Portion(balance, d[last], Sum(d)) <= Given(d, last, balance) <= Portion(balance, d[last], Sum(d)) + last
  {
    GivenIsRegular(d, |d| - 1, balance);
    if Sum(d) <= balance {
      RegularUnscaled(d, |d| - 1, balance);
    } else {
      forall i | 0 <= i < |d| - 1
        ensures 0 <= Portion(balance, d[i], Sum(d)) <= d[i]
      {
        PortionWithin(balance, d[i], Sum(d));
      }
      LastShare(d, balance);
    }
  }

  lemma PortionWithin(balance: int, deficit: nat, total: int)
    requires 0 < balance < total
    ensures 0 <= Portion(balance, deficit, total) <= deficit
  {
    Quotient(balance * deficit, total);
    assert 0 <= balance * deficit <= total * deficit;
    QuotientOrder(0, balance * deficit, total, 0, Portion(balance, deficit, total));
    QuotientOrder(balance * deficit, total * deficit, total, Portion(balance, deficit, total), deficit);
  }

  lemma LastShare(d: seq<nat>, balance: int)
    requires 0 < balance < Sum(d)
    ensures var last := |d| - 1; var share := Portion(balance, d[last], Sum(d));
            0 <= share <= Given(d, last, balance) <= share + last
  {
    var last, total := |d| - 1, Sum(d);
    var share := Portion(balance, d[last], total);
    RegularFloored(d, last, balance);
    FlooredPortion(total, balance, d[last]);
    FlooredSum(total, balance, Sum(d[..last]), d[last], RegularSum(d, last, balance), share, last, 1);
    CancelFloored(total, RegularSum(d, last, balance) + share, balance, |d|);
    PortionWithin(balance, d[last], total);
  }

  lemma {:induction false} GivenIsRegular(d: seq<nat>, n: nat, balance: int)
    requires n < |d| && 0 < Sum(d)
    ensures GivenSum(d, n, balance) == RegularSum(d, n, balance)
  {
    if n > 0 {
      GivenIsRegular(d, n - 1, balance);
    }
  }

  /** What rounding down leaves of the first recipients' shares, in parts of a raw unit of
      which the total deficit makes one. */
  function Remainders(d: seq<nat>, n: nat, balance: nat): nat
    requires n <= |d| && Sum(d) > 0
  {
    if n == 0 then 0 else Remainders(d, n - 1, balance) + (balance * d[n - 1]) % Sum(d)
  }

  lemma {:induction false} RegularAndRemainders(d: seq<nat>, n: nat, balance: nat)
    requires n <= |d| && 0 < balance < Sum(d)
    ensures Sum(d) * RegularSum(d, n, balance) + Remainders(d, n, balance) == balance * Sum(d[..n])
  {
    if n > 0 {
      RegularAndRemainders(d, n - 1, balance);
      assert d[..n][..n - 1] == d[..n - 1];
      PortionAndRest(Sum(d), RegularSum(d, n - 1, balance), Remainders(d, n - 1, balance), balance, Sum(d[..n - 1]),
                     d[n - 1]);
    }
  }

  lemma PortionAndRest(total: nat, regular: int, dust: nat, balance: nat, sum: nat, deficit: nat)
    requires total > 0 && total * regular + dust == balance * sum
    ensures total * (regular + Portion(balance, deficit, total)) + dust + (balance * deficit) % total
            == balance * (sum + deficit)
  {
    var product := balance * deficit;
    assert product == total * (product / total) + product % total;
    assert total * (regular + product / total) == total * regular + total * (product / total);
    assert balance * (sum + deficit) == balance * sum + product;
  }

  /** The last recipient takes all the dust, so it may get more than it is short of: it
      does exactly when the dust of the others' shares is worth more than what its own
      deficit is scaled down by. The others never do. */
  lemma LastMayExceedItsDeficit(d: seq<nat>, balance: nat)
    requires 0 < balance < Sum(d)
    ensures var last := |d| - 1;
            && Sum(d) * (Given(d, last, balance) - d[last])
               == Remainders(d, last, balance) - (Sum(d) - balance) * d[last]
            && (Given(d, last, balance) > d[last] <==> Remainders(d, last, balance) > (Sum(d) - balance) * d[last])
  {
    var last := |d| - 1;
    var total, regular, dust := Sum(d), RegularSum(d, last, balance), Remainders(d, last, balance);
    RegularAndRemainders(d, last, balance);
    LastTakesDust(total, regular, dust, balance, d[last]);
    SignOfProduct(total, Given(d, last, balance) - d[last]);
  }

  lemma LastTakesDust(total: nat, regular: int, dust: nat, balance: nat, deficit: nat)
    requires deficit <= total && total * regular + dust == balance * (total - deficit)
    ensures total * (balance - regular - deficit) == dust - (total - balance) * deficit
  {
    assert total * (balance - regular - deficit) == total * balance - total * regular - total * deficit;
    assert balance * (total - deficit) == balance * total - balance * deficit;
    assert (total - balance) * deficit == total * deficit - balance * deficit;
  }

  lemma SignOfProduct(a: int, b: int)
    requires a > 0
    ensures a * b > 0 <==> b > 0
  {
    if b <= 0 {
      assert a * b <= 0;
    }
  }

  /** Three recipients short of one raw unit each, with two to share: the last one gets
      both. */
  lemma LastGetsTwice()
    ensures var d: seq<nat> := [1, 1, 1]; Sum(d) == 3 && Remainders(d, 2, 2) == 4 && Given(d, 2, 2) == 2
  {
    var three: seq<nat> := [1, 1, 1];
    assert three[..2] == [1, 1];
    assert Sum([1]) == 1 && Sum([1, 1]) == 2 by {
      assert [1, 1][..1] == [1] && [1][..0] == [];
    }
    assert Sum(three) == 3;
    assert Portion(2, 1, 3) == 0;
    assert RegularSum(three, 0, 2) == 0 && RegularSum(three, 1, 2) == 0 && RegularSum(three, 2, 2) == 0;
    assert Remainders(three, 0, 2) == 0 && Remainders(three, 1, 2) == 2 && Remainders(three, 2, 2) == 4;
  }

  // --- Splitting a recipient's amount among its records --------------------------------

  function AmountOf(amounts: map<nat, nat>, id: nat): nat {
    if id in amounts then amounts[id] else 0
  }

  function SumOver(amounts: map<nat, nat>, ids: seq<nat>): nat {
    if ids == [] then 0 else SumOver(amounts, ids[..|ids| - 1]) + AmountOf(amounts, ids[|ids| - 1])
  }

  lemma {:induction false} SumOverFrame(a: map<nat, nat>, b: map<nat, nat>, ids: seq<nat>)
    requires forall k | 0 <= k < |ids| :: AmountOf(a, ids[k]) == AmountOf(b, ids[k])
    ensures SumOver(a, ids) == SumOver(b, ids)
  {
    if ids != [] {
      SumOverFrame(a, b, ids[..|ids| - 1]);
    }
  }

  lemma {:induction false} SumOfNothing(amounts: map<nat, nat>, ids: seq<nat>)
    requires forall k | 0 <= k < |ids| :: ids[k] !in amounts
    ensures SumOver(amounts, ids) == 0
  {
    if ids != [] {
      SumOfNothing(amounts, ids[..|ids| - 1]);
    }
  }

  ghost predicate AllPositive(amounts: map<nat, nat>) {
    forall id | id in amounts :: amounts[id] > 0
  }

  /** Splits one recipient's amount evenly; the last record takes the remainder, and
      a record that would carry nothing is left out. */
  method Split(amounts: map<nat, nat>, ids: seq<nat>, amount: nat) returns (r: map<nat, nat>)
    requires ids != [] && Distinct(ids) && AllPositive(amounts)
    requires forall k | 0 <= k < |ids| :: ids[k] !in amounts
    ensures SumOver(r, ids) == amount && AllPositive(r)
    ensures forall id :: id !in ids ==> AmountOf(r, id) == AmountOf(amounts, id)
  {
    r := amounts;
    var n := |ids|;
    var perSend := amount / n;
    var distributed := 0;
    for j := 0 to n
      invariant distributed == SumOver(r, ids[..j]) && AllPositive(r)
      invariant distributed == if j == n then amount else j * perSend
      invariant forall k | j <= k < n :: ids[k] !in r
      invariant forall id :: id !in ids ==> AmountOf(r, id) == AmountOf(amounts, id)
    {
      EvenPart(amount, n, j, perSend);
      var part := if j == n - 1 then amount - distributed else perSend;
      r := Put(r, ids, j, part);
      distributed := distributed + part;
    }
    assert ids[..n] == ids;
  }

  /** One record's part, if it carries anything. */
  method Put(amounts: map<nat, nat>, ids: seq<nat>, j: nat, part: nat) returns (r: map<nat, nat>)
    requires j < |ids| && Distinct(ids) && AllPositive(amounts) && ids[j] !in amounts
    ensures SumOver(r, ids[..j + 1]) == SumOver(amounts, ids[..j]) + part && AllPositive(r)
    ensures forall id :: id != ids[j] ==> (id in r <==> id in amounts) && AmountOf(r, id) == AmountOf(amounts, id)
  {
    r := amounts;
    if part > 0 {
      r := amounts[ids[j] := part];
    }
    SumOverFrame(amounts, r, ids[..j]);
    assert ids[..j + 1][..j] == ids[..j];
  }

  lemma EvenPart(amount: nat, n: nat, j: nat, part: nat)
    requires j < n && part == amount / n
    ensures 0 <= j * part <= amount
    ensures (j + 1) * part == j * part + part
  {
    Quotient(amount, n);
    assert j * part <= n * part;
  }

  // --- The whole calculation --------------------------------------------------------------

  /** The amount of each record of the round, by its id. `active` are the records of
      this round, `sends` all of the coin's. */
  method CalculateDeficitAmounts(sends: seq<SendRecord>, active: seq<nat>, balance: int, basis: Option<Basis>)
    returns (amounts: map<nat, nat>)
    requires Distinct(active) && ValidIds(sends, active)
    ensures AllPositive(amounts) && forall id | id in amounts :: id in active
    ensures balance <= 0 || TotalBet(sends) == 0 ==> amounts == map[]
    ensures balance > 0 && TotalBet(sends) > 0 ==>
              var ws := RecipientsOf(sends, active);
              var d := DeficitsOf(sends, ws, balance, basis);
              && SumOver(amounts, active) == Min(Sum(d), balance)
              && forall i | 0 <= i < |ws| ::
                SumOver(amounts, IdsOf(sends, active, ws[i])) == if Sum(d) == 0 then 0 else Given(d, i, balance)
  {
    amounts := map[];
    if active == [] || balance <= 0 || TotalBet(sends) <= 0 {
      return;
    }
    var entries, deficits, idsOf, total := DeficitPerRecipient(sends, active, balance, basis);
    if total <= 0 {
      forall i | 0 <= i < |entries| ensures SumOver(amounts, IdsOf(sends, active, entries[i])) == 0 {
        SumOfNothing(amounts, IdsOf(sends, active, entries[i]));
      }
      SumOfNothing(amounts, active);
      return;
    }
    RecipientsAre(sends, active);
    amounts := ShareOut(sends, active, entries, deficits, idsOf, balance);
    GroupsAddUp(amounts, sends, active, entries);
    GroupsAreGiven(amounts, sends, active, entries, deficits, |entries|, balance);
    SharedOut(deficits, balance);
  }

  predicate Untouched(amounts: map<nat, nat>, ids: seq<nat>) {
    forall k | 0 <= k < |ids| :: ids[k] !in amounts
  }

  method RecipientAmount(deficits: seq<nat>, i: nat, balance: int, distributed: int) returns (amount: nat)
    requires i < |deficits| && balance > 0 && Sum(deficits) > 0
    requires distributed == GivenSum(deficits, i, balance)
    ensures amount == Given(deficits, i, balance)
  {
    var total := Sum(deficits);
    SharedOut(deficits, balance);
    if i == |deficits| - 1 {
      GivenIsRegular(deficits, i, balance);
      amount := (if total <= balance then total else balance) - distributed;
    } else if total <= balance {
      amount := deficits[i];
    } else {
      amount := (balance * deficits[i]) / total;
    }
  }

  /** The records of `ids` that belong to the first `n` of `ws`, together. */
  function GroupTotal(amounts: map<nat, nat>, sends: seq<SendRecord>, ids: seq<nat>, ws: seq<Wallet>, n: nat): nat
    requires ValidIds(sends, ids) && n <= |ws|
  {
    if n == 0 then 0
    else GroupTotal(amounts, sends, ids, ws, n - 1) + SumOver(amounts, IdsOf(sends, ids, ws[n - 1]))
  }

  lemma {:induction false} GroupTotalStep(amounts: map<nat, nat>, sends: seq<SendRecord>, ids: seq<nat>,
                                          ws: seq<Wallet>, n: nat)
    requires ValidIds(sends, ids) && ids != [] && n <= |ws| && Distinct(ws)
    ensures var id := ids[|ids| - 1];
            var before := GroupTotal(amounts, sends, ids[..|ids| - 1], ws, n);
            GroupTotal(amounts, sends, ids, ws, n)
            == if sends[id].recipient in ws[..n] then before + AmountOf(amounts, id) else before
  {
    if n > 0 {
      GroupTotalStep(amounts, sends, ids, ws, n - 1);
      var before, id := IdsOf(sends, ids[..|ids| - 1], ws[n - 1]), ids[|ids| - 1];
      assert (before + [id])[..|before|] == before;
      assert ws[..n] == ws[..n - 1] + [ws[n - 1]];
      assert ws[n - 1] !in ws[..n - 1];
    }
  }

  /** Counted by recipient or record by record, it is the same total. */
  lemma {:induction false} GroupsAddUp(amounts: map<nat, nat>, sends: seq<SendRecord>, ids: seq<nat>, ws: seq<Wallet>)
    requires ValidIds(sends, ids) && Distinct(ws)
    requires forall k | 0 <= k < |ids| :: AmountOf(amounts, ids[k]) > 0 ==> sends[ids[k]].recipient in ws
    ensures GroupTotal(amounts, sends, ids, ws, |ws|) == SumOver(amounts, ids)
  {
    if ids == [] {
      NoGroups(amounts, sends, ws, |ws|);
    } else {
      GroupTotalStep(amounts, sends, ids, ws, |ws|);
      assert ws[..|ws|] == ws;
      GroupsAddUp(amounts, sends, ids[..|ids| - 1], ws);
    }
  }

  lemma {:induction false} NoGroups(amounts: map<nat, nat>, sends: seq<SendRecord>, ws: seq<Wallet>, n: nat)
    requires n <= |ws|
    ensures GroupTotal(amounts, sends, [], ws, n) == 0
  {
    if n > 0 {
      NoGroups(amounts, sends, ws, n - 1);
    }
  }

  lemma {:induction false} GroupsAreGiven(amounts: map<nat, nat>, sends: seq<SendRecord>, ids: seq<nat>,
                                          ws: seq<Wallet>, d: seq<nat>, n: nat, balance: int)
    requires ValidIds(sends, ids) && n <= |ws| == |d| && Sum(d) > 0
    requires forall i | 0 <= i < |ws| :: SumOver(amounts, IdsOf(sends, ids, ws[i])) == Given(d, i, balance)
    ensures GroupTotal(amounts, sends, ids, ws, n) == GivenSum(d, n, balance)
  {
    if n > 0 {
      GroupsAreGiven(amounts, sends, ids, ws, d, n - 1, balance);
    }
  }

  /** The second half: the balance shared out among the recipients, and each
      recipient's amount among its records. */
  method ShareOut(sends: seq<SendRecord>, active: seq<nat>, entries: seq<Wallet>, deficits: seq<nat>,
                  idsOf: map<Wallet, seq<nat>>, balance: int)
    returns (amounts: map<nat, nat>)
    requires Distinct(active) && ValidIds(sends, active)
    requires Distinct(entries) && |entries| == |deficits| && balance > 0 && Sum(deficits) > 0
    requires forall w | w in entries :: w in idsOf && idsOf[w] == IdsOf(sends, active, w) && idsOf[w] != []
    ensures AllPositive(amounts) && forall id | id in amounts :: id in active
    ensures forall i | 0 <= i < |entries| ::
              SumOver(amounts, IdsOf(sends, active, entries[i])) == Given(deficits, i, balance)
  {
    amounts := map[];
    var distributed := 0;
    for i := 0 to |entries|
      invariant distributed == GivenSum(deficits, i, balance)
      invariant AllPositive(amounts) && forall id | id in amounts :: id in active
      invariant forall k | i <= k < |entries| :: Untouched(amounts, IdsOf(sends, active, entries[k]))
      invariant forall k | 0 <= k < i ::
                  SumOver(amounts, IdsOf(sends, active, entries[k])) == Given(deficits, k, balance)
    {
      var ids := idsOf[entries[i]];
      IdsAre(sends, active, entries[i]);
      var amount := RecipientAmount(deficits, i, balance, distributed);
      distributed := distributed + amount;
      ghost var before := amounts;
      if amount > 0 {
        amounts := Split(amounts, ids, amount);
        OnlyThese(sends, active, entries[i], before, amounts);
      } else {
        SumOfNothing(amounts, ids);
      }
      OthersKeepTheirs(sends, active, entries, i, before, amounts);
    }
  }

  lemma OnlyThese(sends: seq<SendRecord>, active: seq<nat>, w: Wallet, before: map<nat, nat>, after: map<nat, nat>)
    requires ValidIds(sends, active) && AllPositive(before) && AllPositive(after)
    requires forall id :: id !in IdsOf(sends, active, w) ==> AmountOf(after, id) == AmountOf(before, id)
    ensures forall id | id in after :: id in before || id in IdsOf(sends, active, w)
  {
    forall id | id in after && id !in IdsOf(sends, active, w) ensures id in before {
      assert AmountOf(after, id) == AmountOf(before, id);
    }
  }

  lemma OthersKeepTheirs(sends: seq<SendRecord>, active: seq<nat>, entries: seq<Wallet>, i: nat,
                         before: map<nat, nat>, after: map<nat, nat>)
    requires ValidIds(sends, active) && i < |entries| && Distinct(entries)
    requires AllPositive(before) && AllPositive(after)
    requires forall id :: id !in IdsOf(sends, active, entries[i]) ==> AmountOf(after, id) == AmountOf(before, id)
    ensures forall k | 0 <= k < |entries| && k != i ::
              SumOver(after, IdsOf(sends, active, entries[k])) == SumOver(before, IdsOf(sends, active, entries[k]))
    ensures forall k | 0 <= k < |entries| && k != i ::
              Untouched(before, IdsOf(sends, active, entries[k])) ==> Untouched(after, IdsOf(sends, active, entries[k]))
  {
    forall k | 0 <= k < |entries| && k != i
      ensures SumOver(after, IdsOf(sends, active, entries[k])) == SumOver(before, IdsOf(sends, active, entries[k]))
      ensures Untouched(before, IdsOf(sends, active, entries[k])) ==> Untouched(after, IdsOf(sends, active, entries[k]))
    {
      var ids := IdsOf(sends, active, entries[k]);
      assert entries[k] != entries[i];
      IdsAre(sends, active, entries[k]);
      IdsAre(sends, active, entries[i]);
      assert forall m | 0 <= m < |ids| :: ids[m] !in IdsOf(sends, active, entries[i]);
      SumOverFrame(before, after, ids);
      OnlyThese(sends, active, entries[i], before, after);
    }
  }

  /** The first half: one deficit for each recipient, however many records it has. */
  method DeficitPerRecipient(sends: seq<SendRecord>, active: seq<nat>, balance: int, basis: Option<Basis>)
    returns (entries: seq<Wallet>, deficits: seq<nat>, idsOf: map<Wallet, seq<nat>>, total: nat)
    requires ValidIds(sends, active) && TotalBet(sends) > 0
    ensures entries == RecipientsOf(sends, active)
    ensures deficits == DeficitsOf(sends, entries, balance, basis) && total == Sum(deficits)
    ensures forall w | w in entries :: w in idsOf && idsOf[w] == IdsOf(sends, active, w) && idsOf[w] != []
  {
    entries, deficits, idsOf := [], [], map[];
    for k := 0 to |active|
      invariant ValidIds(sends, active[..k])
      invariant entries == RecipientsOf(sends, active[..k])
      invariant deficits == DeficitsOf(sends, entries, balance, basis)
      invariant Grouped(sends, active[..k], entries, idsOf)
    {
      var w := sends[active[k]].recipient;
      OneMore(sends, active, k, entries, idsOf);
      if w !in entries {
        DeficitsNext(sends, entries, w, balance, basis);
        deficits := deficits + [Deficit(sends, w, balance, basis)];
        entries := entries + [w];
        idsOf := idsOf[w := []];
      }
      idsOf := idsOf[w := idsOf[w] + [active[k]]];
    }
    assert active[..|active|] == active;
    total := Total(deficits);
  }

  lemma DeficitsNext(sends: seq<SendRecord>, ws: seq<Wallet>, w: Wallet, balance: int, basis: Option<Basis>)
    requires TotalBet(sends) > 0
    ensures DeficitsOf(sends, ws + [w], balance, basis) == DeficitsOf(sends, ws, balance, basis)
            + [Deficit(sends, w, balance, basis)]
  {
    assert (ws + [w])[..|ws|] == ws;
  }

  ghost predicate Grouped(sends: seq<SendRecord>, ids: seq<nat>, entries: seq<Wallet>, idsOf: map<Wallet, seq<nat>>)
    requires ValidIds(sends, ids)
  {
    forall w | w in entries :: w in idsOf && idsOf[w] == IdsOf(sends, ids, w) && idsOf[w] != []
  }

  lemma OneMore(sends: seq<SendRecord>, active: seq<nat>, k: nat, entries: seq<Wallet>, idsOf: map<Wallet, seq<nat>>)
    requires ValidIds(sends, active) && k < |active|
    requires ValidIds(sends, active[..k]) && entries == RecipientsOf(sends, active[..k])
    requires Grouped(sends, active[..k], entries, idsOf)
    ensures ValidIds(sends, active[..k + 1])
    ensures var w := sends[active[k]].recipient;
            var now := if w in entries then entries else entries + [w];
            var at := if w in entries then idsOf else idsOf[w := []];
            && w in at && now == RecipientsOf(sends, active[..k + 1])
            && Grouped(sends, active[..k + 1], now, at[w := at[w] + [active[k]]])
  {
    assert active[..k + 1][..k] == active[..k];
    var w := sends[active[k]].recipient;
    if w !in entries {
      NoIds(sends, active[..k], w);
    }
  }

  lemma {:induction false} NoIds(sends: seq<SendRecord>, ids: seq<nat>, w: Wallet)
    requires ValidIds(sends, ids) && w !in RecipientsOf(sends, ids)
    ensures IdsOf(sends, ids, w) == []
  {
    if ids != [] {
      NoIds(sends, ids[..|ids| - 1], w);
    }
  }

  method Total(d: seq<nat>) returns (total: nat)
    ensures total == Sum(d)
  {
    total := 0;
    for i := 0 to |d|
      invariant total == Sum(d[..i])
    {
      assert d[..i + 1][..i] == d[..i];
      total := total + d[i];
    }
    assert d[..|d|] == d;
  }
}
