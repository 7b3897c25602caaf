/** The limiter of transactions sent (offchain/solana/rateLimiter.ts). Times are in
    milliseconds, as reals. */
module SendLimiter {
  function Larger(a: real, b: real): real { if a < b then b else a }

  /** A limiter hands out one slot every `interval`, and lets idle time build credit
      for `burst` slots. */
  datatype Settings = Settings(interval: real, burst: nat)

  ghost predicate ValidSettings(s: Settings) {
    s.interval > 0.0 && s.burst >= 1
  }

  /** `n` intervals. */
  function Steps(n: nat, interval: real): real {
    if n == 0 then 0.0 else Steps(n - 1, interval) + interval
  }

  function Credit(s: Settings): real {
    if s.burst == 0 then 0.0 else Steps(s.burst - 1, s.interval)
  }

  lemma {:induction false} StepsAre(n: nat, interval: real)
    ensures Steps(n, interval) == n as real * interval
    ensures interval > 0.0 ==> Steps(n, interval) >= 0.0
  {
    if n > 0 {
      StepsAre(n - 1, interval);
      OneMore(n - 1, interval);
    }
  }

  lemma OneMore(n: nat, x: real)
    ensures (n + 1) as real * x == n as real * x + x
  {
  }

  /** The slot of each call, given when the calls were made. */
  function Slots(s: Settings, calls: seq<real>): (r: seq<real>)
    ensures |r| == |calls|
  {
    if calls == [] then []
    else
      var n := |calls| - 1;
      var before := Slots(s, calls[..n]);
      before + [Larger(NextSlot(s, before), calls[n] - Credit(s))]
  }

  function NextSlot(s: Settings, slots: seq<real>): real {
    if slots == [] then 0.0 else slots[|slots| - 1] + s.interval
  }

  /** When each call is let through. */
  function Releases(s: Settings, calls: seq<real>): (r: seq<real>)
    ensures |r| == |calls|
  {
    if calls == [] then []
    else Releases(s, calls[..|calls| - 1]) + [Larger(calls[|calls| - 1], Slots(s, calls)[|calls| - 1])]
  }

  // --- How far apart --------------------------------------------------------------------

  lemma {:induction false} SlotAt(s: Settings, calls: seq<real>, i: nat)
    requires i < |calls|
    ensures Slots(s, calls)[i] == Slots(s, calls[..i + 1])[i]
    ensures Releases(s, calls)[i] == Larger(calls[i], Slots(s, calls)[i])
  {
    var n := |calls| - 1;
    if i < n {
      SlotAt(s, calls[..n], i);
      assert calls[..n][..i + 1] == calls[..i + 1];
    } else {
      assert calls[..i + 1] == calls;
    }
  }

  /** Slots are at least an interval apart, whatever the clock does. */
  lemma {:induction false} SlotsApart(s: Settings, calls: seq<real>, i: nat, j: nat)
    requires ValidSettings(s) && i <= j < |calls|
    ensures Slots(s, calls)[j] >= Slots(s, calls)[i] + Steps(j - i, s.interval)
    decreases j
  {
    if i < j {
      SlotsApart(s, calls, i, j - 1);
      SlotAt(s, calls, j);
      SlotAt(s, calls, j - 1);
      assert calls[..j + 1][..j] == calls[..j];
    }
  }

  /** A call is let through at its slot, or later by no more than the credit. */
  lemma ReleaseNearSlot(s: Settings, calls: seq<real>, i: nat)
    requires ValidSettings(s) && i < |calls|
    ensures Slots(s, calls)[i] <= Releases(s, calls)[i] <= Slots(s, calls)[i] + Credit(s)
    ensures calls[i] <= Releases(s, calls)[i]
  {
    SlotAt(s, calls, i);
    CreditPositive(s);
    assert calls[..i + 1][..i] == calls[..i];
  }

  lemma CreditPositive(s: Settings)
    requires ValidSettings(s)
    ensures Credit(s) >= 0.0 && (s.burst == 1 ==> Credit(s) == 0.0)
  {
    StepsAre(s.burst - 1, s.interval);
  }

  lemma ReleasesApart(s: Settings, calls: seq<real>, i: nat, j: nat)
    requires ValidSettings(s) && i <= j < |calls|
    ensures Releases(s, calls)[j] - Releases(s, calls)[i] >= Steps(j - i, s.interval) - Credit(s)
  {
    SlotsApart(s, calls, i, j);
    ReleaseNearSlot(s, calls, i);
    ReleaseNearSlot(s, calls, j);
  }

  /** With no credit, consecutive releases are at least an interval apart. */
  lemma SpacedWithoutCredit(s: Settings, calls: seq<real>, i: nat)
    requires ValidSettings(s) && s.burst == 1 && i + 1 < |calls|
    ensures Releases(s, calls)[i + 1] >= Releases(s, calls)[i] + s.interval
  {
    ReleasesApart(s, calls, i, i + 1);
    CreditPositive(s);
  }

  /** On a clock that does not run backwards, calls are let through in the order they
      were made. */
  lemma InCallOrder(s: Settings, calls: seq<real>, i: nat, j: nat)
    requires ValidSettings(s) && i <= j < |calls| && calls[i] <= calls[j]
    ensures Releases(s, calls)[i] <= Releases(s, calls)[j]
  {
    SlotsApart(s, calls, i, j);
    SlotAt(s, calls, i);
    SlotAt(s, calls, j);
    StepsAre(j - i, s.interval);
  }

  // --- How many in any span of time -----------------------------------------------------

  /** How many of `times` lie in the closed span. */
  function CountIn(times: seq<real>, from: real, to: real): nat {
    if times == [] then 0
    else CountIn(times[..|times| - 1], from, to) + if from <= times[|times| - 1] <= to then 1 else 0
  }

  lemma {:induction false} NoneIn(times: seq<real>, from: real, to: real)
    requires forall k | 0 <= k < |times| :: !(from <= times[k] <= to)
    ensures CountIn(times, from, to) == 0
  {
    if times != [] {
      NoneIn(times[..|times| - 1], from, to);
    }
  }

  /** If the first one in the span is number `i`, there are at most as many as follow. */
  lemma {:induction false} CountAfter(times: seq<real>, from: real, to: real, i: nat)
    requires i < |times| && forall k | 0 <= k < i :: !(from <= times[k] <= to)
    ensures CountIn(times, from, to) <= |times| - i
  {
    var n := |times| - 1;
    if i == n {
      NoneIn(times[..n], from, to);
    } else {
      CountAfter(times[..n], from, to, i);
    }
  }

  function FirstIn(times: seq<real>, from: real, to: real): (i: nat)
    ensures i <= |times|
  {
    if times == [] || from <= times[0] <= to then 0 else 1 + FirstIn(times[1..], from, to)
  }

  lemma {:induction false} FirstIs(times: seq<real>, from: real, to: real)
    ensures var i := FirstIn(times, from, to);
            (i < |times| ==> from <= times[i] <= to) && forall k | 0 <= k < i :: !(from <= times[k] <= to)
  {
    if times != [] && !(from <= times[0] <= to) {
      FirstIs(times[1..], from, to);
      assert forall k | 1 <= k < |times| :: times[k] == times[1..][k - 1];
    }
  }

  lemma {:induction false} CountUpTo(times: seq<real>, from: real, to: real, n: nat)
    requires n <= |times| && forall k | n <= k < |times| :: !(from <= times[k] <= to)
    ensures CountIn(times, from, to) == CountIn(times[..n], from, to)
  {
    if n < |times| {
      CountUpTo(times[..|times| - 1], from, to, n);
      assert times[..|times| - 1][..n] == times[..n];
    } else {
      assert times[..n] == times;
    }
  }

  /** One past the last one in the span. */
  function LastIn(times: seq<real>, from: real, to: real): (n: nat)
    ensures n <= |times|
  {
    if times == [] then 0
    else if from <= times[|times| - 1] <= to then |times|
    else LastIn(times[..|times| - 1], from, to)
  }

  lemma {:induction false} LastIs(times: seq<real>, from: real, to: real)
    ensures var n := LastIn(times, from, to);
            (n > 0 ==> from <= times[n - 1] <= to) && forall k | n <= k < |times| :: !(from <= times[k] <= to)
  {
    if times != [] && !(from <= times[|times| - 1] <= to) {
      LastIs(times[..|times| - 1], from, to);
      assert forall k | 0 <= k < |times| - 1 :: times[k] == times[..|times| - 1][k];
    }
  }

  /** The calls let through in a span take no less time than their intervals, less the
      credit. */
  lemma CountInSpan(times: seq<real>, from: real, to: real, interval: real, credit: real) returns (m: nat)
    requires forall i, j | 0 <= i <= j < |times| :: times[j] - times[i] >= Steps(j - i, interval) - credit
    ensures CountIn(times, from, to) <= m
    ensures m > 0 ==> to - from >= Steps(m - 1, interval) - credit
  {
    hide Steps, CountIn;
    var i, n := FirstIn(times, from, to), LastIn(times, from, to);
    FirstIs(times, from, to);
    LastIs(times, from, to);
    if n == 0 {
      NoneIn(times, from, to);
      m := 0;
    } else {
      assert i < n;
      CountUpTo(times, from, to, n);
      CountAfter(times[..n], from, to, i);
      m := n - i;
      assert times[n - 1] - times[i] >= Steps(n - 1 - i, interval) - credit;
    }
  }

  lemma AllApart(s: Settings, calls: seq<real>)
    requires ValidSettings(s)
    ensures forall i, j | 0 <= i <= j < |calls| ::
              Releases(s, calls)[j] - Releases(s, calls)[i] >= Steps(j - i, s.interval) - Credit(s)
  {
    forall i, j | 0 <= i <= j < |calls|
      ensures Releases(s, calls)[j] - Releases(s, calls)[i] >= Steps(j - i, s.interval) - Credit(s)
    {
      ReleasesApart(s, calls, i, j);
    }
  }

  /** In any span of length L at most floor(L / interval) + burst calls are let through,
      for any history of calls and any clock. */
  lemma AtMostInSpan(s: Settings, calls: seq<real>, from: real, length: real)
    requires ValidSettings(s) && length >= 0.0
    ensures CountIn(Releases(s, calls), from, from + length) <= (length / s.interval).Floor + s.burst
  {
    AllApart(s, calls);
    var m := CountInSpan(Releases(s, calls), from, from + length, s.interval, Credit(s));
    AtMostSo(s, m, length);
  }

  lemma AtMostSo(s: Settings, m: nat, length: real)
    requires ValidSettings(s) && length >= 0.0 && (m > 0 ==> length >= Steps(m - 1, s.interval) - Credit(s))
    ensures m <= (length / s.interval).Floor + s.burst
  {
    FloorPositive(length, s.interval);
    if m > 0 {
      SpanHolds(s, m - 1, length);
    }
  }

  lemma FloorPositive(length: real, interval: real)
    requires length >= 0.0 && interval > 0.0
    ensures (length / interval).Floor >= 0
  {
  }

  lemma SpanHolds(s: Settings, m: nat, length: real)
    requires ValidSettings(s) && length >= Steps(m, s.interval) - Credit(s)
    ensures m + 1 <= (length / s.interval).Floor + s.burst
  {
    StepsAre(m, s.interval);
    StepsAre(s.burst - 1, s.interval);
    var k := m + 1 - s.burst;
    Difference(m, s.burst - 1, s.interval);
    DivideBoth(length, k as real, s.interval);
  }

  lemma Difference(m: nat, n: nat, x: real)
    ensures m as real * x - n as real * x == (m - n) as real * x
  {
  }

  lemma DivideBoth(length: real, k: real, interval: real)
    requires interval > 0.0 && length >= k * interval
    ensures length / interval >= k
  {
    var q := length / interval;
    assert q * interval == length;
    if q < k {
      Multiply(q, k, interval);
    }
  }

  lemma Multiply(a: real, b: real, c: real)
    requires a < b && c > 0.0
    ensures a * c < b * c
  {
  }

  // --- The limiter -------------------------------------------------------------------------

  class RateLimiter {
    const settings: Settings
    var nextSlotAt: real
    var granted: nat
    var waited: nat
    var totalWaitMs: real
    /** When it was called so far. */
    ghost var calls: seq<real>

    ghost predicate Valid()
      reads this
    {
      && ValidSettings(settings) && granted == |calls|
      && nextSlotAt == NextSlot(settings, Slots(settings, calls))
    }

    /** A rate that is not a positive number counts as one a second; the credit is at
        least one slot, and the rate if not given. */
    constructor (ratePerSecond: real, finite: bool, burst: real, hasBurst: bool)
      ensures Valid() && calls == []
      ensures var rate := if finite && ratePerSecond > 0.0 then ratePerSecond else 1.0;
              settings.interval == 1000.0 / rate
              && settings.burst == if (if hasBurst then burst else rate).Floor < 1 then 1
                 else (if hasBurst then burst else rate).Floor
    {
      var rate := if finite && ratePerSecond > 0.0 then ratePerSecond else 1.0;
      var slots := (if hasBurst then burst else rate).Floor;
      settings := Settings(1000.0 / rate, if slots < 1 then 1 else slots);
      nextSlotAt, granted, waited, totalWaitMs, calls := 0.0, 0, 0, 0.0, [];
    }

    /** Reserves the next slot at the moment of the call, and says how long to wait. */
    method Acquire(now: real) returns (waitMs: real)
      requires Valid()
      modifies this
      ensures Valid() && calls == old(calls) + [now]
      ensures now + waitMs == Releases(settings, calls)[|calls| - 1]
      ensures forall k | 0 <= k < |old(calls)| :: Releases(settings, calls)[k] == Releases(settings, old(calls))[k]
    {
      var earliest := now - Credit(settings);
      var slotAt := if nextSlotAt < earliest then earliest else nextSlotAt;
      nextSlotAt := slotAt + settings.interval;
      waitMs := if slotAt - now > 0.0 then slotAt - now else 0.0;
      granted := granted + 1;
      if waitMs > 0.0 {
        waited := waited + 1;
        totalWaitMs := totalWaitMs + waitMs;
      }
      ghost var before := calls;
      calls := calls + [now];
      assert calls[..|before|] == before;
    }
  }

  // --- The bound is reached -----------------------------------------------------------------

  function Repeat(now: real, n: nat): (r: seq<real>)
    ensures |r| == n && forall i | 0 <= i < n :: r[i] == now
  {
    seq(n, i => now)
  }

  /** After a pause long enough, as many calls as there is credit for pass at once and
      the others follow an interval apart: the bound cannot be lowered. */
  lemma {:induction false} VolleyAfterPause(s: Settings, now: real, n: nat)
    requires ValidSettings(s) && now >= Credit(s) && n > 0
    ensures Slots(s, Repeat(now, n))[n - 1] == now - Credit(s) + Steps(n - 1, s.interval)
    ensures n <= s.burst ==> Releases(s, Repeat(now, n))[n - 1] == now
    ensures n > s.burst ==> Releases(s, Repeat(now, n))[n - 1] == now + Steps(n - s.burst, s.interval)
  {
    var calls := Repeat(now, n);
    SlotAt(s, calls, n - 1);
    CreditPositive(s);
    if n > 1 {
      VolleyAfterPause(s, now, n - 1);
      assert calls[..n - 1] == Repeat(now, n - 1);
      VolleySlot(s, now, n);
    } else {
      assert calls[..0] == [];
    }
  }

  lemma {:induction false} VolleySlot(s: Settings, now: real, n: nat)
    requires ValidSettings(s) && n > 0
    ensures n <= s.burst ==> 0.0 <= Steps(n - 1, s.interval) <= Credit(s)
    ensures n > s.burst ==> Steps(n - 1, s.interval) - Credit(s) == Steps(n - s.burst, s.interval) >= 0.0
    decreases if n <= s.burst then s.burst - n else n
  {
    StepsAre(n - 1, s.interval);
    if n < s.burst {
      VolleySlot(s, now, n + 1);
    } else if n > s.burst {
      StepsAre(n - s.burst, s.interval);
      VolleySlot(s, now, n - 1);
    }
  }
}
