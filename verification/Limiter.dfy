/** The request limiter and the daily credit budget. */
module Limiter {
  import opened Arithmetic
  import opened Wrappers
  import opened Counting

  const NANOS_PER_SECOND := 1000000000

  /** Nanoseconds between requests at `rps` requests per second. */
  function IntervalFor(rps: int): nat { NANOS_PER_SECOND / Max(rps, 1) }

  /** The largest interval that fits `rps` times into a second of a thousand million nanoseconds. */
  lemma IntervalMeaning(rps: int)
    ensures rps >= 1 ==> rps * IntervalFor(rps) <= 1000000000 < rps * IntervalFor(rps) + rps
    ensures rps < 1 ==> IntervalFor(rps) == 1000000000
  {
  }

  /** The slot a caller gets at time `now`, given the earliest free one. */
  function SlotAt(next: Option<int>, now: int): int {
    if next.Some? && next.value > now then next.value else now
  }

  /** The slots granted to a series of calls, in the order they take the mutex. */
  function Slots(calls: seq<int>, interval: nat): (slots: seq<int>)
    ensures |slots| == |calls|
  {
    if calls == [] then []
    else
      var before := Slots(calls[..|calls| - 1], interval);
      before + [SlotAt(NextAfter(before, interval), calls[|calls| - 1])]
  }

  /** The earliest time the next slot may have. */
  function NextAfter(slots: seq<int>, interval: nat): Option<int> {
    if slots == [] then None else Some(slots[|slots| - 1] + interval)
  }

  class RequestLimiter {
    const interval: nat
    var next: Option<int>
    ghost var calls: seq<int>

    ghost predicate Valid()
      reads this
    {
      next == NextAfter(Slots(calls, interval), interval)
    }

    constructor (rps: int)
      ensures Valid() && interval == IntervalFor(rps) && calls == []
    {
      var r := rps;
      if rps < 1 { r := 1; }
      interval := NANOS_PER_SECOND / r;
      next, calls := None, [];
    }

    /** Takes the next slot; the caller then sleeps until it. */
    method Wait(now: int) returns (slot: int)
      requires Valid()
      modifies this
      ensures Valid() && calls == old(calls) + [now]
      ensures Slots(calls, interval) == Slots(old(calls), interval) + [slot]
    {
      slot := now;
      if next.Some? && next.value > now { slot := next.value; }
      next := Some(slot + interval);
      calls := calls + [now];
      assert calls[..|calls| - 1] == old(calls);
    }
  }

  /** Slots are an interval apart or more, whatever the clock does, and never before the call. */
  lemma {:induction false} SlotsAreSpaced(calls: seq<int>, interval: nat, i: nat, j: nat)
    requires i <= j < |calls|
    ensures Slots(calls, interval)[j] >= Slots(calls, interval)[i] + (j - i) * interval
    ensures Slots(calls, interval)[j] >= calls[j]
  {
    var init := calls[..|calls| - 1];
    if j < |init| {
      SlotsAreSpaced(init, interval, i, j);
    } else if i < j {
      SlotsAreSpaced(init, interval, i, j - 1);
      assert (j - i) * interval == (j - 1 - i) * interval + interval;
    }
  }

  /** No call waits longer than it must: the slot is the later of the call and an interval after the slot before. */
  lemma {:induction false} SlotsAreEarliest(calls: seq<int>, interval: nat, j: nat)
    requires j < |calls|
    ensures var slots := Slots(calls, interval);
            slots[j] == if j == 0 then calls[0] else Max(calls[j], slots[j - 1] + interval)
  {
    if j < |calls| - 1 { SlotsAreEarliest(calls[..|calls| - 1], interval, j); }
  }

  function Within(t: int, span: nat): int -> bool { (x: int) => t <= x < t + span }

  /** The positions of the slots counted in a span fit into `room` intervals. */
  lemma {:induction false} SlotsInSpan(slots: seq<int>, t: int, n: nat, interval: nat)
    requires forall i, j :: 0 <= i <= j < |slots| ==> slots[j] >= slots[i] + (j - i) * interval
    ensures Count(slots, Within(t, n * interval)) <= n
  {
    if slots != [] {
      var last := |slots| - 1;
      var init := slots[..last];
      forall i, j | 0 <= i <= j < |init| ensures init[j] >= init[i] + (j - i) * interval {
        assert init[j] == slots[j] && init[i] == slots[i];
      }
      SlotsInSpan(init, t, n, interval);
      if Within(t, n * interval)(slots[last]) {
        if n > 0 {
          CountShrinks(slots, t, n, interval);
          SlotsInSpan(init, t, n - 1, interval);
        }
      }
    }
  }

  /** When the last slot lies in the span, the earlier ones lie in the span less one interval. */
  lemma CountShrinks(slots: seq<int>, t: int, n: nat, interval: nat)
    requires slots != [] && n > 0
    requires forall i, j :: 0 <= i <= j < |slots| ==> slots[j] >= slots[i] + (j - i) * interval
    requires Within(t, n * interval)(slots[|slots| - 1])
    ensures Count(slots[..|slots| - 1], Within(t, n * interval)) == Count(slots[..|slots| - 1], Within(t, (n - 1) * interval))
  {
    var init, last := slots[..|slots| - 1], |slots| - 1;
    assert n * interval == (n - 1) * interval + interval;
    forall i | 0 <= i < |init| ensures Within(t, n * interval)(init[i]) == Within(t, (n - 1) * interval)(init[i]) {
      assert slots[last] >= slots[i] + (last - i) * interval;
      AtLeastOne(last - i, interval);
    }
    CountAgree(init, Within(t, n * interval), Within(t, (n - 1) * interval));
  }

  lemma AtLeastOne(n: nat, interval: nat)
    requires n >= 1
    ensures n * interval >= interval
  {
  }

  lemma {:induction false} CountAgree<T>(s: seq<T>, p: T -> bool, q: T -> bool)
    requires forall i :: 0 <= i < |s| ==> p(s[i]) == q(s[i])
    ensures Count(s, p) == Count(s, q)
  {
    if s != [] { CountAgree(s[..|s| - 1], p, q); }
  }

  /** Any half-open span of `n` intervals holds at most `n` slots. */
  lemma SpanHoldsFewSlots(calls: seq<int>, interval: nat, t: int, n: nat)
    ensures Count(Slots(calls, interval), Within(t, n * interval)) <= n
  {
    var slots := Slots(calls, interval);
    forall i, j | 0 <= i <= j < |slots| ensures slots[j] >= slots[i] + (j - i) * interval { SlotsAreSpaced(calls, interval, i, j); }
    SlotsInSpan(slots, t, n, interval);
  }

  // ---- The rate ----

  /** A burst: `n` calls at one moment. */
  function Burst(n: nat): seq<int> { seq(n, i requires 0 <= i < n => 0) }

  lemma {:induction false} BurstSlots(n: nat, interval: nat)
    ensures forall k :: 0 <= k < n ==> Slots(Burst(n), interval)[k] == k * interval
  {
    if n > 0 {
      BurstSlots(n - 1, interval);
      assert Burst(n)[..n - 1] == Burst(n - 1);
      if n > 1 { assert (n - 1) * interval == (n - 2) * interval + interval; }
    }
  }

  lemma {:induction false} CountAll<T>(s: seq<T>, p: T -> bool)
    requires forall i :: 0 <= i < |s| ==> p(s[i])
    ensures Count(s, p) == |s|
  {
    if s != [] { CountAll(s[..|s| - 1], p); }
  }

  /** No second, from any moment on, holds more than `rps` slots, for any calls. */
  ghost predicate KeepsRate(rps: nat) {
    forall calls: seq<int>, t: int :: Count(Slots(calls, IntervalFor(rps)), Within(t, NANOS_PER_SECOND)) <= rps
  }

  lemma BurstBreaksRate(rps: nat)
    requires rps >= 1 && rps * IntervalFor(rps) < NANOS_PER_SECOND
    ensures Count(Slots(Burst(rps + 1), IntervalFor(rps)), Within(0, NANOS_PER_SECOND)) == rps + 1
  {
    var slots := Slots(Burst(rps + 1), IntervalFor(rps));
    BurstSlots(rps + 1, IntervalFor(rps));
    forall k | 0 <= k < |slots| ensures Within(0, NANOS_PER_SECOND)(slots[k]) {
      ScaledBelow(k, rps, IntervalFor(rps));
    }
    CountAll(slots, Within(0, NANOS_PER_SECOND));
  }

  lemma ScaledBelow(k: nat, n: nat, interval: nat)
    requires k <= n
    ensures 0 <= k * interval <= n * interval
  {
  }

  /** The interval is rounded down, so the limiter keeps its rate exactly when the rate divides a second. */
  lemma RateIsKeptExactly(rps: nat)
    requires rps >= 1
    ensures KeepsRate(rps) <==> 1000000000 % rps == 0
  {
    var interval := IntervalFor(rps);
    assert NANOS_PER_SECOND == rps * interval + NANOS_PER_SECOND % rps;
    if NANOS_PER_SECOND % rps == 0 {
      forall calls: seq<int>, t: int ensures Count(Slots(calls, interval), Within(t, NANOS_PER_SECOND)) <= rps {
        SpanHoldsFewSlots(calls, interval, t, rps);
      }
    } else {
      BurstBreaksRate(rps);
    }
  }

  /** At three requests per second, an admissible setting, four slots fit into one second. */
  lemma ThreePerSecondAllowsFour()
    ensures !KeepsRate(3)
  {
    RateIsKeptExactly(3);
  }

  // ---- The daily budget ----

  datatype Request = Request(day: int, credits: nat)

  datatype Ledger = Ledger(day: Option<int>, used: int)

  /** Whether a request is granted, and the ledger after it. */
  function Decide(limit: int, l: Ledger, r: Request): (bool, Ledger) {
    var today := if l.day == Some(r.day) then l else Ledger(Some(r.day), 0);
    if today.used + r.credits > limit then (false, today) else (true, today.(used := today.used + r.credits))
  }

  function LedgerAfter(limit: int, requests: seq<Request>): Ledger {
    if requests == [] then Ledger(None, 0)
    else Decide(limit, LedgerAfter(limit, requests[..|requests| - 1]), requests[|requests| - 1]).1
  }

  /** Credits granted on one day. */
  function GrantedOn(limit: int, requests: seq<Request>, day: int): nat {
    if requests == [] then 0
    else
      var init, r := requests[..|requests| - 1], requests[|requests| - 1];
      GrantedOn(limit, init, day) + if r.day == day && Decide(limit, LedgerAfter(limit, init), r).0 then r.credits else 0
  }

  class DailyCreditBudget {
    const limit: int
    var day: Option<int>
    var used: int
    ghost var requests: seq<Request>

    ghost predicate Valid()
      reads this
    {
      limit > 0 ==> Ledger(day, used) == LedgerAfter(limit, requests)
    }

    constructor (limit: int)
      ensures Valid() && this.limit == limit && requests == []
    {
      this.limit, day, used, requests := limit, None, 0, [];
    }

    /** Grants a request that fits into what is left of its day; a budget without a limit grants everything. */
    method Reserve(credits: nat, today: int) returns (ok: bool)
      requires Valid()
      modifies this
      ensures Valid() && requests == old(requests) + [Request(today, credits)]
      ensures ok == (limit <= 0 || Decide(limit, LedgerAfter(limit, old(requests)), Request(today, credits)).0)
    {
      requests := requests + [Request(today, credits)];
      assert requests[..|requests| - 1] == old(requests);
      if limit <= 0 { return true; }
      if day != Some(today) { day, used := Some(today), 0; }
      if used + credits > limit { return false; }
      used := used + credits;
      return true;
    }
  }

  /** A day that has ended does not come back. */
  ghost predicate DaysDoNotReturn(days: seq<int>) {
    forall i, j, k :: 0 <= i < j < k < |days| && days[i] == days[k] ==> days[j] == days[i]
  }

  function DaysOf(requests: seq<Request>): seq<int> { seq(|requests|, i requires 0 <= i < |requests| => requests[i].day) }

  lemma {:induction false} GrantedBefore(limit: int, requests: seq<Request>, day: int)
    requires forall i :: 0 <= i < |requests| ==> requests[i].day != day
    ensures GrantedOn(limit, requests, day) == 0
  {
    if requests != [] { GrantedBefore(limit, requests[..|requests| - 1], day); }
  }

  /** While days do not return, the ledger holds exactly what its day was granted. */
  lemma {:induction false} BudgetHolds(limit: int, requests: seq<Request>, day: int)
    requires limit >= 0 && DaysDoNotReturn(DaysOf(requests))
    ensures GrantedOn(limit, requests, day) <= limit
    ensures requests != [] ==> LedgerAfter(limit, requests).day == Some(requests[|requests| - 1].day)
    ensures LedgerAfter(limit, requests).day == Some(day) ==> LedgerAfter(limit, requests).used == GrantedOn(limit, requests, day)
  {
    if requests != [] {
      var init, r := requests[..|requests| - 1], requests[|requests| - 1];
      var days := DaysOf(requests);
      assert DaysOf(init) == days[..|init|];
      BudgetHolds(limit, init, day);
      if r.day == day && (init == [] || init[|init| - 1].day != day) {
        forall i | 0 <= i < |init| ensures init[i].day != day {
          assert days[i] == init[i].day && days[|init|] == day;
          if i < |init| - 1 { assert days[|init| - 1] == init[|init| - 1].day; }
        }
        GrantedBefore(limit, init, day);
      }
    }
  }

  /** While days do not return, a request is granted exactly when it fits into what its day has left. */
  lemma GrantsExactly(limit: int, requests: seq<Request>, r: Request)
    requires limit >= 0 && DaysDoNotReturn(DaysOf(requests + [r]))
    ensures Decide(limit, LedgerAfter(limit, requests), r).0 <==> GrantedOn(limit, requests, r.day) + r.credits <= limit
  {
    var days := DaysOf(requests + [r]);
    assert days[..|requests|] == DaysOf(requests);
    BudgetHolds(limit, requests, r.day);
    if requests != [] && requests[|requests| - 1].day != r.day {
      forall i | 0 <= i < |requests| ensures requests[i].day != r.day {
        assert days[i] == requests[i].day && days[|requests|] == r.day && days[|requests| - 1] == requests[|requests| - 1].day;
      }
      GrantedBefore(limit, requests, r.day);
    }
  }

  /** Zero requests but for the full limit at positions `i` and `k`. */
  function TwoFull(limit: nat, days: seq<int>, i: nat, k: nat): seq<Request> {
    seq(|days|, x requires 0 <= x < |days| => Request(days[x], if x == i || x == k then limit else 0))
  }

  /** The ledger of such requests, before `k`: full from `i` on until the day changes. */
  lemma {:induction false} LedgerBetween(limit: nat, days: seq<int>, i: nat, k: nat, n: nat)
    requires limit >= 1 && i < k < |days| && n <= k
    ensures var l := LedgerAfter(limit, TwoFull(limit, days, i, k)[..n]);
            && (n > 0 ==> l.day == Some(days[n - 1]))
            && l.used == (if n > i && (forall x :: i <= x < n ==> days[x] == days[i]) then limit else 0)
  {
    var all := TwoFull(limit, days, i, k);
    if n > 0 {
      LedgerBetween(limit, days, i, k, n - 1);
      assert all[..n][..n - 1] == all[..n - 1] && all[..n][n - 1] == all[n - 1];
    }
  }

  lemma TwoFullLength(limit: nat, days: seq<int>, i: nat, k: nat)
    ensures |TwoFull(limit, days, i, k)| == |days|
  {
  }

  lemma {:induction false} GrantedGrows(limit: int, requests: seq<Request>, n: nat, day: int)
    requires n <= |requests|
    ensures GrantedOn(limit, requests[..n], day) <= GrantedOn(limit, requests, day)
  {
    if n < |requests| {
      GrantedGrows(limit, requests[..|requests| - 1], n, day);
      assert requests[..|requests| - 1][..n] == requests[..n];
    } else {
      assert requests[..n] == requests;
    }
  }

  /** A full request to an empty day is granted. */
  lemma FullRequestGranted(limit: nat, days: seq<int>, i: nat, k: nat, n: nat)
    requires limit >= 1 && i < k < |days| && (n == i || n == k)
    requires LedgerAfter(limit, TwoFull(limit, days, i, k)[..n]).used == 0
    ensures var all := TwoFull(limit, days, i, k);
            GrantedOn(limit, all[..n + 1], days[n]) == GrantedOn(limit, all[..n], days[n]) + limit
  {
    var all := TwoFull(limit, days, i, k);
    assert all[..n + 1][..n] == all[..n] && all[..n + 1][n] == Request(days[n], limit);
  }

  /** Both full requests are granted when the day is left in between. */
  lemma ReturningDayDoublesUp(limit: nat, days: seq<int>, i: nat, j: nat, k: nat)
    requires limit >= 1 && i < j < k < |days| && days[i] == days[k] != days[j]
    ensures GrantedOn(limit, TwoFull(limit, days, i, k), days[i]) >= 2 * limit
  {
    hide GrantedOn, LedgerAfter, TwoFull;
    var all := TwoFull(limit, days, i, k);
    LedgerBetween(limit, days, i, k, i);
    LedgerBetween(limit, days, i, k, k);
    FullRequestGranted(limit, days, i, k, i);
    FullRequestGranted(limit, days, i, k, k);
    TwoFullLength(limit, days, i, k);
    assert all[..k][..i + 1] == all[..i + 1];
    GrantedGrows(limit, all[..k], i + 1, days[i]);
    GrantedGrows(limit, all, k + 1, days[i]);
  }

  /** Over given clock days, every pattern of requests stays within the daily limit exactly when no day returns. */
  lemma BudgetHoldsExactly(limit: nat, days: seq<int>)
    requires limit >= 1
    ensures (forall requests, day :: DaysOf(requests) == days ==> GrantedOn(limit, requests, day) <= limit) <==> DaysDoNotReturn(days)
  {
    if DaysDoNotReturn(days) {
      forall requests, day | DaysOf(requests) == days ensures GrantedOn(limit, requests, day) <= limit { BudgetHolds(limit, requests, day); }
    } else {
      var i, j, k :| 0 <= i < j < k < |days| && days[i] == days[k] && days[j] != days[i];
      ReturningDayDoublesUp(limit, days, i, j, k);
      assert DaysOf(TwoFull(limit, days, i, k)) == days;
    }
  }

  /** A clock that never runs backwards keeps every day within the limit. */
  lemma SteadyClockKeepsBudget(limit: nat, requests: seq<Request>, day: int)
    requires limit >= 1 && forall i, j :: 0 <= i < j < |requests| ==> requests[i].day <= requests[j].day
    ensures GrantedOn(limit, requests, day) <= limit
  {
    assert DaysDoNotReturn(DaysOf(requests));
    BudgetHolds(limit, requests, day);
  }
}
