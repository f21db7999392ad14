/** When a schedule fires: `ComputeFires` against the triggers that elapsed, and what
    threading its result through any sequence of ticks gives. */
module Fires {

  /** `Next`: the first activation strictly after an instant, in whole seconds. */
  type Schedule = int -> int

  ghost predicate Trigger(s: Schedule, t: int) {
    s(t - 1) == t
  }

  /** `s(t)` is the least trigger strictly after `t`, for every `t`. */
  ghost predicate IsSchedule(s: Schedule) {
    forall t :: NextIsLeast(s, t)
  }

  ghost predicate NextIsLeast(s: Schedule, t: int) {
    t < s(t) && Trigger(s, s(t)) && forall x :: t < x < s(t) ==> !Trigger(s, x)
  }

  datatype MisfirePolicy = MisfireSkip | MisfireFireOnce

  const MAX_SCAN: nat := 100_000

  /** How many triggers lie in (last, now]. */
  ghost function Elapsed(s: Schedule, last: int, now: int): nat
    requires IsSchedule(s)
    decreases now - last
  {
    assert NextIsLeast(s, last);
    if s(last) > now then 0 else 1 + Elapsed(s, s(last), now)
  }

  /** The `n`-th trigger after `t`. */
  ghost function Nth(s: Schedule, t: int, n: nat): int {
    if n == 0 then t else s(Nth(s, t, n - 1))
  }

  ghost function Min(a: nat, b: nat): nat { if a < b then a else b }

  /** The register after a tick, and the trigger the tick enqueues, if any. */
  ghost function NewLast(s: Schedule, last: int, now: int): int
    requires IsSchedule(s)
  {
    Nth(s, last, Min(Elapsed(s, last, now), MAX_SCAN + 1))
  }

  ghost function Fired(s: Schedule, last: int, now: int, policy: MisfirePolicy): seq<int>
    requires IsSchedule(s)
  {
    var n := Elapsed(s, last, now);
    if n == 1 || (n > 1 && policy == MisfireFireOnce) then [NewLast(s, last, now)] else []
  }

  lemma {:induction false} NthShift(s: Schedule, t: int, n: nat)
    ensures Nth(s, s(t), n) == Nth(s, t, n + 1)
  {
    if n > 0 { NthShift(s, t, n - 1); }
  }

  lemma {:induction false} NthGrows(s: Schedule, t: int, m: nat, n: nat)
    requires IsSchedule(s) && m < n
    ensures Nth(s, t, m) < Nth(s, t, n) && Trigger(s, Nth(s, t, n))
  {
    assert NextIsLeast(s, Nth(s, t, n - 1));
    if m < n - 1 { NthGrows(s, t, m, n - 1); }
  }

  /** The elapsed triggers are the first `Elapsed` ones after `last`. */
  lemma {:induction false} ElapsedCounts(s: Schedule, last: int, now: int, n: nat)
    requires IsSchedule(s)
    ensures (n > 0 && Nth(s, last, n) <= now) <==> 0 < n <= Elapsed(s, last, now)
    decreases now - last
  {
    assert NextIsLeast(s, last);
    if s(last) > now {
      if n > 1 { NthGrows(s, last, 1, n); }
      assert n > 0 ==> Nth(s, last, 1) == s(last);
    } else if n > 1 {
      ElapsedCounts(s, s(last), now, n - 1);
      NthShift(s, last, n - 1);
    } else if n == 1 {
      assert Nth(s, last, 1) == s(last);
    }
  }

  /** After the `n`-th trigger, `n` fewer are left. */
  lemma {:induction false} ElapsedAfter(s: Schedule, last: int, now: int, n: nat)
    requires IsSchedule(s) && n <= Elapsed(s, last, now)
    ensures Elapsed(s, Nth(s, last, n), now) == Elapsed(s, last, now) - n
  {
    if n > 0 {
      ElapsedAfter(s, last, now, n - 1);
      assert Elapsed(s, Nth(s, last, n - 1), now) > 0;
    }
  }

  /** Within the scan bound the register ends at the greatest trigger that elapsed. */
  lemma CatchesUp(s: Schedule, last: int, now: int)
    requires IsSchedule(s) && 0 < Elapsed(s, last, now) <= MAX_SCAN + 1
    ensures var t := NewLast(s, last, now);
            last < t <= now && Trigger(s, t) && forall x :: t < x <= now ==> !Trigger(s, x)
  {
    var n := Elapsed(s, last, now);
    var t := NewLast(s, last, now);
    ElapsedCounts(s, last, now, n);
    NthGrows(s, last, 0, n);
    ElapsedAfter(s, last, now, n);
    assert NextIsLeast(s, t);
  }

  // ----- by triggers alone -----

  ghost function TriggersIn(s: Schedule, last: int, now: int): set<int> {
    set t | last < t <= now && Trigger(s, t)
  }

  /** `t` is the last trigger in (last, now]. */
  ghost predicate LastIn(s: Schedule, last: int, now: int, t: int) {
    t in TriggersIn(s, last, now) && forall x :: x in TriggersIn(s, last, now) ==> x <= t
  }

  lemma {:induction false} ElapsedIsCount(s: Schedule, last: int, now: int)
    requires IsSchedule(s)
    ensures Elapsed(s, last, now) == |TriggersIn(s, last, now)|
    decreases now - last
  {
    assert NextIsLeast(s, last);
    var next := s(last);
    if next > now {
      assert TriggersIn(s, last, now) == {};
    } else {
      ElapsedIsCount(s, next, now);
      assert TriggersIn(s, last, now) == {next} + TriggersIn(s, next, now);
    }
  }

  /** What a tick fires and where it leaves the register, in terms of the triggers in (last, now]:
      none does nothing; a single one is fired under either policy; of several the last is fired
      once or all are skipped, up to the 100,001st. */
  ghost predicate FiresByTriggers(s: Schedule, last: int, now: int, policy: MisfirePolicy, fires: seq<int>, newLast: int) {
    var due := TriggersIn(s, last, now);
    && (due == {} ==> fires == [] && newLast == last)
    && (forall x :: due == {x} ==> fires == [x] && newLast == x)
    && (|due| >= 2 ==> last < newLast <= now && Trigger(s, newLast) && fires == if policy == MisfireSkip then [] else [newLast])
    && (2 <= |due| <= 100_001 ==> LastIn(s, last, now, newLast))
    && (|due| > 100_001 ==> |TriggersIn(s, last, newLast)| == 100_001)
  }

  lemma TickByTriggers(s: Schedule, last: int, now: int, policy: MisfirePolicy)
    requires IsSchedule(s)
    ensures FiresByTriggers(s, last, now, policy, Fired(s, last, now, policy), NewLast(s, last, now))
  {
    ElapsedIsCount(s, last, now);
    var due, n, t := TriggersIn(s, last, now), Elapsed(s, last, now), NewLast(s, last, now);
    if n > 0 {
      NthGrows(s, last, 0, Min(n, MAX_SCAN + 1));
      ElapsedCounts(s, last, now, Min(n, MAX_SCAN + 1));
      assert t in due;
      forall x | due == {x} ensures x == t { assert x in due; }
      if n <= MAX_SCAN + 1 { CatchesUp(s, last, now); } else { FullScan(s, last, now); }
    }
  }

  /** A scan that reaches its bound ends at the 100,001st trigger. */
  lemma FullScan(s: Schedule, last: int, now: int)
    requires IsSchedule(s) && Elapsed(s, last, now) > MAX_SCAN + 1
    ensures |TriggersIn(s, last, NewLast(s, last, now))| == MAX_SCAN + 1
  {
    var t := NewLast(s, last, now);
    ElapsedIsCount(s, last, t);
    var n := Elapsed(s, last, t);
    ElapsedCounts(s, last, t, MAX_SCAN + 1);
    ElapsedCounts(s, last, t, n);
    if n > MAX_SCAN + 1 { NthGrows(s, last, MAX_SCAN + 1, n); }
  }

  /** The bounded scan of a tick. */
  method ComputeFires(s: Schedule, lastFired: int, now: int, policy: MisfirePolicy) returns (fires: seq<int>, newLastFired: int)
    requires IsSchedule(s)
    ensures newLastFired == NewLast(s, lastFired, now)
    ensures fires == Fired(s, lastFired, now, policy)
    ensures FiresByTriggers(s, lastFired, now, policy, fires, newLastFired)
  {
    TickByTriggers(s, lastFired, now, policy);
    var next := s(lastFired);
    if next > now {
      return [], lastFired;
    }
    var latest := next;
    var i := 0;
    assert Nth(s, lastFired, 1) == next;
    assert Nth(s, lastFired, 0) == lastFired;
    while i < MAX_SCAN
      invariant i <= MAX_SCAN
      invariant latest == Nth(s, lastFired, i + 1) && i + 1 <= Elapsed(s, lastFired, now)
    {
      var n := s(latest);
      if n > now { break; }
      latest := n;
      ElapsedAfter(s, lastFired, now, i + 1);
      i := i + 1;
    }
    ElapsedAfter(s, lastFired, now, i + 1);
    assert i < MAX_SCAN ==> Elapsed(s, lastFired, now) == i + 1;
    if i > 0 { NthGrows(s, lastFired, 1, i + 1); }
    assert latest == NewLast(s, lastFired, now);
    if latest <= next {
      return [next], next;
    }
    if policy == MisfireFireOnce {
      return [latest], latest;
    }
    return [], latest;
  }

  // ----- runs of ticks -----

  ghost predicate IsTicks(s: Schedule, lasts: seq<int>, nows: seq<int>)
    requires IsSchedule(s)
  {
    |lasts| == |nows| + 1 && forall k :: 0 <= k < |nows| ==> lasts[k + 1] == NewLast(s, lasts[k], nows[k])
  }

  lemma TickGoesUp(s: Schedule, last: int, now: int, policy: MisfirePolicy)
    requires IsSchedule(s)
    ensures last <= NewLast(s, last, now)
    ensures |Fired(s, last, now, policy)| <= 1
    ensures forall t :: t in Fired(s, last, now, policy) ==> last < t <= now && t == NewLast(s, last, now) && Trigger(s, t)
  {
    var n := Min(Elapsed(s, last, now), MAX_SCAN + 1);
    if n > 0 {
      NthGrows(s, last, 0, n);
      ElapsedCounts(s, last, now, n);
    }
  }

  lemma {:induction false} RegisterGoesUp(s: Schedule, lasts: seq<int>, nows: seq<int>, i: nat, k: nat)
    requires IsSchedule(s) && IsTicks(s, lasts, nows) && i <= k < |lasts|
    ensures lasts[i] <= lasts[k]
  {
    if i < k {
      RegisterGoesUp(s, lasts, nows, i, k - 1);
      TickGoesUp(s, lasts[k - 1], nows[k - 1], MisfireSkip);
    }
  }

  /** Over any run of ticks, whatever the clock does, the triggers enqueued are genuine, lie
      in (last, now] of their tick, are at most one per tick, and strictly increase. */
  lemma FiresStrictlyIncrease(s: Schedule, policy: MisfirePolicy, lasts: seq<int>, nows: seq<int>, i: nat, k: nat, t: int, u: int)
    requires IsSchedule(s) && IsTicks(s, lasts, nows) && i < k < |nows|
    requires t in Fired(s, lasts[i], nows[i], policy) && u in Fired(s, lasts[k], nows[k], policy)
    ensures t < u && Trigger(s, t) && Trigger(s, u)
    ensures lasts[i] < t <= nows[i] && lasts[k] < u <= nows[k]
    ensures |Fired(s, lasts[i], nows[i], policy)| == 1
  {
    TickGoesUp(s, lasts[i], nows[i], policy);
    TickGoesUp(s, lasts[k], nows[k], policy);
    RegisterGoesUp(s, lasts, nows, i + 1, k);
  }

  lemma {:induction false} NthAdds(s: Schedule, t: int, m: nat, n: nat)
    ensures Nth(s, Nth(s, t, m), n) == Nth(s, t, m + n)
  {
    if n > 0 { NthAdds(s, t, m, n - 1); }
  }

  /** Ticks at a fixed instant each take up to 100,001 triggers off the backlog. */
  lemma {:induction false} Backlog(s: Schedule, lasts: seq<int>, nows: seq<int>, now: int, k: nat)
    requires IsSchedule(s) && IsTicks(s, lasts, nows) && k < |lasts|
    requires forall i :: 0 <= i < |nows| ==> nows[i] == now
    ensures lasts[k] == Nth(s, lasts[0], Min(Elapsed(s, lasts[0], now), k * (MAX_SCAN + 1)))
  {
    var all := Elapsed(s, lasts[0], now);
    if k > 0 {
      Backlog(s, lasts, nows, now, k - 1);
      var done := Min(all, (k - 1) * (MAX_SCAN + 1));
      ElapsedAfter(s, lasts[0], now, done);
      assert lasts[k] == NewLast(s, lasts[k - 1], now);
      NthAdds(s, lasts[0], done, Min(all - done, MAX_SCAN + 1));
      assert k * (MAX_SCAN + 1) == (k - 1) * (MAX_SCAN + 1) + MAX_SCAN + 1;
    }
  }

  /** So any backlog, however long the outage, is worked off in finitely many ticks. */
  lemma CatchUpIsFinite(s: Schedule, lasts: seq<int>, nows: seq<int>, now: int, k: nat)
    requires IsSchedule(s) && IsTicks(s, lasts, nows) && k < |lasts|
    requires forall i :: 0 <= i < |nows| ==> nows[i] == now
    requires Elapsed(s, lasts[0], now) <= k * (MAX_SCAN + 1)
    ensures Elapsed(s, lasts[k], now) == 0
    ensures forall x :: lasts[k] < x <= now ==> !Trigger(s, x)
  {
    Backlog(s, lasts, nows, now, k);
    ElapsedAfter(s, lasts[0], now, Elapsed(s, lasts[0], now));
    assert NextIsLeast(s, lasts[k]);
  }
}
