/** What the passes of `fireDue` enqueue over time, in terms of the schedules' triggers alone. */
module Firing {
  import opened Fires
  import opened Leader

  /** How often the trigger was enqueued. */
  ghost function Enqueued(v: Keys, id: string, t: int): nat {
    multiset(v.stream)[(id, t)]
  }

  /** The trigger that the triggers in (since, at] call for: their last, and with the skip policy only
      if there is no other. */
  ghost predicate Owed(e: Entry, since: int, at: int, t: int) {
    LastIn(e.schedule, since, at, t) && (e.misfire == MisfireSkip ==> TriggersIn(e.schedule, since, at) == {t})
  }

  ghost predicate Owes(e: Entry, since: int, at: int) {
    exists t :: Owed(e, since, at, t)
  }

  /** The schedule is settled up to `since`: nothing is due from its register on, and no later
      trigger has a dedup key. */
  ghost predicate Settled(v: Keys, e: Entry, since: int) {
    && e.id in v.registers && v.registers[e.id] <= since && TriggersIn(e.schedule, v.registers[e.id], since) == {}
    && forall t :: t > since ==> (e.id, t) !in v.dedup
  }

  /** The passes of one scheduler over its schedules, each with the reads and the enqueues that failed. */
  ghost predicate IsPasses(vs: seq<Keys>, entries: seq<Entry>, ats: seq<int>, nows: seq<int>, ttl: int, unread: seq<set<string>>, broken: seq<set<string>>) {
    && (forall i :: 0 <= i < |entries| ==> IsEntry(entries[i]))
    && (forall i, j :: 0 <= i < j < |entries| ==> entries[i].id != entries[j].id)
    && |vs| == |ats| + 1 && |nows| == |unread| == |broken| == |ats|
    && forall k :: 0 <= k < |ats| ==> vs[k + 1] == PassedAll(vs[k], entries, ats[k], nows[k], ttl, unread[k], broken[k])
  }

  /** Up to when the passes before `k` have dealt with the schedule: a pass whose enqueue failed leaves
      its triggers to the next. */
  ghost function Since(e: Entry, ats: seq<int>, broken: seq<set<string>>, k: nat): int
    requires 0 < k <= |ats| == |broken|
  {
    if k == 1 then ats[0]
    else
      var since := Since(e, ats, broken, k - 1);
      if e.id in broken[k - 1] && Owes(e, since, ats[k - 1]) then since else ats[k - 1]
  }

  /** The schedule's own run: its first pass sets the baseline, its register is read in every later
      one, the clock does not go back, and no pass has more than 100,001 triggers to scan. */
  ghost predicate Undisturbed(v: Keys, e: Entry, ats: seq<int>, unread: seq<set<string>>, broken: seq<set<string>>)
    requires |unread| == |broken| == |ats|
  {
    && 0 < |ats| && (e.id !in v.registers || e.id in unread[0])
    && (forall t :: t > ats[0] ==> (e.id, t) !in v.dedup)
    && (forall j, k :: 0 <= j < k < |ats| ==> ats[j] <= ats[k])
    && (forall k :: 1 <= k < |ats| ==> e.id !in unread[k])
    && (forall k :: 1 <= k < |ats| ==> |TriggersIn(e.schedule, Since(e, ats, broken, k), ats[k])| <= 100_001)
  }

  ghost predicate FiresAt(e: Entry, ats: seq<int>, broken: seq<set<string>>, k: int, t: int)
    requires |broken| == |ats|
  {
    1 <= k < |ats| && e.id !in broken[k] && Owed(e, Since(e, ats, broken, k), ats[k], t)
  }

  // ----- one pass -----

  lemma OwedIsFired(e: Entry, since: int, last: int, at: int)
    requires IsEntry(e) && last <= since <= at && TriggersIn(e.schedule, last, since) == {}
    requires |TriggersIn(e.schedule, since, at)| <= 100_001
    ensures TriggersIn(e.schedule, last, at) == TriggersIn(e.schedule, since, at)
    ensures forall t :: Owed(e, since, at, t) <==> Fired(e.schedule, last, at, e.misfire) == [t]
    ensures !Owes(e, since, at) ==> Fired(e.schedule, last, at, e.misfire) == []
  {
    var due, fires, newLast := TriggersIn(e.schedule, since, at), Fired(e.schedule, last, at, e.misfire), NewLast(e.schedule, last, at);
    SameTriggers(e.schedule, last, since, at);
    TickByTriggers(e.schedule, last, at, e.misfire);
    TickGoesUp(e.schedule, last, at, e.misfire);
    if |due| >= 2 {
      assert LastIn(e.schedule, since, at, newLast);
      forall x ensures due != {x} {}
    } else if |due| == 1 {
      var x :| x in due;
      Single(due, x);
      assert LastIn(e.schedule, since, at, x);
    }
    forall t ensures Owed(e, since, at, t) <==> fires == [t] {
      if fires == [t] { assert fires[0] == newLast; }
    }
    if fires != [] { assert fires == [fires[0]] && Owed(e, since, at, fires[0]); }
  }

  lemma Single(due: set<int>, x: int)
    requires |due| == 1 && x in due
    ensures due == {x}
  {
    assert |due - {x}| == 0;
    assert due == due - {x} + {x};
  }

  lemma SameTriggers(s: Schedule, last: int, since: int, at: int)
    requires last <= since <= at && TriggersIn(s, last, since) == {}
    ensures TriggersIn(s, last, at) == TriggersIn(s, since, at)
  {
    forall t | t in TriggersIn(s, last, at) ensures t > since {
      assert t !in TriggersIn(s, last, since);
    }
  }

  lemma RegisterSettles(s: Schedule, last: int, at: int, policy: MisfirePolicy)
    requires IsSchedule(s) && last <= at && |TriggersIn(s, last, at)| <= 100_001
    ensures NewLast(s, last, at) <= at && TriggersIn(s, NewLast(s, last, at), at) == {}
  {
    var due, t := TriggersIn(s, last, at), NewLast(s, last, at);
    TickByTriggers(s, last, at, policy);
    if |due| == 1 {
      var x :| x in due;
      Single(due, x);
    }
    assert due != {} ==> t in due;
    forall y ensures y !in TriggersIn(s, t, at) {
      assert y in TriggersIn(s, t, at) ==> y in due;
    }
  }

  /** A pass over a settled schedule enqueues what is owed, once, and settles the schedule; if the
      enqueue fails, what is owed stays owed. */
  lemma PassSettles(v: Keys, e: Entry, since: int, at: int, now: int, ttl: int, broken: bool)
    requires IsEntry(e) && Settled(v, e, since) && since <= at && |TriggersIn(e.schedule, since, at)| <= 100_001
    ensures var u := Passed(v, e, at, now, ttl, false, broken);
            && Settled(u, e, if broken && Owes(e, since, at) then since else at)
            && forall t :: Enqueued(u, e.id, t) == Enqueued(v, e.id, t) + if !broken && Owed(e, since, at, t) then 1 else 0
  {
    var last := v.registers[e.id];
    var fires, u := Fired(e.schedule, last, at, e.misfire), Passed(v, e, at, now, ttl, false, broken);
    OwedIsFired(e, since, last, at);
    RegisterSettles(e.schedule, last, at, e.misfire);
    TickGoesUp(e.schedule, last, at, e.misfire);
    if fires == [] {
      assert forall t :: !Owed(e, since, at, t);
      assert u == v.(registers := v.registers[e.id := NewLast(e.schedule, last, at)]);
    } else {
      assert fires == [fires[0]] && Owed(e, since, at, fires[0]);
      if !broken { EnqueueOwed(v, e, since, at, now, ttl, fires[0], u); }
    }
  }

  lemma EnqueueOwed(v: Keys, e: Entry, since: int, at: int, now: int, ttl: int, x: int, u: Keys)
    requires IsEntry(e) && Settled(v, e, since) && Owed(e, since, at, x)
    requires NewLast(e.schedule, v.registers[e.id], at) <= at && TriggersIn(e.schedule, NewLast(e.schedule, v.registers[e.id], at), at) == {}
    requires Fired(e.schedule, v.registers[e.id], at, e.misfire) == [x] && u == Passed(v, e, at, now, ttl, false, false)
    ensures Settled(u, e, at) && forall t :: Enqueued(u, e.id, t) == Enqueued(v, e.id, t) + if Owed(e, since, at, t) then 1 else 0
  {
    assert since < x <= at && !Taken(v, e.id, x, now);
    assert u.stream == v.stream + [(e.id, x)];
    forall t ensures Enqueued(u, e.id, t) == Enqueued(v, e.id, t) + if Owed(e, since, at, t) then 1 else 0 {
      assert Owed(e, since, at, t) <==> t == x;
    }
  }

  // ----- all passes -----

  lemma SameSettled(v: Keys, u: Keys, e: Entry, since: int)
    requires SameFor(v, u, e.id) && Settled(v, e, since)
    ensures Settled(u, e, since)
  {
  }

  lemma SinceBound(e: Entry, ats: seq<int>, broken: seq<set<string>>, k: nat)
    requires 0 < k < |ats| == |broken| && forall i, j :: 0 <= i < j < |ats| ==> ats[i] <= ats[j]
    ensures Since(e, ats, broken, k) <= ats[k]
  {
    if k > 1 { SinceBound(e, ats, broken, k - 1); }
  }

  lemma PassOfOne(vs: seq<Keys>, entries: seq<Entry>, ats: seq<int>, nows: seq<int>, ttl: int, unread: seq<set<string>>, broken: seq<set<string>>, i: nat, k: nat)
    returns (u: Keys)
    requires IsPasses(vs, entries, ats, nows, ttl, unread, broken) && i < |entries| && k < |ats|
    ensures u == Passed(vs[k], entries[i], ats[k], nows[k], ttl, entries[i].id in unread[k], entries[i].id in broken[k])
    ensures SameFor(u, vs[k + 1], entries[i].id)
  {
    u := Passed(vs[k], entries[i], ats[k], nows[k], ttl, entries[i].id in unread[k], entries[i].id in broken[k]);
    EachOnItsOwn(vs[k], entries, ats[k], nows[k], ttl, unread[k], broken[k], i);
  }

  lemma {:induction false} AlwaysSettled(vs: seq<Keys>, entries: seq<Entry>, ats: seq<int>, nows: seq<int>, ttl: int, unread: seq<set<string>>, broken: seq<set<string>>, i: nat, n: nat)
    requires IsPasses(vs, entries, ats, nows, ttl, unread, broken) && i < |entries| && 0 < n <= |ats|
    requires Undisturbed(vs[0], entries[i], ats, unread, broken)
    ensures Settled(vs[n], entries[i], Since(entries[i], ats, broken, n))
  {
    var e := entries[i];
    var u := PassOfOne(vs, entries, ats, nows, ttl, unread, broken, i, n - 1);
    if n > 1 {
      AlwaysSettled(vs, entries, ats, nows, ttl, unread, broken, i, n - 1);
      SinceBound(e, ats, broken, n - 1);
      PassSettles(vs[n - 1], e, Since(e, ats, broken, n - 1), ats[n - 1], nows[n - 1], ttl, e.id in broken[n - 1]);
    }
    SameSettled(u, vs[n], e, Since(e, ats, broken, n));
  }

  /** What fired before a pass lies before the triggers the pass looks at. */
  lemma {:induction false} FiredBefore(e: Entry, ats: seq<int>, broken: seq<set<string>>, k: nat, n: nat, t: int)
    requires |broken| == |ats| && (forall i, j :: 0 <= i < j < |ats| ==> ats[i] <= ats[j])
    requires k < n <= |ats| && FiresAt(e, ats, broken, k, t)
    ensures t <= Since(e, ats, broken, n)
  {
    if n > k + 1 {
      FiredBefore(e, ats, broken, k, n - 1, t);
      SinceBound(e, ats, broken, n - 1);
    }
  }

  /** Over any passes of any number of schedules, whatever fails for the others: a trigger is enqueued
      exactly once if some pass owes it and can enqueue it, and otherwise never. */
  lemma {:induction false} FiresWhatIsOwed(vs: seq<Keys>, entries: seq<Entry>, ats: seq<int>, nows: seq<int>, ttl: int, unread: seq<set<string>>, broken: seq<set<string>>, i: nat, n: nat, t: int)
    requires IsPasses(vs, entries, ats, nows, ttl, unread, broken) && i < |entries| && 0 < n <= |ats|
    requires Undisturbed(vs[0], entries[i], ats, unread, broken)
    ensures Enqueued(vs[n], entries[i].id, t) ==
              Enqueued(vs[0], entries[i].id, t) + if exists k :: k < n && FiresAt(entries[i], ats, broken, k, t) then 1 else 0
  {
    var e := entries[i];
    var u := PassOfOne(vs, entries, ats, nows, ttl, unread, broken, i, n - 1);
    assert Enqueued(u, e.id, t) == Enqueued(vs[n], e.id, t);
    if n > 1 {
      FiresWhatIsOwed(vs, entries, ats, nows, ttl, unread, broken, i, n - 1, t);
      AlwaysSettled(vs, entries, ats, nows, ttl, unread, broken, i, n - 1);
      SinceBound(e, ats, broken, n - 1);
      PassSettles(vs[n - 1], e, Since(e, ats, broken, n - 1), ats[n - 1], nows[n - 1], ttl, e.id in broken[n - 1]);
      OneMorePass(e, ats, broken, n, t);
    }
  }

  lemma OneMorePass(e: Entry, ats: seq<int>, broken: seq<set<string>>, n: nat, t: int)
    requires |broken| == |ats| && (forall i, j :: 0 <= i < j < |ats| ==> ats[i] <= ats[j]) && 1 < n <= |ats|
    ensures (exists k :: k < n && FiresAt(e, ats, broken, k, t)) <==>
              (exists k :: k < n - 1 && FiresAt(e, ats, broken, k, t)) || FiresAt(e, ats, broken, n - 1, t)
    ensures !((exists k :: k < n - 1 && FiresAt(e, ats, broken, k, t)) && FiresAt(e, ats, broken, n - 1, t))
  {
    if k :| k < n - 1 && FiresAt(e, ats, broken, k, t) { FiredBefore(e, ats, broken, k, n - 1, t); }
  }
}
