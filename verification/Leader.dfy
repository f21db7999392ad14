/** The leader key, and one uninterrupted pass of a leader over its schedules. */
module Leader {
  import opened Base
  import opened Fires

  // ----- leader lock -----

  /** The leader key: its holder and its deadline, in milliseconds. */
  datatype Term = Vacant | Held(holder: string, until: int)

  function Live(term: Term, now: int): Term {
    if term.Held? && now < term.until then term else Vacant
  }

  function AtLeastOne(ms: int): int { if ms < 1 then 1 else ms }

  datatype Call = Acquire(instance: string, ttl: int) | Resign(instance: string)

  /** The caller leads after the call. */
  predicate Wins(term: Term, now: int, c: Call) {
    c.Acquire? && (Live(term, now).Vacant? || term.holder == c.instance)
  }

  function After(term: Term, now: int, c: Call): Term {
    match c
    case Acquire(i, ttl) => if Wins(term, now, c) then Held(i, now + AtLeastOne(ttl)) else Live(term, now)
    case Resign(i) => if Live(term, now).Held? && term.holder == i then Vacant else Live(term, now)
  }

  class LeaderKey {
    var term: Term

    constructor ()
      ensures term == Vacant
    {
      term := Vacant;
    }

    /** Only another instance's live term is in the way; a caller that leads has a full term. */
    method AcquireOrRenew(instance: string, ttl: int, now: int) returns (leads: bool)
      modifies this
      ensures leads == Wins(old(term), now, Acquire(instance, ttl))
      ensures term == After(old(term), now, Acquire(instance, ttl))
      ensures leads <==> !(old(term).Held? && now < old(term).until && old(term).holder != instance)
      ensures term == if leads then Held(instance, if ttl < 1 then now + 1 else now + ttl) else old(term)
    {
      var ms := if ttl < 1 then 1 else ttl;
      if term.Held? && now >= term.until { term := Vacant; }
      if term.Vacant? || term.holder == instance {
        term := Held(instance, now + ms);
        return true;
      }
      return false;
    }

    /** The caller does not lead any more; another instance's live term is left alone. */
    method Resign(instance: string, now: int)
      modifies this
      ensures term == After(old(term), now, Call.Resign(instance))
      ensures term.Held? ==> term.holder != instance
      ensures old(term).Held? && now < old(term).until && old(term).holder != instance ==> term == old(term)
    {
      if term.Held? && now >= term.until { term := Vacant; }
      if term.Held? && term.holder == instance { term := Vacant; }
    }
  }

  /** Calls in the order Redis serves them, at non-decreasing times, with their answers. */
  ghost predicate IsHistory(terms: seq<Term>, times: seq<int>, cs: seq<Call>, leads: seq<bool>) {
    && |terms| == |cs| + 1 && |times| == |leads| == |cs|
    && (forall i, k :: 0 <= i < k < |times| ==> times[i] <= times[k])
    && (forall k :: 0 <= k < |cs| ==> terms[k + 1] == After(terms[k], times[k], cs[k]))
    && (forall k :: 0 <= k < |cs| ==> leads[k] == Wins(terms[k], times[k], cs[k]))
  }

  /** Since step `a` the holder neither renewed nor resigned, and its term has not run out. */
  ghost predicate Untouched(times: seq<int>, cs: seq<Call>, a: nat, b: nat)
    requires a < b <= |cs| && |times| == |cs| && cs[a].Acquire?
  {
    && (forall k :: a < k < b ==> cs[k].instance != cs[a].instance)
    && (forall k :: a < k < b ==> times[k] < times[a] + AtLeastOne(cs[a].ttl))
  }

  lemma {:induction false} TermHolds(terms: seq<Term>, times: seq<int>, cs: seq<Call>, leads: seq<bool>, a: nat, b: nat)
    requires IsHistory(terms, times, cs, leads) && a < b <= |cs| && leads[a] && Untouched(times, cs, a, b)
    ensures terms[b] == Held(cs[a].instance, times[a] + AtLeastOne(cs[a].ttl))
  {
    if a + 1 < b {
      TermHolds(terms, times, cs, leads, a, b - 1);
      assert terms[b] == After(terms[b - 1], times[b - 1], cs[b - 1]);
    } else {
      assert terms[b] == After(terms[a], times[a], cs[a]);
    }
  }

  /** Within an unexpired, unresigned term no other instance wins the lock. */
  lemma NoSecondLeader(terms: seq<Term>, times: seq<int>, cs: seq<Call>, leads: seq<bool>, a: nat, b: nat)
    requires IsHistory(terms, times, cs, leads) && a < b < |cs| && leads[a] && Untouched(times, cs, a, b)
    requires times[b] < times[a] + AtLeastOne(cs[a].ttl)
    ensures leads[b] ==> cs[b].instance == cs[a].instance
  {
    TermHolds(terms, times, cs, leads, a, b);
  }

  // ----- staying the leader -----

  /** The instance's last acquire in steps `a` to `k`. */
  function LastCall(cs: seq<Call>, instance: string, a: nat, k: nat): (j: nat)
    requires a < k <= |cs| && cs[a].Acquire? && cs[a].instance == instance
    ensures a <= j < k && cs[j].Acquire? && cs[j].instance == instance
  {
    if k - 1 > a && !(cs[k - 1].Acquire? && cs[k - 1].instance == instance) then LastCall(cs, instance, a, k - 1) else k - 1
  }

  /** From step `a` to step `b` the instance does not resign, and no call finds more than the
      asked-for time gone since the instance's last acquire. */
  ghost predicate KeepsCalling(times: seq<int>, cs: seq<Call>, a: nat, b: nat)
    requires a < b <= |cs| == |times| && cs[a].Acquire?
  {
    && (forall k :: a < k < b ==> !(cs[k].Resign? && cs[k].instance == cs[a].instance))
    && (forall k :: a < k < b ==>
          var j := LastCall(cs, cs[a].instance, a, k);
          times[k] < times[j] + if cs[j].ttl < 1 then 1 else cs[j].ttl)
  }

  lemma {:induction false} TermRenewed(terms: seq<Term>, times: seq<int>, cs: seq<Call>, leads: seq<bool>, a: nat, b: nat)
    requires IsHistory(terms, times, cs, leads) && a < b <= |cs| && cs[a].Acquire? && leads[a] && KeepsCalling(times, cs, a, b)
    ensures var j := LastCall(cs, cs[a].instance, a, b);
            terms[b] == Held(cs[a].instance, times[j] + if cs[j].ttl < 1 then 1 else cs[j].ttl)
  {
    if a + 1 < b { TermRenewed(terms, times, cs, leads, a, b - 1); }
    assert terms[b] == After(terms[b - 1], times[b - 1], cs[b - 1]);
  }

  /** An instance that calls within each of its terms leads until it resigns: its own calls are all
      granted, and nobody else's is. */
  lemma LeadsWhileCalling(terms: seq<Term>, times: seq<int>, cs: seq<Call>, leads: seq<bool>, a: nat, b: nat, k: nat)
    requires IsHistory(terms, times, cs, leads) && a < b <= |cs| && cs[a].Acquire? && leads[a] && KeepsCalling(times, cs, a, b)
    requires a < k < b && cs[k].Acquire?
    ensures leads[k] <==> cs[k].instance == cs[a].instance
  {
    assert KeepsCalling(times, cs, a, k) by {
      forall n | a < n < k ensures !(cs[n].Resign? && cs[n].instance == cs[a].instance) {}
    }
    TermRenewed(terms, times, cs, leads, a, k);
  }

  /** The key is free for everybody once the leader resigned, or once its term has run out. */
  lemma {:induction false} FreeAfterwards(terms: seq<Term>, times: seq<int>, cs: seq<Call>, leads: seq<bool>, a: nat, b: nat)
    requires IsHistory(terms, times, cs, leads) && a <= b < |cs| && cs[b].Acquire?
    requires || terms[a].Vacant? || terms[a].until <= times[a]
             || (cs[a].Resign? && terms[a].holder == cs[a].instance && a < b)
    requires forall k :: a <= k < b ==> cs[k].Resign?
    ensures leads[b] && terms[b + 1] == Held(cs[b].instance, if cs[b].ttl < 1 then times[b] + 1 else times[b] + cs[b].ttl)
    decreases b - a
  {
    if a < b {
      assert terms[a + 1] == After(terms[a], times[a], cs[a]);
      FreeAfterwards(terms, times, cs, leads, a + 1, b);
    }
  }

  // ----- one pass over all schedules -----

  datatype Entry = Entry(id: string, schedule: Schedule, misfire: MisfirePolicy)

  /** The schedule keys: lastFired registers, dedup deadlines, and what was enqueued. */
  datatype Keys = Keys(registers: map<string, int>, dedup: map<(string, int), int>, stream: seq<(string, int)>)

  ghost predicate IsEntry(e: Entry) { IsSchedule(e.schedule) }

  predicate Taken(v: Keys, id: string, t: int, now: int) {
    (id, t) in v.dedup && now < v.dedup[(id, t)]
  }

  function WithTrigger(v: Keys, id: string, t: int, now: int, ttl: int): Keys {
    if Taken(v, id, t, now) then v
    else v.(dedup := v.dedup[(id, t) := now + AtLeastOne(ttl)], stream := v.stream + [(id, t)])
  }

  /** One schedule's share of a pass; `unread` makes an error of the register's read, `broken` a
      real enqueue error. */
  ghost function Passed(v: Keys, e: Entry, at: int, now: int, ttl: int, unread: bool, broken: bool): Keys
    requires IsEntry(e)
  {
    if e.id !in v.registers || unread then v.(registers := v.registers[e.id := at])
    else
      var last := v.registers[e.id];
      var fires := Fired(e.schedule, last, at, e.misfire);
      if fires != [] && broken then v
      else
        var u := if fires == [] then v else WithTrigger(v, e.id, fires[0], now, ttl);
        u.(registers := u.registers[e.id := NewLast(e.schedule, last, at)])
  }

  class Registry {
    var registers: map<string, int>
    var dedup: map<(string, int), int>
    var stream: seq<(string, int)>

    ghost function Value(): Keys
      reads this
    {
      Keys(registers, dedup, stream)
    }

    method SetLastFired(id: string, when: int)
      modifies this`registers
      ensures Value() == old(Value()).(registers := old(registers)[id := when])
    {
      registers := registers[id := when];
    }

    /** The register, unless there is none or it cannot be read. */
    method GetLastFired(id: string, unread: bool) returns (r: Option<int>)
      ensures r == if id in registers && !unread then Some(registers[id]) else None
    {
      r := if id in registers && !unread then Some(registers[id]) else None;
    }

    /** False when the trigger was enqueued before. The task hash and the stream entry the
        script also writes are those of `Store`; here an enqueue is one more trigger. */
    method EnqueuePeriodic(id: string, t: int, now: int, ttl: int) returns (done: bool)
      modifies this`dedup, this`stream
      ensures done == !Taken(old(Value()), id, t, now)
      ensures Value() == WithTrigger(old(Value()), id, t, now, ttl)
    {
      var ms := if ttl < 1 then 1 else ttl;
      if (id, t) in dedup && now < dedup[(id, t)] { return false; }
      dedup := dedup[(id, t) := now + ms];
      stream := stream + [(id, t)];
      return true;
    }

    method FireEntry(e: Entry, at: int, now: int, ttl: int, unread: bool, broken: bool)
      requires IsEntry(e)
      modifies this
      ensures Value() == Passed(old(Value()), e, at, now, ttl, unread, broken)
    {
      var got := GetLastFired(e.id, unread);
      if got.None? {
        SetLastFired(e.id, at);
        var fires, newLast := ComputeFires(e.schedule, at, at, e.misfire);
        return;
      }
      var last := got.value;
      var fires, newLast := ComputeFires(e.schedule, last, at, e.misfire);
      TickGoesUp(e.schedule, last, at, e.misfire);
      var failed := false;
      var i := 0;
      while i < |fires|
        invariant i <= |fires| <= 1
        invariant failed == (broken && i > 0)
        invariant Value() == if i == 0 || broken then old(Value()) else WithTrigger(old(Value()), e.id, fires[0], now, ttl)
      {
        if broken {
          failed := true;
        } else {
          var done := EnqueuePeriodic(e.id, fires[i], now, ttl);
        }
        i := i + 1;
      }
      if failed { return; }
      if newLast != last { SetLastFired(e.id, newLast); }
      assert newLast == last ==> registers[e.id := newLast] == registers;
    }

    /** `fireDue`: every schedule in turn, an enqueue error leaving its register alone and a read error
        resetting it. */
    method FireDue(entries: seq<Entry>, at: int, now: int, ttl: int, unread: set<string>, broken: set<string>)
      requires forall i :: 0 <= i < |entries| ==> IsEntry(entries[i])
      modifies this
      ensures Value() == PassedAll(old(Value()), entries, at, now, ttl, unread, broken)
    {
      var i := 0;
      assert entries[..0] == [];
      while i < |entries|
        invariant i <= |entries|
        invariant Value() == PassedAll(old(Value()), entries[..i], at, now, ttl, unread, broken)
      {
        assert entries[..i + 1][..i] == entries[..i];
        FireEntry(entries[i], at, now, ttl, entries[i].id in unread, entries[i].id in broken);
        i := i + 1;
      }
      assert entries[..|entries|] == entries;
    }
  }

  ghost function PassedAll(v: Keys, entries: seq<Entry>, at: int, now: int, ttl: int, unread: set<string>, broken: set<string>): Keys
    requires forall i :: 0 <= i < |entries| ==> IsEntry(entries[i])
    decreases |entries|
  {
    if entries == [] then v
    else
      var n := |entries| - 1;
      Passed(PassedAll(v, entries[..n], at, now, ttl, unread, broken), entries[n], at, now, ttl, entries[n].id in unread, entries[n].id in broken)
  }

  /** The two stores agree on everything of one schedule: register, dedup keys, enqueues. */
  ghost predicate SameFor(v: Keys, u: Keys, id: string) {
    && (id in v.registers <==> id in u.registers) && (id in v.registers ==> v.registers[id] == u.registers[id])
    && (forall t :: (id, t) in v.dedup <==> (id, t) in u.dedup)
    && (forall t :: (id, t) in v.dedup && (id, t) in u.dedup ==> v.dedup[(id, t)] == u.dedup[(id, t)])
    && (forall t :: multiset(v.stream)[(id, t)] == multiset(u.stream)[(id, t)])
  }

  lemma TriggerOther(v: Keys, other: string, t: int, now: int, ttl: int, id: string)
    requires other != id
    ensures SameFor(v, WithTrigger(v, other, t, now, ttl), id)
  {
  }

  lemma TriggerSame(v: Keys, u: Keys, id: string, t: int, now: int, ttl: int)
    requires SameFor(v, u, id)
    ensures SameFor(WithTrigger(v, id, t, now, ttl), WithTrigger(u, id, t, now, ttl), id)
  {
  }

  lemma PassedOther(v: Keys, e: Entry, at: int, now: int, ttl: int, unread: bool, broken: bool, id: string)
    requires IsEntry(e) && e.id != id
    ensures SameFor(v, Passed(v, e, at, now, ttl, unread, broken), id)
  {
    if e.id in v.registers && !unread {
      var fires := Fired(e.schedule, v.registers[e.id], at, e.misfire);
      if fires != [] { TriggerOther(v, e.id, fires[0], now, ttl, id); }
    }
  }

  lemma PassedSame(v: Keys, u: Keys, e: Entry, at: int, now: int, ttl: int, unread: bool, broken: bool)
    requires IsEntry(e) && SameFor(v, u, e.id)
    ensures SameFor(Passed(v, e, at, now, ttl, unread, broken), Passed(u, e, at, now, ttl, unread, broken), e.id)
  {
    if e.id in v.registers && !unread {
      var fires := Fired(e.schedule, v.registers[e.id], at, e.misfire);
      if fires != [] { TriggerSame(v, u, e.id, fires[0], now, ttl); }
    }
  }

  lemma {:induction false} OthersUntouched(v: Keys, entries: seq<Entry>, at: int, now: int, ttl: int, unread: set<string>, broken: set<string>, id: string)
    requires forall i :: 0 <= i < |entries| ==> IsEntry(entries[i])
    requires forall i :: 0 <= i < |entries| ==> entries[i].id != id
    ensures SameFor(v, PassedAll(v, entries, at, now, ttl, unread, broken), id)
    decreases |entries|
  {
    if entries != [] {
      var n := |entries| - 1;
      OthersUntouched(v, entries[..n], at, now, ttl, unread, broken, id);
      PassedOther(PassedAll(v, entries[..n], at, now, ttl, unread, broken), entries[n], at, now, ttl, entries[n].id in unread, entries[n].id in broken, id);
    }
  }

  /** Schedules with different IDs do not disturb each other: a pass does to each one's keys
      what it would do to them alone. */
  lemma {:induction false} EachOnItsOwn(v: Keys, entries: seq<Entry>, at: int, now: int, ttl: int, unread: set<string>, broken: set<string>, k: nat)
    requires forall i :: 0 <= i < |entries| ==> IsEntry(entries[i])
    requires forall i, j :: 0 <= i < j < |entries| ==> entries[i].id != entries[j].id
    requires k < |entries|
    ensures SameFor(Passed(v, entries[k], at, now, ttl, entries[k].id in unread, entries[k].id in broken), PassedAll(v, entries, at, now, ttl, unread, broken), entries[k].id)
    decreases |entries|
  {
    var n := |entries| - 1;
    var u := PassedAll(v, entries[..n], at, now, ttl, unread, broken);
    if k < n {
      EachOnItsOwn(v, entries[..n], at, now, ttl, unread, broken, k);
      PassedOther(u, entries[n], at, now, ttl, entries[n].id in unread, entries[n].id in broken, entries[k].id);
    } else {
      OthersUntouched(v, entries[..n], at, now, ttl, unread, broken, entries[k].id);
      PassedSame(v, u, entries[k], at, now, ttl, entries[k].id in unread, entries[k].id in broken);
    }
  }
}
