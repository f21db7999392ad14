/** One group's keys in Redis with their expiry: the pending SET, the result HASH and the
    callback hash. `Keys` carries out the scripts; the functions are their specification,
    and the lemmas say what every run of reports, re-attempts, expiries and deletions keeps. */
module GroupRounds {
  import opened Ids
  import opened Base
  import opened GroupState

  /** An empty SET or HASH is a missing key; each key has its own deadline. */
  datatype Round = Round(
    pending: set<Id>, pendingUntil: int,
    results: map<nat, Bytes>, resultsUntil: int,
    callback: Option<seq<Bytes>>,          // group_results of the callback hash, while it exists
    now: int)

  /** Keys past their deadline are gone. */
  function Fresh(r: Round): Round {
    r.(pending := if r.now < r.pendingUntil then r.pending else {},
       results := if r.now < r.resultsUntil then r.results else map[])
  }

  /** Registration of a standalone group under a fresh ID. */
  function Registered(slots: set<Id>, now: int): Round {
    Round(slots, now + GROUP_TTL, map[], 0, None, now)
  }

  function WithResult(f: Round, index: nat, result: Bytes): Round {
    if result == [] then f else f.(results := f.results[index := result], resultsUntil := f.now + GROUP_TTL)
  }

  function Collected(f: Round, size: nat): seq<Bytes> {
    if f.results != map[] && size > 0 then Assemble(f.results, size) else []
  }

  /** The completion script. */
  function AfterReport(r: Round, slot: Id, index: nat, size: nat, result: Bytes): Round {
    var f := Fresh(r);
    if f.pending == {} then f
    else
      var g := WithResult(f, index, result).(pending := f.pending - {slot});
      if g.pending != {} then
        g.(pendingUntil := g.now + GROUP_TTL, resultsUntil := if g.results != map[] then g.now + GROUP_TTL else g.resultsUntil)
      else
        g.(results := map[], callback := if g.callback.None? then Some(Collected(g, size)) else g.callback)
  }

  predicate Fires(r: Round, slot: Id) {
    Fresh(r).pending != {} && Fresh(r).pending - {slot} == {} && r.callback.None?
  }

  /** The stage script, re-attempted by a redelivered predecessor. */
  function AfterReattempt(r: Round, slots: set<Id>): Round {
    var f := Fresh(r);
    if f.callback.Some? then f
    else if f.pending != {} then f.(pendingUntil := f.now + GROUP_TTL)
    else f.(pending := slots, pendingUntil := f.now + GROUP_TTL, results := map[])
  }

  // ----- the scripts -----

  class Keys {
    var pending: set<Id>
    var pendingUntil: int
    var results: map<nat, Bytes>
    var resultsUntil: int
    var callback: Option<seq<Bytes>>
    var now: int

    ghost function Value(): Round
      reads this
    {
      Round(pending, pendingUntil, results, resultsUntil, callback, now)
    }

    constructor (time: int)
      ensures Value() == Round({}, 0, map[], 0, None, time)
    {
      pending, pendingUntil, results, resultsUntil, callback, now := {}, 0, map[], 0, None, time;
    }

    method Expire()
      modifies this
      ensures Value() == Fresh(old(Value()))
    {
      if now >= pendingUntil { pending := {}; }
      if now >= resultsUntil { results := map[]; }
    }

    /** CreateGroup: an error for no members, else SADD and EXPIRE. */
    method CreateGroup(memberIds: seq<Id>) returns (ok: bool)
      modifies this
      ensures ok == (memberIds != [])
      ensures !ok ==> Value() == old(Value())
      ensures var slots := set i | 0 <= i < |memberIds| :: memberIds[i];
              ok ==> Value() == Fresh(old(Value())).(pending := Fresh(old(Value())).pending + slots, pendingUntil := old(now) + GROUP_TTL)
    {
      if memberIds == [] { return false; }
      Expire();
      ghost var before := pending;
      for i := 0 to |memberIds|
        invariant pending == before + set j | 0 <= j < i :: memberIds[j]
        invariant Value() == Fresh(old(Value())).(pending := pending)
      {
        pending := pending + {memberIds[i]};
      }
      pendingUntil := now + GROUP_TTL;
      return true;
    }

    /** CreateGroupIfAbsent: fenced by the callback hash, then by the SET itself. */
    method CreateIfAbsent(memberIds: seq<Id>) returns (found: Option<StageState>)
      modifies this
      ensures found.None? <==> memberIds == []
      ensures found.None? ==> Value() == old(Value())
      ensures found.Some? ==> Value() == AfterReattempt(old(Value()), set i | 0 <= i < |memberIds| :: memberIds[i])
      ensures found == Some(StageDone) <==> memberIds != [] && old(callback).Some?
      ensures found == Some(StageExists) <==> memberIds != [] && old(callback).None? && Fresh(old(Value())).pending != {}
    {
      if memberIds == [] { return None; }
      Expire();
      if callback.Some? { return Some(StageDone); }
      if pending != {} {
        pendingUntil := now + GROUP_TTL;
        return Some(StageExists);
      }
      for i := 0 to |memberIds|
        invariant pending == set j | 0 <= j < i :: memberIds[j]
        invariant Value() == Fresh(old(Value())).(pending := pending)
      {
        pending := pending + {memberIds[i]};
      }
      pendingUntil := now + GROUP_TTL;
      results := map[];
      return Some(StageCreated);
    }

    /** CompleteGroupMember's script; true when this call created the callback. */
    method Complete(slot: Id, index: nat, size: nat, result: Bytes) returns (fired: bool)
      modifies this
      ensures Value() == AfterReport(old(Value()), slot, index, size, result)
      ensures fired == Fires(old(Value()), slot)
    {
      Expire();
      if pending == {} { return false; }
      pending := pending - {slot};
      if result != [] {
        results := results[index := result];
        resultsUntil := now + GROUP_TTL;
      }
      if pending != {} {
        pendingUntil := now + GROUP_TTL;
        if results != map[] { resultsUntil := now + GROUP_TTL; }
        return false;
      }
      var collected: seq<Bytes> := [];
      if results != map[] && size > 0 {
        for i := 0 to size
          invariant |collected| == i
          invariant forall k :: 0 <= k < i ==> collected[k] == if k in results then results[k] else []
        {
          collected := collected + [if i in results then results[i] else []];
        }
        assert collected == Assemble(results, size);
      }
      results := map[];
      if callback.Some? { return false; }
      callback := Some(collected);
      return true;
    }
  }

  // ----- refinement of the workflow machine's group state -----

  function View(r: Round, key: Key): Groups {
    var f := Fresh(r);
    Groups(if f.pending == {} then map[] else map[key := f.pending], if f.results == map[] then map[] else map[key := f.results],
           map[key := f.pendingUntil], map[key := f.resultsUntil], f.now)
  }

  /** The same keys with the same deadlines. */
  ghost predicate SameGroup(g: Groups, h: Groups, key: Key) {
    && g.pending == h.pending && g.results == h.results && g.clock == h.clock
    && (key in g.pending ==> key in g.setUntil && key in h.setUntil && g.setUntil[key] == h.setUntil[key])
    && (key in g.results ==> key in g.hashUntil && key in h.hashUntil && g.hashUntil[key] == h.hashUntil[key])
  }

  /** The script is the report of the workflow machine. */
  lemma ReportRefines(r: Round, key: Key, slot: Id, index: nat, size: nat, result: Bytes)
    ensures var o := Report(View(r, key), key, slot, index, size, result, r.callback.Some?);
            var r' := AfterReport(r, slot, index, size, result);
            && o.fires == Fires(r, slot)
            && SameGroup(View(r', key), o.groups, key)
            && (o.fires ==> r'.callback == Some(o.collected))
  {
    var f := Fresh(r);
    if f.pending != {} {
      var o := Report(View(r, key), key, slot, index, size, result, r.callback.Some?);
      assert ResultsOf(View(r, key), key) == f.results;
      if f.pending - {slot} == {} {
        assert o.groups.pending == map[] && o.groups.results == map[];
      } else {
        assert o.groups.pending == map[key := f.pending - {slot}];
        assert View(AfterReport(r, slot, index, size, result), key).results == o.groups.results;
      }
    }
  }

  lemma ReattemptRefines(r: Round, key: Key, slots: set<Id>)
    requires slots != {}
    ensures SameGroup(View(AfterReattempt(r, slots), key), CreateIfAbsent(View(r, key), key, slots, r.callback.Some?), key)
  {
    assert map[key := Fresh(r).results] - {key} == map[];
  }

  /** Expiry is the passing of time in the workflow machine. */
  lemma PassRefines(r: Round, key: Key, t: int)
    requires r.now <= t
    ensures SameGroup(View(r.(now := t), key), GroupState.Pass(View(r, key), t), key)
  {
    var g, h := View(r, key), GroupState.Pass(View(r, key), t);
    assert h.pending == if key in g.pending && t < r.pendingUntil then g.pending else map[];
    assert h.results == if key in g.results && t < r.resultsUntil then g.results else map[];
  }

  // ----- runs -----

  datatype Step =
    | Told(slot: Id, index: nat, size: nat, result: Bytes)
    | Reattempt(slots: set<Id>)
    | Pass(t: int)
    | CallbackGone                 // the callback finished, was deleted or was trimmed

  function After(r: Round, e: Step): Round {
    match e
    case Told(slot, index, size, result) => AfterReport(r, slot, index, size, result)
    case Reattempt(slots) => AfterReattempt(r, slots)
    case Pass(t) => if r.now <= t then r.(now := t) else r
    case CallbackGone => r.(callback := None)
  }

  predicate FiresAt(r: Round, e: Step) {
    e.Told? && Fires(r, e.slot)
  }

  predicate Live(r: Round) { Fresh(r).pending != {} }

  /** This re-attempt registers the group anew: a new round begins. */
  predicate Recreates(r: Round, e: Step) {
    e.Reattempt? && r.callback.None? && !Live(r)
  }

  /** A group registered and then reported to, re-attempted, registered anew and aged in any
      order. A re-attempt names the slots of the first registration. */
  ghost predicate IsHistory(slots: set<Id>, rs: seq<Round>, es: seq<Step>) {
    && |rs| == |es| + 1 && slots != {}
    && rs[0] == Registered(slots, rs[0].now)
    && (forall k :: 0 <= k < |es| ==> rs[k + 1] == After(rs[k], es[k]))
    && (forall k :: 0 <= k < |es| && es[k].Reattempt? ==> es[k].slots == slots)
  }

  /** Where the round that state `k` belongs to began. */
  function Start(rs: seq<Round>, es: seq<Step>, k: nat): (s: nat)
    requires |rs| == |es| + 1 && k <= |es|
    ensures s <= k
  {
    if k == 0 then 0 else if Recreates(rs[k - 1], es[k - 1]) then k else Start(rs, es, k - 1)
  }

  ghost predicate ReportedIn(es: seq<Step>, from: nat, k: nat, slot: Id)
    requires k <= |es|
  {
    exists i :: from <= i < k && es[i].Told? && es[i].slot == slot
  }

  /** While the SET lives it holds exactly the slots that have not reported in this round. */
  ghost predicate Exact(slots: set<Id>, r: Round, es: seq<Step>, from: nat, k: nat)
    requires k <= |es|
  {
    forall s :: s in Fresh(r).pending <==> Live(r) && s in slots && !ReportedIn(es, from, k, s)
  }

  lemma OneMoreReport(es: seq<Step>, from: nat, k: nat, s: Id)
    requires from <= k < |es|
    ensures ReportedIn(es, from, k + 1, s) <==> ReportedIn(es, from, k, s) || (es[k].Told? && es[k].slot == s)
  {
    if ReportedIn(es, from, k + 1, s) {
      var i :| from <= i < k + 1 && es[i].Told? && es[i].slot == s;
      if i < k { assert ReportedIn(es, from, k, s); }
    }
  }

  lemma {:induction false} PendingIsUnreported(slots: set<Id>, rs: seq<Round>, es: seq<Step>, k: nat)
    requires IsHistory(slots, rs, es) && k < |rs|
    ensures Exact(slots, rs[k], es, Start(rs, es, k), k)
  {
    if k > 0 {
      var r, e, from := rs[k - 1], es[k - 1], Start(rs, es, k - 1);
      assert rs[k] == After(r, e);
      if !Recreates(r, e) {
        PendingIsUnreported(slots, rs, es, k - 1);
        forall s ensures ReportedIn(es, from, k, s) <==> ReportedIn(es, from, k - 1, s) || (e.Told? && e.slot == s) {
          OneMoreReport(es, from, k - 1, s);
        }
        if e.Told? && Live(r) { assert Fresh(rs[k]).pending == Fresh(r).pending - {e.slot}; }
      }
    }
  }

  /** Once the SET of a round is gone it stays gone. */
  lemma {:induction false} GoneForGood(slots: set<Id>, rs: seq<Round>, es: seq<Step>, i: nat, k: nat)
    requires IsHistory(slots, rs, es) && i <= k < |rs| && Start(rs, es, k) <= i && !Live(rs[i])
    ensures !Live(rs[k])
  {
    if i < k {
      GoneForGood(slots, rs, es, i, k - 1);
      assert rs[k] == After(rs[k - 1], es[k - 1]);
    }
  }

  lemma OnlySlotLeft(pending: set<Id>, slot: Id)
    requires pending != {} && pending - {slot} == {}
    ensures pending == {slot}
  {
    forall s | s in pending ensures s == slot { assert s !in pending - {slot}; }
    var s :| s in pending;
  }

  lemma FiresOnce(slots: set<Id>, rs: seq<Round>, es: seq<Step>, j: nat, k: nat)
    requires IsHistory(slots, rs, es) && j < k < |es| && Start(rs, es, j) == Start(rs, es, k) && FiresAt(rs[j], es[j])
    ensures !FiresAt(rs[k], es[k])
  {
    GoneForGood(slots, rs, es, j + 1, k);
  }

  /** Group callback safety: in every run the callback is created only by the report that
      removes the last pending slot, after every slot has reported in this round, and at most
      once in a round, even when its hash is gone again. */
  lemma CallbackSafety(slots: set<Id>, rs: seq<Round>, es: seq<Step>, k: nat)
    requires IsHistory(slots, rs, es) && k < |es|
    ensures rs[k].callback.None? && rs[k + 1].callback.Some? <==> FiresAt(rs[k], es[k])
    ensures FiresAt(rs[k], es[k]) ==>
              && Fresh(rs[k]).pending == {es[k].slot}
              && !Live(rs[k + 1])
              && (forall s :: s in slots ==> ReportedIn(es, Start(rs, es, k), k + 1, s))
              && (forall j :: 0 <= j < |es| && j != k && Start(rs, es, j) == Start(rs, es, k) ==> !FiresAt(rs[j], es[j]))
  {
    if FiresAt(rs[k], es[k]) {
      PendingIsUnreported(slots, rs, es, k);
      OnlySlotLeft(Fresh(rs[k]).pending, es[k].slot);
      forall s | s in slots ensures ReportedIn(es, Start(rs, es, k), k + 1, s) {
        OneMoreReport(es, Start(rs, es, k), k, s);
        assert s in Fresh(rs[k]).pending <==> !ReportedIn(es, Start(rs, es, k), k, s);
      }
      forall j | 0 <= j < |es| && j != k && Start(rs, es, j) == Start(rs, es, k) ensures !FiresAt(rs[j], es[j]) {
        if FiresAt(rs[j], es[j]) {
          if j < k { FiresOnce(slots, rs, es, j, k); } else { FiresOnce(slots, rs, es, k, j); }
        }
      }
    }
  }

  // ----- results -----

  /** The last non-empty result reported for an index in steps `from` to `k`. */
  function Latest(es: seq<Step>, from: nat, k: nat, index: nat): Bytes
    requires k <= |es|
  {
    if k <= from then []
    else if es[k - 1].Told? && es[k - 1].index == index && es[k - 1].result != [] then es[k - 1].result
    else Latest(es, from, k - 1, index)
  }

  predicate ResultAt(es: seq<Step>, i: nat)
    requires i < |es|
  {
    es[i].Told? && es[i].result != []
  }

  ghost predicate SomeResult(es: seq<Step>, from: nat, k: nat)
    requires k <= |es|
  {
    exists i :: from <= i < k && ResultAt(es, i)
  }

  lemma {:induction false} LatestOfSome(es: seq<Step>, from: nat, k: nat, i: nat)
    requires from <= i < k <= |es| && ResultAt(es, i)
    ensures Latest(es, from, k, es[i].index) != []
  {
    if i < k - 1 { LatestOfSome(es, from, k - 1, i); }
  }

  lemma {:induction false} SomeOfLatest(es: seq<Step>, from: nat, k: nat, index: nat) returns (i: nat)
    requires k <= |es| && Latest(es, from, k, index) != []
    ensures from <= i < k && ResultAt(es, i) && es[i].index == index
  {
    if es[k - 1].Told? && es[k - 1].index == index && es[k - 1].result != [] { i := k - 1; }
    else { i := SomeOfLatest(es, from, k - 1, index); }
  }

  /** The HASH was recorded and has expired, and the SET lives. */
  predicate HashLost(r: Round) {
    Live(r) && r.results != map[] && Fresh(r).results == map[]
  }

  /** Where what the HASH holds at state `k` began: with the round, or when it was lost last. */
  function KeptFrom(rs: seq<Round>, es: seq<Step>, k: nat): (s: nat)
    requires |rs| == |es| + 1 && k <= |es|
    ensures Start(rs, es, k) <= s <= k
  {
    if k == 0 || Recreates(rs[k - 1], es[k - 1]) || HashLost(rs[k]) then k else KeptFrom(rs, es, k - 1)
  }

  /** The HASH holds, index by index, the latest result since then. */
  ghost predicate Recorded(r: Round, es: seq<Step>, from: nat, k: nat)
    requires k <= |es|
  {
    Live(r) ==>
      forall i: nat :: (i in Fresh(r).results <==> Latest(es, from, k, i) != []) && (i in Fresh(r).results ==> Fresh(r).results[i] == Latest(es, from, k, i))
  }

  lemma RecordStep(r: Round, e: Step, es: seq<Step>, from: nat, k: nat)
    requires from <= k < |es| && es[k] == e && Recorded(r, es, from, k) && !Recreates(r, e)
    requires !HashLost(After(r, e))
    ensures Recorded(After(r, e), es, from, k + 1)
  {
    var r' := After(r, e);
    if Live(r') {
      assert Live(r);
      if e.Told? {
        assert Fresh(r').results == WithResult(Fresh(r), e.index, e.result).results;
      } else {
        assert Fresh(r').results == Fresh(r).results;
      }
    }
  }

  lemma {:induction false} AlwaysRecorded(slots: set<Id>, rs: seq<Round>, es: seq<Step>, k: nat)
    requires IsHistory(slots, rs, es) && k < |rs|
    ensures Recorded(rs[k], es, KeptFrom(rs, es, k), k)
  {
    if k == 0 || Recreates(rs[k - 1], es[k - 1]) || HashLost(rs[k]) {
      if k > 0 { assert rs[k] == After(rs[k - 1], es[k - 1]); }
      forall i: nat ensures Latest(es, k, k, i) == [] {}
    } else {
      AlwaysRecorded(slots, rs, es, k - 1);
      RecordStep(rs[k - 1], es[k - 1], es, KeptFrom(rs, es, k - 1), k - 1);
    }
  }

  /** What a callback of `size` members receives of the results reported in steps `from` to `k`. */
  ghost predicate Receives(got: seq<Bytes>, es: seq<Step>, from: nat, k: nat, size: nat)
    requires k <= |es|
  {
    if size > 0 && SomeResult(es, from, k)
    then |got| == size && forall i :: 0 <= i < size ==> got[i] == Latest(es, from, k, i)
    else got == []
  }

  lemma CollectedIs(results: map<nat, Bytes>, es: seq<Step>, from: nat, k: nat, size: nat)
    requires k <= |es|
    requires forall i: nat :: (i in results <==> Latest(es, from, k, i) != []) && (i in results ==> results[i] == Latest(es, from, k, i))
    ensures Receives(if results != map[] && size > 0 then Assemble(results, size) else [], es, from, k, size)
  {
    if SomeResult(es, from, k) {
      var i :| from <= i < k && ResultAt(es, i);
      LatestOfSome(es, from, k, i);
      assert es[i].index in results;
    } else if results != map[] {
      var i :| i in results;
      var j := SomeOfLatest(es, from, k, i);
    }
  }

  /** Result collection, in every run: the callback receives, member by member, the latest
      non-empty result reported since the HASH was lost last, or else in this round, nil where
      there was none, and nothing at all when nobody produced one. */
  lemma ResultCollection(slots: set<Id>, rs: seq<Round>, es: seq<Step>, k: nat)
    requires IsHistory(slots, rs, es) && k < |es| && FiresAt(rs[k], es[k])
    ensures rs[k + 1].callback.Some?
    ensures Receives(rs[k + 1].callback.value, es, KeptFrom(rs, es, k), k + 1, es[k].size)
  {
    AlwaysRecorded(slots, rs, es, k);
    var f, e, from := Fresh(rs[k]), es[k], KeptFrom(rs, es, k);
    var g := WithResult(f, e.index, e.result);
    assert rs[k + 1] == After(rs[k], e);
    forall i: nat ensures (i in g.results <==> Latest(es, from, k + 1, i) != []) && (i in g.results ==> g.results[i] == Latest(es, from, k + 1, i)) {
      assert Latest(es, from, k + 1, i) == if e.index == i && e.result != [] then e.result else Latest(es, from, k, i);
    }
    CollectedIs(g.results, es, from, k + 1, e.size);
  }

  lemma {:induction false} LatestGrows(es: seq<Step>, start: nat, from: nat, k: nat, index: nat)
    requires start <= from <= k <= |es|
    ensures Latest(es, start, k, index) == if Latest(es, from, k, index) != [] then Latest(es, from, k, index) else Latest(es, start, from, index)
  {
    if from < k { LatestGrows(es, start, from, k - 1, index); }
  }

  /** Member `es[i].index` has reported a result again since. */
  ghost predicate Renewed(es: seq<Step>, i: nat, from: nat, k: nat)
    requires i < |es| && k <= |es| && es[i].Told?
  {
    exists n :: from <= n < k && ResultAt(es, n) && es[n].index == es[i].index
  }

  /** Every result that counts and was reported before `from` was reported again since. */
  ghost predicate AllRenewed(es: seq<Step>, start: nat, from: nat, k: nat, size: nat)
    requires from <= k <= |es|
  {
    forall i :: start <= i < from && ResultAt(es, i) && (es[i].index < size || !SomeResult(es, from, k)) ==> Renewed(es, i, from, k)
  }

  /** What was received since `from` is what was reported since `start`, exactly when nothing is missing. */
  lemma ReceivesAll(got: seq<Bytes>, es: seq<Step>, start: nat, from: nat, k: nat, size: nat)
    requires start <= from <= k <= |es| && Receives(got, es, from, k, size)
    ensures Receives(got, es, start, k, size) <==> size == 0 || AllRenewed(es, start, from, k, size)
  {
    forall i: nat ensures Latest(es, start, k, i) == if Latest(es, from, k, i) != [] then Latest(es, from, k, i) else Latest(es, start, from, i) {
      LatestGrows(es, start, from, k, i);
    }
    if size > 0 && AllRenewed(es, start, from, k, size) {
      RenewedReceives(got, es, start, from, k, size);
    }
    if size > 0 && Receives(got, es, start, k, size) {
      forall i | start <= i < from && ResultAt(es, i) && (es[i].index < size || !SomeResult(es, from, k)) ensures Renewed(es, i, from, k) {
        LatestOfSome(es, start, from, i);
        assert SomeResult(es, start, k);
        var n := SomeOfLatest(es, from, k, es[i].index);
      }
    }
  }

  lemma RenewedReceives(got: seq<Bytes>, es: seq<Step>, start: nat, from: nat, k: nat, size: nat)
    requires start <= from <= k <= |es| && Receives(got, es, from, k, size) && size > 0 && AllRenewed(es, start, from, k, size)
    requires forall i: nat :: Latest(es, start, k, i) == if Latest(es, from, k, i) != [] then Latest(es, from, k, i) else Latest(es, start, from, i)
    ensures Receives(got, es, start, k, size)
  {
    if SomeResult(es, start, k) {
      var i :| start <= i < k && ResultAt(es, i);
      assert i < from ==> Renewed(es, i, from, k) || SomeResult(es, from, k);
      forall j | 0 <= j < size ensures got[j] == Latest(es, start, k, j) {
        if Latest(es, start, from, j) != [] {
          var n := SomeOfLatest(es, start, from, j);
          assert Renewed(es, n, from, k);
          var r :| from <= r < k && ResultAt(es, r) && es[r].index == es[n].index;
          LatestOfSome(es, from, k, r);
        }
      }
    } else {
      assert !SomeResult(es, from, k);
    }
  }

  /** The callback receives the latest results of its whole round if and only if every member
      whose result was lost with the HASH has reported again since. */
  lemma WholeRoundCollected(slots: set<Id>, rs: seq<Round>, es: seq<Step>, k: nat)
    requires IsHistory(slots, rs, es) && k < |es| && FiresAt(rs[k], es[k])
    ensures rs[k + 1].callback.Some?
    ensures Receives(rs[k + 1].callback.value, es, Start(rs, es, k), k + 1, es[k].size) <==>
              es[k].size == 0 || AllRenewed(es, Start(rs, es, k), KeptFrom(rs, es, k), k + 1, es[k].size)
  {
    ResultCollection(slots, rs, es, k);
    ReceivesAll(rs[k + 1].callback.value, es, Start(rs, es, k), KeptFrom(rs, es, k), k + 1, es[k].size);
  }

  // ----- the two deadlines -----

  /** When the group was last reported to, or registered. */
  function LastTold(rs: seq<Round>, es: seq<Step>, k: nat): int
    requires |rs| == |es| + 1 && k <= |es|
  {
    if k == 0 then rs[0].now
    else if Recreates(rs[k - 1], es[k - 1]) || (es[k - 1].Told? && Live(rs[k - 1])) then rs[k - 1].now
    else LastTold(rs, es, k - 1)
  }

  /** When the SET was last registered or refreshed by a re-attempt. */
  function LastRefresh(rs: seq<Round>, es: seq<Step>, k: nat): int
    requires |rs| == |es| + 1 && k <= |es|
  {
    if k == 0 then rs[0].now
    else if es[k - 1].Reattempt? && rs[k - 1].callback.None? then rs[k - 1].now
    else LastRefresh(rs, es, k - 1)
  }

  function Max(a: int, b: int): int { if a < b then b else a }

  ghost predicate Deadlines(r: Round, told: int, refreshed: int) {
    && told <= r.now && refreshed <= r.now
    && (Live(r) ==> r.pendingUntil == GROUP_TTL + Max(told, refreshed))
    && (Live(r) && r.results != map[] ==> r.resultsUntil == GROUP_TTL + told)
  }

  lemma {:induction false} AlwaysDeadlines(slots: set<Id>, rs: seq<Round>, es: seq<Step>, k: nat)
    requires IsHistory(slots, rs, es) && k < |rs|
    ensures Deadlines(rs[k], LastTold(rs, es, k), LastRefresh(rs, es, k))
  {
    if k > 0 {
      AlwaysDeadlines(slots, rs, es, k - 1);
      assert rs[k] == After(rs[k - 1], es[k - 1]);
    }
  }

  /** When a HASH is lost, in every run: its deadline counts from the last report, that of the
      SET also from the last re-attempt. */
  lemma LostExactlyWhen(slots: set<Id>, rs: seq<Round>, es: seq<Step>, k: nat)
    requires IsHistory(slots, rs, es) && k < |rs| && Live(rs[k]) && rs[k].results != map[]
    ensures HashLost(rs[k]) <==> LastTold(rs, es, k) + GROUP_TTL <= rs[k].now < LastRefresh(rs, es, k) + GROUP_TTL
  {
    AlwaysDeadlines(slots, rs, es, k);
  }

  /** The result HASH outlives the pending SET, if nothing but time passes, exactly when no
      re-attempt refreshed the SET after the last report. */
  lemma ResultsOutliveSet(slots: set<Id>, rs: seq<Round>, es: seq<Step>, k: nat)
    requires IsHistory(slots, rs, es) && k < |rs| && Live(rs[k]) && Fresh(rs[k]).results != map[]
    ensures rs[k].pendingUntil <= rs[k].resultsUntil <==> LastRefresh(rs, es, k) <= LastTold(rs, es, k)
  {
    AlwaysDeadlines(slots, rs, es, k);
  }

  /** In a round without a re-attempt nothing is lost. */
  lemma {:induction false} NothingLost(slots: set<Id>, rs: seq<Round>, es: seq<Step>, k: nat)
    requires IsHistory(slots, rs, es) && k < |rs|
    requires forall i :: Start(rs, es, k) <= i < k ==> !es[i].Reattempt?
    ensures Live(rs[k]) ==> LastRefresh(rs, es, k) <= LastTold(rs, es, k) && !HashLost(rs[k])
    ensures Live(rs[k]) ==> KeptFrom(rs, es, k) == Start(rs, es, k)
  {
    AlwaysDeadlines(slots, rs, es, k);
    if k > 0 && !Recreates(rs[k - 1], es[k - 1]) {
      NothingLost(slots, rs, es, k - 1);
      assert rs[k] == After(rs[k - 1], es[k - 1]);
      AlwaysDeadlines(slots, rs, es, k - 1);
    }
  }

  /** The callback of a round without a re-attempt, as of every standalone group, receives the
      latest results of the whole round. */
  lemma CollectsWithoutReattempt(slots: set<Id>, rs: seq<Round>, es: seq<Step>, k: nat)
    requires IsHistory(slots, rs, es) && k < |es| && FiresAt(rs[k], es[k])
    requires forall i :: Start(rs, es, k) <= i < k ==> !es[i].Reattempt?
    ensures rs[k + 1].callback.Some?
    ensures Receives(rs[k + 1].callback.value, es, Start(rs, es, k), k + 1, es[k].size)
  {
    ResultCollection(slots, rs, es, k);
    NothingLost(slots, rs, es, k);
  }

  /** A stage that is re-attempted late loses a recorded result: the callback of two members
      that both reported gets only the second one's. */
  lemma LateRefreshLosesResult() returns (rs: seq<Round>, es: seq<Step>)
    ensures IsHistory({Root("a"), Root("b")}, rs, es) && |es| == 5
    ensures es[0] == Told(Root("a"), 0, 2, [1]) && es[4] == Told(Root("b"), 1, 2, [2])
    ensures FiresAt(rs[4], es[4]) && rs[5].callback == Some([[], [2]])
  {
    var slots := {Root("a"), Root("b")};
    es := [Told(Root("a"), 0, 2, [1]), Pass(GROUP_TTL - 1), Reattempt(slots), Pass(GROUP_TTL), Told(Root("b"), 1, 2, [2])];
    var r0 := Registered(slots, 0);
    var r1 := After(r0, es[0]);
    assert slots - {Root("a")} == {Root("b")};
    assert r1 == Round({Root("b")}, GROUP_TTL, map[0 := [1]], GROUP_TTL, None, 0);
    var r2 := After(r1, es[1]);
    var r3 := After(r2, es[2]);
    var r4 := After(r3, es[3]);
    assert Fresh(r4) == Round({Root("b")}, 2 * GROUP_TTL - 1, map[], GROUP_TTL, None, GROUP_TTL);
    var r5 := After(r4, es[4]);
    assert {Root("b")} - {Root("b")} == {};
    assert WithResult(Fresh(r4), 1, [2]).results == map[1 := [2]];
    assert 1 in map[1 := [2]];
    assert Assemble(map[1 := [2]], 2) == [[], [2]];
    rs := [r0, r1, r2, r3, r4, r5];
  }
}
