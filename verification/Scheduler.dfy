/** Cluster-wide firing of one schedule by any number of instances that each believe they
    lead. A pass of `fireDue` samples its clock, reads the lastFired register, enqueues under
    the per-trigger dedup key and overwrites the register; passes interleave freely, so a
    stale pass can move the register back. Times are whole seconds. */
module Scheduler {
  import opened Base
  import opened Fires

  /** What the deployment promises. */
  datatype Bounds = Bounds(
    skew: nat,      // a sampled clock differs from Redis' clock by at most this
    delay: nat,     // from sampling its clock to its last write a pass takes at most this
    gap: nat,       // some pass sampled within the last `gap` seconds has completed
    ttl: nat)       // lifetime of a dedup key

  datatype Stage = Sampled | Baselining | Due(last: int, seen: int) | Writing(newLast: int)

  /** `sample` is Redis' time when the pass began, `at` the clock reading it works with. */
  datatype Pass = Pass(sample: int, at: int, stage: Stage)

  datatype State = State(
    now: int,
    register: Option<int>,
    dedup: map<int, int>,          // trigger -> deadline of its dedup key
    enqueued: multiset<int>,       // triggers that were put on the stream
    passes: map<nat, Pass>,
    best: int)                     // latest sample time of a completed pass

  datatype Event =
    | Tick(t: int)
    | Sample(i: nat, at: int)
    | Read(i: nat)
    | ReadFails(i: nat)            // the register cannot be read: the pass baselines all the same
    | Baseline(i: nat)
    | Enqueue(i: nat)
    | Write(i: nat)
    | Vanish(i: nat)               // a crash, or an error that ends the pass without a write

  function Max(a: int, b: int): int { if a < b then b else a }

  function Start(now: int): State { State(now, None, map[], multiset{}, map[], now) }

  predicate OnTime(b: Bounds, s: State, i: nat) {
    i in s.passes && s.now <= s.passes[i].sample + b.delay
  }

  ghost predicate Enabled(sched: Schedule, b: Bounds, s: State, e: Event) {
    match e
    case Tick(t) => s.now <= t <= s.best + b.gap
    case Sample(i, at) => i !in s.passes && s.now - b.skew <= at <= s.now + b.skew
    case Read(i) => OnTime(b, s, i) && s.passes[i].stage == Sampled
    case ReadFails(i) => OnTime(b, s, i) && s.passes[i].stage == Sampled
    case Baseline(i) => OnTime(b, s, i) && s.passes[i].stage == Baselining
    case Enqueue(i) => OnTime(b, s, i) && s.passes[i].stage.Due?
    case Write(i) => OnTime(b, s, i) && s.passes[i].stage.Writing?
    case Vanish(i) => i in s.passes
  }

  function SetStage(s: State, i: nat, stage: Stage): State
    requires i in s.passes
  {
    s.(passes := s.passes[i := s.passes[i].(stage := stage)])
  }

  function Complete(s: State, i: nat): State
    requires i in s.passes
  {
    s.(passes := s.passes - {i}, best := Max(s.best, s.passes[i].sample))
  }

  /** The register was read: nothing is due, or there is something to enqueue or to skip. */
  ghost function AfterRead(sched: Schedule, policy: MisfirePolicy, s: State, i: nat, last: int): State
    requires IsSchedule(sched) && i in s.passes
  {
    var at := s.passes[i].at;
    if NewLast(sched, last, at) == last then Complete(s, i)
    else if Fired(sched, last, at, policy) == [] then SetStage(s, i, Writing(NewLast(sched, last, at)))
    else SetStage(s, i, Due(last, s.best))
  }

  /** SET NX PX of the dedup key and, if it was free, the enqueue. */
  ghost function AfterEnqueue(sched: Schedule, b: Bounds, s: State, i: nat): State
    requires IsSchedule(sched) && i in s.passes && s.passes[i].stage.Due?
  {
    var t := NewLast(sched, s.passes[i].stage.last, s.passes[i].at);
    var v := SetStage(s, i, Writing(t));
    if t in s.dedup && s.now < s.dedup[t] then v
    else v.(dedup := s.dedup[t := s.now + b.ttl], enqueued := s.enqueued + multiset{t})
  }

  ghost function Step(sched: Schedule, policy: MisfirePolicy, b: Bounds, s: State, e: Event): State
    requires IsSchedule(sched) && Enabled(sched, b, s, e)
  {
    match e
    case Tick(t) => s.(now := t)
    case Sample(i, at) => s.(passes := s.passes[i := Pass(s.now, at, Sampled)])
    case Read(i) =>
      if s.register.None? then SetStage(s, i, Baselining)
      else AfterRead(sched, policy, s, i, s.register.value)
    case ReadFails(i) => SetStage(s, i, Baselining)
    case Baseline(i) => Complete(s.(register := Some(s.passes[i].at)), i)
    case Enqueue(i) => AfterEnqueue(sched, b, s, i)
    case Write(i) => Complete(s.(register := Some(s.passes[i].stage.newLast)), i)
    case Vanish(i) => s.(passes := s.passes - {i})
  }

  ghost predicate IsRun(sched: Schedule, policy: MisfirePolicy, b: Bounds, ss: seq<State>, es: seq<Event>)
    requires IsSchedule(sched)
  {
    && |ss| == |es| + 1 && ss[0] == Start(ss[0].now)
    && forall k :: 0 <= k < |es| ==> Enabled(sched, b, ss[k], es[k]) && ss[k + 1] == Step(sched, policy, b, ss[k], es[k])
  }

  // ----- the invariant -----

  /** No trigger up to `t` lies after `r`. */
  ghost predicate Covers(sched: Schedule, r: int, t: int) {
    forall x :: x <= t && Trigger(sched, x) ==> x <= r
  }

  ghost predicate PassOk(sched: Schedule, b: Bounds, s: State, p: Pass)
    requires IsSchedule(sched)
  {
    && p.sample <= s.now
    && p.sample - b.skew <= p.at <= p.sample + b.skew
    && match p.stage
       case Sampled => true
       case Baselining => true
       case Due(last, seen) =>
         p.sample <= seen + b.gap && Covers(sched, last, seen - b.skew - b.delay) && last < NewLast(sched, last, p.at) <= p.at &&
         Covers(sched, NewLast(sched, last, p.at), p.at)
       case Writing(newLast) => Covers(sched, newLast, p.at)
  }

  ghost predicate PassesOk(sched: Schedule, b: Bounds, s: State)
    requires IsSchedule(sched)
  {
    forall i :: i in s.passes ==> PassOk(sched, b, s, s.passes[i])
  }

  /** An enqueued trigger is genuine, was enqueued once, and its key lives well past it. */
  ghost predicate OnceOk(sched: Schedule, b: Bounds, s: State) {
    forall t :: s.enqueued[t] > 0 ==>
      s.enqueued[t] == 1 && Trigger(sched, t) && t in s.dedup && t - b.skew + b.ttl <= s.dedup[t]
  }

  ghost predicate Inv(sched: Schedule, b: Bounds, s: State)
    requires IsSchedule(sched)
  {
    && s.best <= s.now <= s.best + b.gap
    && (s.register.Some? ==> Covers(sched, s.register.value, s.best - b.skew - b.delay))
    && PassesOk(sched, b, s)
    && OnceOk(sched, b, s)
  }

  /** The dedup key outlives every pass that could repeat a trigger, and the scan bound is
      never reached. */
  predicate Fits(b: Bounds) {
    2 * b.skew + 2 * b.delay + b.gap <= b.ttl && 2 * b.skew + b.delay + b.gap <= MAX_SCAN + 1
  }

  /** If all triggers up to `low` are behind `last`, at most `at - low` are still to come. */
  lemma {:induction false} ElapsedBound(sched: Schedule, last: int, at: int, low: int)
    requires IsSchedule(sched) && Covers(sched, last, low)
    ensures Elapsed(sched, last, at) <= Max(0, at - low)
    decreases at - last
  {
    assert NextIsLeast(sched, last);
    var next := sched(last);
    if next <= at {
      assert next > low;
      assert Covers(sched, next, next);
      ElapsedBound(sched, next, at, next);
    }
  }

  lemma ReadOk(sched: Schedule, policy: MisfirePolicy, b: Bounds, s: State, i: nat)
    requires IsSchedule(sched) && Inv(sched, b, s) && Fits(b) && Enabled(sched, b, s, Read(i)) && s.register.Some?
    ensures Inv(sched, b, AfterRead(sched, policy, s, i, s.register.value))
  {
    var last, p := s.register.value, s.passes[i];
    assert PassOk(sched, b, s, p);
    ElapsedBound(sched, last, p.at, s.best - b.skew - b.delay);
    var n := Elapsed(sched, last, p.at);
    assert n <= MAX_SCAN + 1;
    if n == 0 {
      assert NextIsLeast(sched, last);
      assert Covers(sched, last, p.at);
    } else {
      CatchesUp(sched, last, p.at);
      var t := NewLast(sched, last, p.at);
      assert Covers(sched, t, p.at);
    }
  }

  lemma EnqueueOk(sched: Schedule, policy: MisfirePolicy, b: Bounds, s: State, i: nat)
    requires IsSchedule(sched) && Inv(sched, b, s) && Fits(b) && Enabled(sched, b, s, Enqueue(i))
    ensures Inv(sched, b, AfterEnqueue(sched, b, s, i))
  {
    var p := s.passes[i];
    assert PassOk(sched, b, s, p);
    var t := NewLast(sched, p.stage.last, p.at);
    NewLastIsTrigger(sched, p.stage.last, p.at);
    assert t > p.stage.seen - b.skew - b.delay;
    if s.enqueued[t] > 0 {
      assert s.now < t - b.skew + b.ttl;
    }
  }

  lemma NewLastIsTrigger(sched: Schedule, last: int, now: int)
    requires IsSchedule(sched) && last < NewLast(sched, last, now)
    ensures Trigger(sched, NewLast(sched, last, now))
  {
    NthGrows(sched, last, 0, Min(Elapsed(sched, last, now), MAX_SCAN + 1));
  }

  /** A write by a pass that is on time covers everything a completed pass was to cover. */
  lemma WriteOk(sched: Schedule, b: Bounds, s: State, i: nat, value: int)
    requires IsSchedule(sched) && Inv(sched, b, s) && OnTime(b, s, i) && Covers(sched, value, s.passes[i].at)
    ensures Inv(sched, b, Complete(s.(register := Some(value)), i))
  {
    assert PassOk(sched, b, s, s.passes[i]);
  }

  lemma StepOk(sched: Schedule, policy: MisfirePolicy, b: Bounds, s: State, e: Event)
    requires IsSchedule(sched) && Inv(sched, b, s) && Fits(b) && Enabled(sched, b, s, e)
    ensures Inv(sched, b, Step(sched, policy, b, s, e))
  {
    match e {
      case Read(i) => if s.register.Some? { ReadOk(sched, policy, b, s, i); } else { assert PassOk(sched, b, s, s.passes[i]); }
      case ReadFails(i) => assert PassOk(sched, b, s, s.passes[i]);
      case Baseline(i) =>
        assert PassOk(sched, b, s, s.passes[i]);
        WriteOk(sched, b, s, i, s.passes[i].at);
      case Enqueue(i) => EnqueueOk(sched, policy, b, s, i);
      case Write(i) =>
        assert PassOk(sched, b, s, s.passes[i]);
        WriteOk(sched, b, s, i, s.passes[i].stage.newLast);
      case _ =>
    }
  }

  lemma {:induction false} AlwaysInv(sched: Schedule, policy: MisfirePolicy, b: Bounds, ss: seq<State>, es: seq<Event>, k: nat)
    requires IsSchedule(sched) && IsRun(sched, policy, b, ss, es) && Fits(b) && k < |ss|
    ensures Inv(sched, b, ss[k])
  {
    if k > 0 {
      AlwaysInv(sched, policy, b, ss, es, k - 1);
      StepOk(sched, policy, b, ss[k - 1], es[k - 1]);
    }
  }

  /** At-most-once firing: in every run of any number of passes, no trigger is ever put on
      the stream twice, and only genuine triggers are. */
  lemma AtMostOnce(sched: Schedule, policy: MisfirePolicy, b: Bounds, ss: seq<State>, es: seq<Event>, k: nat, t: int)
    requires IsSchedule(sched) && IsRun(sched, policy, b, ss, es) && Fits(b) && k < |ss|
    ensures ss[k].enqueued[t] <= 1 && (ss[k].enqueued[t] == 1 ==> Trigger(sched, t))
  {
    AlwaysInv(sched, policy, b, ss, es, k);
  }

  // ----- the gap matters -----

  /** Triggers at 0 and from `quiet` on. */
  function Sparse(quiet: int, t: int): int {
    if t < 0 then 0 else if t < quiet then quiet else t + 1
  }

  lemma SparseIsSchedule(quiet: int)
    requires quiet > 0
    ensures IsSchedule(t => Sparse(quiet, t))
  {
    var s: Schedule := t => Sparse(quiet, t);
    forall t ensures NextIsLeast(s, t) {}
  }

  lemma OneElapsed(quiet: int, now: int)
    requires 0 <= now < quiet
    ensures IsSchedule(t => Sparse(quiet, t))
    ensures var s: Schedule := t => Sparse(quiet, t);
            Elapsed(s, -1, now) == 1 && NewLast(s, -1, now) == 0
  {
    SparseIsSchedule(quiet);
    var s: Schedule := t => Sparse(quiet, t);
    assert s(-1) == 0 && s(0) == quiet;
    assert Elapsed(s, 0, now) == 0;
    assert Nth(s, -1, 0) == -1 && Nth(s, -1, 1) == 0;
  }

  /** A run that ends in `s`. */
  ghost predicate RunTo(sched: Schedule, policy: MisfirePolicy, b: Bounds, ss: seq<State>, es: seq<Event>, s: State)
    requires IsSchedule(sched)
  {
    IsRun(sched, policy, b, ss, es) && ss[|es|] == s
  }

  lemma Extend(sched: Schedule, policy: MisfirePolicy, b: Bounds, ss: seq<State>, es: seq<Event>, s: State, e: Event)
    returns (ss': seq<State>, es': seq<Event>)
    requires IsSchedule(sched) && RunTo(sched, policy, b, ss, es, s) && Enabled(sched, b, s, e)
    ensures RunTo(sched, policy, b, ss', es', Step(sched, policy, b, s, e))
  {
    ss', es' := ss + [Step(sched, policy, b, s, e)], es + [e];
    forall k | 0 <= k < |es'|
      ensures Enabled(sched, b, ss'[k], es'[k]) && ss'[k + 1] == Step(sched, policy, b, ss'[k], es'[k])
    {
      if k < |es| { assert ss'[k] == ss[k] && ss'[k + 1] == ss[k + 1] && es'[k] == es[k]; }
    }
  }

  /** No pass is under way and the register is just before trigger 0. */
  function Behind(now: int, dedup: map<int, int>, enqueued: multiset<int>): State {
    State(now, Some(-1), dedup, enqueued, map[], -1)
  }

  lemma BaselineRun(sched: Schedule, policy: MisfirePolicy, b: Bounds) returns (ss: seq<State>, es: seq<Event>)
    requires IsSchedule(sched)
    ensures RunTo(sched, policy, b, ss, es, Behind(-1, map[], multiset{}))
  {
    var s := Start(-1);
    ss, es := [s], [];
    ss, es := Extend(sched, policy, b, ss, es, s, Sample(0, -1));
    var s1 := s.(passes := map[0 := Pass(-1, -1, Sampled)]);
    ss, es := Extend(sched, policy, b, ss, es, s1, Read(0));
    var s2 := s.(passes := map[0 := Pass(-1, -1, Baselining)]);
    assert Step(sched, policy, b, s1, Read(0)) == s2;
    ss, es := Extend(sched, policy, b, ss, es, s2, Baseline(0));
    assert s2.passes - {0} == map[];
  }

  /** A pass that finds the register behind and the dedup key free enqueues trigger 0, and
      vanishes. */
  lemma EnqueueRun(quiet: int, policy: MisfirePolicy, b: Bounds, ss: seq<State>, es: seq<Event>,
                   now: int, dedup: map<int, int>, enqueued: multiset<int>)
    returns (ss': seq<State>, es': seq<Event>)
    requires IsSchedule(t => Sparse(quiet, t)) && 0 <= now < quiet && (0 in dedup ==> dedup[0] <= now)
    requires RunTo(t => Sparse(quiet, t), policy, b, ss, es, Behind(now, dedup, enqueued))
    ensures RunTo(t => Sparse(quiet, t), policy, b, ss', es', Behind(now, dedup[0 := now + b.ttl], enqueued + multiset{0}))
  {
    OneElapsed(quiet, now);
    var sched: Schedule := t => Sparse(quiet, t);
    var s := Behind(now, dedup, enqueued);
    ss', es' := Extend(sched, policy, b, ss, es, s, Sample(1, now));
    var s1 := s.(passes := map[1 := Pass(now, now, Sampled)]);
    ss', es' := Extend(sched, policy, b, ss', es', s1, Read(1));
    var s2 := s.(passes := map[1 := Pass(now, now, Due(-1, -1))]);
    assert Step(sched, policy, b, s1, Read(1)) == s2;
    ss', es' := Extend(sched, policy, b, ss', es', s2, Enqueue(1));
    var s3 := Behind(now, dedup[0 := now + b.ttl], enqueued + multiset{0}).(passes := map[1 := Pass(now, now, Writing(0))]);
    assert Step(sched, policy, b, s2, Enqueue(1)) == s3;
    ss', es' := Extend(sched, policy, b, ss', es', s3, Vanish(1));
    assert s3.passes - {1} == map[];
  }

  /** With exact clocks and instantaneous passes a trigger can be enqueued twice as soon as
      the gap between completed passes exceeds the lifetime of the dedup key: a leader that
      crashes between its enqueue and its write leaves the register behind. */
  lemma GapMatters(policy: MisfirePolicy, b: Bounds) returns (sched: Schedule, ss: seq<State>, es: seq<Event>)
    requires b.skew == 0 && b.delay == 0 && 1 <= b.ttl < b.gap
    ensures IsSchedule(sched) && IsRun(sched, policy, b, ss, es) && ss[|es|].enqueued[0] == 2
  {
    var quiet := b.ttl + 1;
    SparseIsSchedule(quiet);
    sched := t => Sparse(quiet, t);
    ss, es := BaselineRun(sched, policy, b);
    ss, es := Extend(sched, policy, b, ss, es, Behind(-1, map[], multiset{}), Tick(0));
    ss, es := EnqueueRun(quiet, policy, b, ss, es, 0, map[], multiset{});
    var once := map[0 := 0 + b.ttl];
    ss, es := Extend(sched, policy, b, ss, es, Behind(0, once, multiset{0}), Tick(b.ttl));
    ss, es := EnqueueRun(quiet, policy, b, ss, es, b.ttl, once, multiset{0});
  }
}
