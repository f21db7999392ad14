/** The pass that `FireDue` carries out is, schedule by schedule, a pass of the cluster
    machine that nobody interrupts. */
module SchedulerPass {
  import opened Ids
  import opened Base
  import opened Store
  import opened Fires
  import opened Leader
  import Cluster = Scheduler

  /** The store and the cluster machine agree on one schedule. */
  ghost predicate Agree(v: Keys, s: Cluster.State, id: string) {
    && (s.register.Some? <==> id in v.registers) && (s.register.Some? ==> s.register.value == v.registers[id])
    && (forall t :: t in s.dedup <==> (id, t) in v.dedup)
    && (forall t :: t in s.dedup && (id, t) in v.dedup ==> s.dedup[t] == v.dedup[(id, t)])
    && (forall t :: s.enqueued[t] == multiset(v.stream)[(id, t)])
  }

  ghost predicate Steps(e: Entry, b: Cluster.Bounds, ss: seq<Cluster.State>, es: seq<Cluster.Event>)
    requires IsEntry(e)
  {
    && |ss| == |es| + 1
    && forall k :: 0 <= k < |es| ==>
         Cluster.Enabled(e.schedule, b, ss[k], es[k]) && ss[k + 1] == Cluster.Step(e.schedule, e.misfire, b, ss[k], es[k])
  }

  lemma More(e: Entry, b: Cluster.Bounds, ss: seq<Cluster.State>, es: seq<Cluster.Event>, ev: Cluster.Event)
    returns (ss': seq<Cluster.State>, es': seq<Cluster.Event>)
    requires IsEntry(e) && Steps(e, b, ss, es) && Cluster.Enabled(e.schedule, b, ss[|es|], ev)
    ensures Steps(e, b, ss', es') && ss'[0] == ss[0] && |es'| == |es| + 1
    ensures ss'[|es'|] == Cluster.Step(e.schedule, e.misfire, b, ss[|es|], ev)
  {
    ss', es' := ss + [Cluster.Step(e.schedule, e.misfire, b, ss[|es|], ev)], es + [ev];
    forall k | 0 <= k < |es'|
      ensures Cluster.Enabled(e.schedule, b, ss'[k], es'[k]) && ss'[k + 1] == Cluster.Step(e.schedule, e.misfire, b, ss'[k], es'[k])
    {
      if k < |es| { assert ss'[k] == ss[k] && ss'[k + 1] == ss[k + 1] && es'[k] == es[k]; }
    }
  }

  lemma SampleAndRead(e: Entry, b: Cluster.Bounds, s: Cluster.State, i: nat, at: int, unread: bool)
    returns (ss: seq<Cluster.State>, es: seq<Cluster.Event>)
    requires IsEntry(e) && i !in s.passes && s.now - b.skew <= at <= s.now + b.skew
    ensures Steps(e, b, ss, es) && ss[0] == s
    ensures var s1 := s.(passes := s.passes[i := Cluster.Pass(s.now, at, Cluster.Sampled)]);
            ss[|es|] == if s.register.None? || unread then Cluster.SetStage(s1, i, Cluster.Baselining)
                        else Cluster.AfterRead(e.schedule, e.misfire, s1, i, s.register.value)
  {
    ss, es := [s], [];
    ss, es := More(e, b, ss, es, Cluster.Sample(i, at));
    ss, es := More(e, b, ss, es, if unread then Cluster.ReadFails(i) else Cluster.Read(i));
  }

  lemma PassRefines(v: Keys, e: Entry, b: Cluster.Bounds, s: Cluster.State, i: nat, at: int, unread: bool)
    returns (ss: seq<Cluster.State>, es: seq<Cluster.Event>)
    requires IsEntry(e) && Agree(v, s, e.id) && i !in s.passes && s.now - b.skew <= at <= s.now + b.skew && b.ttl >= 1
    ensures Steps(e, b, ss, es) && ss[0] == s
    ensures Agree(Passed(v, e, at, s.now, b.ttl, unread, false), ss[|es|], e.id)
  {
    ss, es := SampleAndRead(e, b, s, i, at, unread);
    if s.register.None? || unread {
      ss, es := More(e, b, ss, es, Cluster.Baseline(i));
    } else {
      var last := s.register.value;
      TickGoesUp(e.schedule, last, at, e.misfire);
      if NewLast(e.schedule, last, at) == last {
        NothingDue(e.schedule, last, at, e.misfire);
      } else if Fired(e.schedule, last, at, e.misfire) == [] {
        ss, es := More(e, b, ss, es, Cluster.Write(i));
      } else {
        ss, es := FireAndWrite(v, e, b, s, i, at, ss, es);
      }
    }
  }

  lemma NothingDue(s: Schedule, last: int, now: int, policy: MisfirePolicy)
    requires IsSchedule(s) && NewLast(s, last, now) == last
    ensures Fired(s, last, now, policy) == []
  {
    var n := Min(Elapsed(s, last, now), MAX_SCAN + 1);
    if n > 0 { NthGrows(s, last, 0, n); }
  }

  lemma FireAndWrite(v: Keys, e: Entry, b: Cluster.Bounds, s: Cluster.State, i: nat, at: int,
                     ss0: seq<Cluster.State>, es0: seq<Cluster.Event>)
    returns (ss: seq<Cluster.State>, es: seq<Cluster.Event>)
    requires IsEntry(e) && Agree(v, s, e.id) && i !in s.passes && b.ttl >= 1 && s.register.Some?
    requires Steps(e, b, ss0, es0) && ss0[0] == s
    requires Fired(e.schedule, s.register.value, at, e.misfire) != []
    requires ss0[|es0|] == s.(passes := s.passes[i := Cluster.Pass(s.now, at, Cluster.Due(s.register.value, s.best))])
    ensures Steps(e, b, ss, es) && ss[0] == s
    ensures Agree(Passed(v, e, at, s.now, b.ttl, false, false), ss[|es|], e.id)
  {
    var last := s.register.value;
    var t := NewLast(e.schedule, last, at);
    assert Fired(e.schedule, last, at, e.misfire)[0] == t;
    ss, es := More(e, b, ss0, es0, Cluster.Enqueue(i));
    ss, es := More(e, b, ss, es, Cluster.Write(i));
    assert Agree(WithTrigger(v, e.id, t, s.now, b.ttl).(registers := v.registers[e.id := t]), ss[|es|], e.id);
  }

  // ----- the periodic script -----

  /** The schedule keys and the queue agree on which triggers have a dedup key, and until when. */
  ghost predicate SameDedup(v: Keys, q: Queue) {
    forall id, t: nat {:trigger Indexed(Root(id), t)} ::
      && (Indexed(Root(id), t) in q.dedup <==> (id, t) in v.dedup)
      && ((id, t) in v.dedup ==> q.dedup[Indexed(Root(id), t)] == v.dedup[(id, t)])
  }

  /** An enqueue of the pass is the periodic script of the queue: both reject a trigger whose key
      lives, and otherwise both set the key and add one trigger. */
  lemma TriggerIsScript(v: Keys, q: Queue, id: string, t: nat, msg: TaskMessage, ttl: int)
    requires SameDedup(v, q) && msg.id == Indexed(Root(id), t)
    ensures var u, r := WithTrigger(v, id, t, q.now, ttl), Apply(q, EnqueuePeriodic(msg, ttl));
            && SameDedup(u, r)
            && (Taken(v, id, t, q.now) ==> u == v && r == q)
            && (!Taken(v, id, t, q.now) ==>
                  && u.stream == v.stream + [(id, t)] && r.stream == q.stream[q.nextEntry := msg.id]
                  && r.hash == q.hash[msg.id := Body(Some(msg), Pending)])
  {
    var u, r := WithTrigger(v, id, t, q.now, ttl), Apply(q, EnqueuePeriodic(msg, ttl));
    assert Indexed(Root(id), t) in q.dedup <==> (id, t) in v.dedup;
    forall i, k: nat
      ensures Indexed(Root(i), k) in r.dedup <==> (i, k) in u.dedup
      ensures (i, k) in u.dedup ==> r.dedup[Indexed(Root(i), k)] == u.dedup[(i, k)]
    {
      assert Indexed(Root(i), k) in q.dedup <==> (i, k) in v.dedup;
    }
  }
}
