/** Workflow meaning: when each handler is called with exactly the inputs a direct evaluation
    of the workflow gives it, whatever crashes, is redelivered, retried, deleted or re-run.

    Two things can go wrong at run time, both named here step by step: a drain that reads a
    member's message without its result, and a result HASH that expires before its SET. */
module Meaning {
  import opened Ids
  import opened Base
  import opened Store
  import opened GroupState
  import opened Flow
  import opened World

  ghost function Out(p: Plan, b: TaskMessage): Bytes {
    p.h(InputOf(b))
  }

  /** A message is the one its task was born with, except for the retry count, a result that
      can only be the right one, and a tail that may be dropped unless the task reports. */
  ghost predicate MsgOk(p: Plan, m: TaskMessage) {
    && Birth(p, m.id).Some?
    && var b := Birth(p, m.id).value;
       && m == b.(retried := m.retried, result := m.result, chain := m.chain)
       && (m.result == [] || m.result == Out(p, b))
       && (m.chain == b.chain || (m.chain == [] && b.groupId.None?))
  }

  ghost predicate HasItsResult(p: Plan, m: TaskMessage) {
    Birth(p, m.id).Some? && m.result == Out(p, Birth(p, m.id).value)
  }

  ghost predicate BodyOk(p: Plan, name: string, id: Id, body: Body) {
    body.msg.Some? && RootOf(id) in p.flows ==>
      var m := body.msg.value;
      && m.id == id && m.queue == name && MsgOk(p, m)
      && (body.state == Completed ==> HasItsResult(p, m))
  }

  ghost predicate QueuesOk(p: Plan, w: World) {
    forall name, id :: name in w.queues && id in w.queues[name].hash ==> BodyOk(p, name, id, w.queues[name].hash[id])
  }

  // ----- messages created by a worker -----

  lemma LinkSuccessor(p: Plan, m: TaskMessage)
    requires ValidPlan(p) && MsgOk(p, m) && HasItsResult(p, m) && m.chain != []
    ensures HasNext(m)
    ensures m.chain[0].group == [] ==> Birth(p, NextMessage(m).id) == Some(NextMessage(m))
    ensures forall j :: 0 <= j < |m.chain[0].group| ==> Birth(p, Member(StageId(m), j)) == Some(MemberMessage(m, j))
  {
    match m.id {
      case Indexed(Root(u), k) => ChainSuccessor(p, m, u, k);
      case Callback(Indexed(Root(u), k)) => ChainSuccessor(p, m, u, k);
      case Indexed(Member(Root(u), j), i) => MemberSuccessor(p, m, u, j, i);
      case _ =>
    }
  }

  lemma ChainSuccessor(p: Plan, m: TaskMessage, u: string, k: nat)
    requires ValidPlan(p) && MsgOk(p, m) && HasItsResult(p, m) && m.chain != []
    requires m.id == Indexed(Root(u), k) || m.id == Callback(Indexed(Root(u), k))
    ensures HasNext(m)
    ensures m.chain[0].group == [] ==> Birth(p, NextMessage(m).id) == Some(NextMessage(m))
    ensures forall j :: 0 <= j < |m.chain[0].group| ==> Birth(p, Member(StageId(m), j)) == Some(MemberMessage(m, j))
  {
    assert RootOf(Indexed(Root(u), k)) == u && RootOf(m.id) == u;
    var stages := p.flows[u].stages;
    assert m.chain == stages[k + 1..];
    assert Birth(p, m.id).value == Carrier(p.h, Root(u), stages, k);
    assert m.result == StageOut(p.h, Root(u), stages, k) == Prev(p.h, Root(u), stages, k + 1);
    assert RootOf(Indexed(Root(u), k + 1)) == u;
    assert m.chain[1..] == stages[k + 2..];
  }

  lemma MemberSuccessor(p: Plan, m: TaskMessage, u: string, j: nat, i: nat)
    requires ValidPlan(p) && MsgOk(p, m) && HasItsResult(p, m) && m.chain != []
    requires m.id == Indexed(Member(Root(u), j), i)
    ensures HasNext(m) && m.chain[0].group == []
    ensures Birth(p, NextMessage(m).id) == Some(NextMessage(m))
  {
    assert RootOf(Member(Root(u), j)) == u && RootOf(m.id) == u;
    var f := p.flows[u];
    assert ValidMember(f.members[j]);
    var links := f.members[j].links;
    assert m.chain == links[i + 1..];
    var c := Member(Root(u), j);
    assert InputOf(Birth(p, m.id).value) == InputOf(LinkBirth(p.h, c, links, i));
    assert LinkBirth(p.h, c, links, i) == Carrier(p.h, c, links, i);
    assert m.result == StageOut(p.h, c, links, i) == Prev(p.h, c, links, i + 1);
    assert RootOf(NextMessage(m).id) == u;
    assert m.chain[1..] == links[i + 2..];
  }

  // ----- groups -----

  /** What a group of the plan will collect, and the callback it will create. */
  datatype Spec = Spec(gid: Id, outs: seq<Bytes>, callback: TaskMessage)

  ghost function SpecOf(p: Plan, key: Key): Option<Spec> {
    var u := RootOf(key.1);
    if u !in p.flows then None
    else
      match key.1
      case Indexed(Root(_), k) =>
        if p.flows[u].ChainFlow? && k < |p.flows[u].stages| && p.flows[u].stages[k].group != [] && key.0 == p.flows[u].stages[k].queue
        then Some(Spec(key.1, StageMemberOuts(p.h, Root(u), p.flows[u].stages, k), StageCallback(p.h, Root(u), p.flows[u].stages, k)))
        else None
      case Root(_) =>
        if p.flows[u].GroupFlow? && key.0 == p.flows[u].callback.queue
        then Some(Spec(key.1, MemberOuts(p.h, u, p.flows[u]), FlowCallback(p.h, u, p.flows[u])))
        else None
      case _ => None
  }

  ghost predicate SpecSound(p: Plan, key: Key, s: Spec) {
    && s.gid == key.1 && s.outs != []
    && s.callback.id == Callback(key.1) && s.callback.queue == key.0
    && Birth(p, Callback(key.1)) == Some(s.callback)
    && s.callback.groupResults == Collect(s.outs)
  }

  lemma SpecIsSound(p: Plan, key: Key)
    requires ValidPlan(p) && SpecOf(p, key).Some?
    ensures SpecSound(p, key, SpecOf(p, key).value)
  {
    match key.1 {
      case Indexed(Root(u), k) => assert RootOf(Root(u)) == u && RootOf(Callback(key.1)) == RootOf(key.1);
      case Root(u) => assert RootOf(Callback(key.1)) == RootOf(key.1);
    }
  }

  /** A task reports when it belongs to a group and has no successor of its own. */
  ghost predicate Reporter(p: Plan, id: Id) {
    && Birth(p, id).Some?
    && Birth(p, id).value.groupId.Some?
    && Birth(p, id).value.chain == []
  }

  /** A reporter knows its group: queue, slot, index, size, result and callback agree. */
  ghost predicate ReportsTo(p: Plan, b: TaskMessage, s: Spec) {
    && CanReport(b)
    && SpecOf(p, GroupKeyOf(b)) == Some(s)
    && b.groupIndex < |s.outs| == b.groupSize
    && SlotOf(b) == Member(s.gid, b.groupIndex)
    && s.outs[b.groupIndex] == Out(p, b)
    && CallbackMessage(b, Collect(s.outs)) == s.callback
  }

  lemma ReporterKnowsItsGroup(p: Plan, id: Id)
    requires ValidPlan(p) && Reporter(p, id)
    ensures CanReport(Birth(p, id).value)
    ensures SpecOf(p, GroupKeyOf(Birth(p, id).value)).Some?
    ensures ReportsTo(p, Birth(p, id).value, SpecOf(p, GroupKeyOf(Birth(p, id).value)).value)
  {
    match id {
      case Member(Indexed(Root(u), k), j) => StageReporter(p, u, k, j);
      case Member(Root(u), j) => FlatReporter(p, u, j);
      case Indexed(Member(Root(u), j), i) => ChainReporter(p, u, j, i);
      case _ =>
    }
  }

  lemma StageReporter(p: Plan, u: string, k: nat, j: nat)
    requires ValidPlan(p) && Reporter(p, Member(Indexed(Root(u), k), j))
    ensures var b := Birth(p, Member(Indexed(Root(u), k), j)).value;
            CanReport(b) && SpecOf(p, GroupKeyOf(b)).Some? && ReportsTo(p, b, SpecOf(p, GroupKeyOf(b)).value)
  {
    RootOfDerived(u, k, j);
  }

  lemma FlatReporter(p: Plan, u: string, j: nat)
    requires ValidPlan(p) && Reporter(p, Member(Root(u), j))
    ensures var b := Birth(p, Member(Root(u), j)).value;
            CanReport(b) && SpecOf(p, GroupKeyOf(b)).Some? && ReportsTo(p, b, SpecOf(p, GroupKeyOf(b)).value)
  {
    assert RootOf(Root(u)) == u;
  }

  lemma ChainReporter(p: Plan, u: string, j: nat, i: nat)
    requires ValidPlan(p) && Reporter(p, Indexed(Member(Root(u), j), i))
    ensures var b := Birth(p, Indexed(Member(Root(u), j), i)).value;
            CanReport(b) && SpecOf(p, GroupKeyOf(b)).Some? && ReportsTo(p, b, SpecOf(p, GroupKeyOf(b)).value)
  {
    var c := Member(Root(u), j);
    RootOfDerived(u, i, j);
    var b, f := Birth(p, Indexed(c, i)).value, p.flows[u];
    assert ValidMember(f.members[j]);
    var links := f.members[j].links;
    assert InputOf(b) == InputOf(LinkBirth(p.h, c, links, i));
    assert LinkBirth(p.h, c, links, i) == Carrier(p.h, c, links, i);
    assert i == |links| - 1;
    assert MemberOut(p.h, u, f, j) == Out(p, b);
  }

  /** While a group is pending, the recorded results are right, and every slot that left has
      left its result behind. */
  ghost predicate GroupOk(s: Spec, pending: set<Id>, r: map<nat, Bytes>) {
    && (forall x :: x in pending ==> exists j :: 0 <= j < |s.outs| && x == Member(s.gid, j))
    && (forall i :: i in r ==> i < |s.outs| && r[i] == s.outs[i] && r[i] != [])
    && (forall j :: 0 <= j < |s.outs| && Member(s.gid, j) !in pending && s.outs[j] != [] ==> j in r)
  }

  ghost predicate PendingOk(p: Plan, g: Groups, key: Key)
    requires key in g.pending
  {
    SpecOf(p, key).Some? && GroupOk(SpecOf(p, key).value, g.pending[key], ResultsOf(g, key))
  }

  ghost predicate GroupsOk(p: Plan, w: World) {
    && (forall key :: key in w.groups.pending ==> PendingOk(p, w.groups, key))
    && (forall key {:trigger key in w.groups.pending} :: key in w.groups.pending && key.1.Root? ==> key.1 in w.launched)
    && (forall key {:trigger key in w.groups.results} :: key in w.groups.results && key.1.Root? ==> key.1 in w.launched)
  }

  /** Results that are right and complete assemble to what the callback must receive. */
  lemma AssembleIsCollect(s: Spec, r: map<nat, Bytes>)
    requires s.outs != [] && GroupOk(s, {}, r)
    ensures (if r != map[] && |s.outs| > 0 then Assemble(r, |s.outs|) else []) == Collect(s.outs)
  {
    if r == map[] {
      assert forall j :: 0 <= j < |s.outs| ==> s.outs[j] == [];
    } else {
      var i :| i in r;
      assert s.outs[i] != [];
      assert Assemble(r, |s.outs|) == s.outs;
    }
  }

  lemma ReportKeepsGroup(s: Spec, g: Groups, key: Key, slot: Id, index: nat, result: Bytes, cb: bool)
    requires key in g.pending && GroupOk(s, g.pending[key], ResultsOf(g, key))
    requires index < |s.outs| && slot == Member(s.gid, index) && result == s.outs[index]
    ensures var o := Report(g, key, slot, index, |s.outs|, result, cb);
            && (key in o.groups.pending ==> GroupOk(s, o.groups.pending[key], ResultsOf(o.groups, key)))
            && (o.fires ==> o.collected == Collect(s.outs))
  {
    var r := if result != [] then ResultsOf(g, key)[index := result] else ResultsOf(g, key);
    var left := g.pending[key] - {slot};
    assert GroupOk(s, left, r) by {
      forall j | 0 <= j < |s.outs| && Member(s.gid, j) !in left && s.outs[j] != [] ensures j in r {}
    }
    if left == {} { AssembleIsCollect(s, r); }
  }

  // ----- the invariant -----

  ghost predicate WorkerOk(p: Plan, x: Worker) {
    match x.phase
    case Running => MsgOk(p, x.msg)
    case Failed(_) => MsgOk(p, x.msg)
    case Succeeded => MsgOk(p, x.msg) && HasItsResult(p, x.msg)
    case Reported => MsgOk(p, x.msg) && HasItsResult(p, x.msg)
    case HandedOff => HandedOffOk(p, x.msg)
    case DrainReporting(_, _, stored) =>
      StagingOk(p, x.msg) && MsgOk(p, stored) && HasItsResult(p, stored) && Reporter(p, stored.id)
    case _ => StagingOk(p, x.msg)
  }

  ghost predicate StagingOk(p: Plan, m: TaskMessage) {
    MsgOk(p, m) && HasItsResult(p, m) && m.chain != [] && m.chain[0].group != []
  }

  ghost predicate HandedOffOk(p: Plan, m: TaskMessage) {
    && HasItsResult(p, m)
    && m == Birth(p, m.id).value.(retried := m.retried, result := m.result, chain := [])
    && (m.retention > 0 ==> MsgOk(p, m))
  }

  ghost predicate WorkersOk(p: Plan, w: World) {
    forall i :: i in w.workers ==> WorkerOk(p, w.workers[i])
  }

  /** Every handler call was made with the inputs of the task's birth message. */
  ghost predicate LogOk(p: Plan, w: World) {
    forall c {:trigger c in w.log} :: c in w.log ==> Birth(p, c.id).Some? && c == InputOf(Birth(p, c.id).value)
  }

  ghost predicate Inv(p: Plan, w: World) {
    QueuesOk(p, w) && GroupsOk(p, w) && WorkersOk(p, w) && LogOk(p, w)
  }

  /** The member message the next step of this drain will read, if there is one. */
  function ReadBy(w: World, x: Worker): Option<TaskMessage>
    requires x.phase.DrainReading? && CanAdvance(w, x)
  {
    var member := MemberMessage(x.msg, x.phase.j);
    var h := QueueOf(w, member.queue).hash;
    if member.id in h then h[member.id].msg else None
  }

  /** A drain that has found its member completed reads a message with the member's result. */
  ghost predicate ReadsResult(p: Plan, w: World, e: Event) {
    e.Advance? && e.wid in w.workers && w.workers[e.wid].phase.DrainReading? && CanAdvance(w, w.workers[e.wid]) ==>
      var m := ReadBy(w, w.workers[e.wid]);
      m.Some? ==> HasItsResult(p, m.value)
  }

  /** No result HASH expires before its SET. */
  ghost predicate InTime(w: World, e: Event) {
    e.TimePasses? ==>
      forall key :: key in w.groups.pending && key in w.groups.results && Alive(w.groups.setUntil, key, e.t) ==>
        Alive(w.groups.hashUntil, key, e.t)
  }

  // ----- single calls -----

  lemma RunOk(p: Plan, w: World, name: string, op: Op)
    requires QueuesOk(p, w)
    requires Written(op).Some? ==> BodyOk(p, name, op.msg.id, Written(op).value)
    ensures QueuesOk(p, Run(w, name, op))
  {
    var q := QueueOf(w, name);
    ApplyBodies(q, op);
    forall n, id | n in Run(w, name, op).queues && id in Run(w, name, op).queues[n].hash
      ensures BodyOk(p, n, id, Run(w, name, op).queues[n].hash[id])
    {
      if n == name && id in q.hash { assert BodyOk(p, n, id, q.hash[id]); }
    }
  }

  lemma CreateTaskOk(p: Plan, w: World, msg: TaskMessage, delay: int, at: int)
    requires QueuesOk(p, w) && Birth(p, msg.id) == Some(msg)
    ensures QueuesOk(p, CreateTask(w, msg, delay, at))
  {
    BirthId(p, msg.id);
    RunOk(p, w, msg.queue, if delay > 0 then ScheduleLink(msg, at + delay) else EnqueueLink(msg));
  }

  /** A message of a reporter carries the same group fields as its birth message. */
  lemma ReporterMessage(p: Plan, m: TaskMessage)
    requires ValidPlan(p) && MsgOk(p, m) && HasItsResult(p, m) && Reporter(p, m.id)
    ensures m.chain == [] && CanReport(m) && SpecOf(p, GroupKeyOf(m)).Some?
    ensures var s := SpecOf(p, GroupKeyOf(m)).value;
            && SpecSound(p, GroupKeyOf(m), s)
            && m.groupIndex < |s.outs| == m.groupSize
            && SlotOf(m) == Member(s.gid, m.groupIndex)
            && m.result == s.outs[m.groupIndex]
            && CallbackMessage(m, Collect(s.outs)) == s.callback
  {
    var b := Birth(p, m.id).value;
    BirthId(p, m.id);
    ReporterKnowsItsGroup(p, m.id);
    SpecIsSound(p, GroupKeyOf(b));
    assert GroupKeyOf(m) == GroupKeyOf(b);
  }

  /** A report touches its own group only. */
  lemma ReportFrame(g: Groups, key: Key, slot: Id, index: nat, size: nat, result: Bytes, cb: bool, k: Key)
    ensures var o := Report(g, key, slot, index, size, result, cb).groups;
            && (k in o.pending ==> k in g.pending)
            && (k in o.results ==> k in g.results || (k == key && key in g.pending))
            && (k != key && k in o.pending ==> o.pending[k] == g.pending[k] && ResultsOf(o, k) == ResultsOf(g, k))
  {
  }

  lemma ReportGroupsOk(p: Plan, w: World, m: TaskMessage, cb: bool)
    requires ValidPlan(p) && GroupsOk(p, w) && MsgOk(p, m) && HasItsResult(p, m) && Reporter(p, m.id)
    ensures CanReport(m)
    ensures var o := Report(w.groups, GroupKeyOf(m), SlotOf(m), m.groupIndex, m.groupSize, m.result, cb);
            && GroupsOk(p, w.(groups := o.groups))
            && (o.fires ==> Birth(p, Callback(m.groupId.value)) == Some(CallbackMessage(m, o.collected)))
  {
    ReporterMessage(p, m);
    ReportGroups(p, w, GroupKeyOf(m), SpecOf(p, GroupKeyOf(m)).value, m.groupIndex, cb);
  }

  lemma ReportGroups(p: Plan, w: World, key: Key, s: Spec, index: nat, cb: bool)
    requires GroupsOk(p, w) && SpecOf(p, key) == Some(s) && index < |s.outs|
    ensures var o := Report(w.groups, key, Member(s.gid, index), index, |s.outs|, s.outs[index], cb);
            && GroupsOk(p, w.(groups := o.groups))
            && (o.fires ==> o.collected == Collect(s.outs))
  {
    var slot, r := Member(s.gid, index), s.outs[index];
    if key in w.groups.pending { ReportKeepsGroup(s, w.groups, key, slot, index, r, cb); }
    var o := Report(w.groups, key, slot, index, |s.outs|, r, cb).groups;
    forall k | k in o.pending ensures PendingOk(p, o, k) && (k.1.Root? ==> k.1 in w.launched) {
      ReportFrame(w.groups, key, slot, index, |s.outs|, r, cb, k);
      assert PendingOk(p, w.groups, k);
    }
    forall k | k in o.results && k.1.Root? ensures k.1 in w.launched {
      ReportFrame(w.groups, key, slot, index, |s.outs|, r, cb, k);
    }
  }

  lemma ReportMemberOk(p: Plan, w: World, m: TaskMessage, at: int)
    requires ValidPlan(p) && QueuesOk(p, w) && GroupsOk(p, w) && MsgOk(p, m) && HasItsResult(p, m) && Reporter(p, m.id)
    ensures CanReport(m)
    ensures QueuesOk(p, ReportMember(w, m, at)) && GroupsOk(p, ReportMember(w, m, at))
  {
    ReporterMessage(p, m);
    var cb := Exists(w, m.groupCallback.value.queue, Callback(m.groupId.value));
    ReportGroupsOk(p, w, m, cb);
    var o := Report(w.groups, GroupKeyOf(m), SlotOf(m), m.groupIndex, m.groupSize, m.result, cb);
    var v := w.(groups := o.groups);
    if o.fires { CreateTaskOk(p, v, CallbackMessage(m, o.collected), m.groupCallback.value.delay, at); }
  }

  // ----- steps of a succeeded task -----

  lemma StageSpec(p: Plan, m: TaskMessage)
    requires ValidPlan(p) && StagingOk(p, m)
    ensures HasNext(m) && SpecOf(p, StageKey(m)).Some?
    ensures SpecOf(p, StageKey(m)).value.gid == StageId(m)
    ensures |SpecOf(p, StageKey(m)).value.outs| == |m.chain[0].group|
  {
    LinkSuccessor(p, m);
    match m.id {
      case Indexed(Root(u), k) => RootOfDerived(u, k, 0); RootOfDerived(u, k + 1, 0);
      case Callback(Indexed(Root(u), k)) => RootOfDerived(u, k, 0); RootOfDerived(u, k + 1, 0);
      case Indexed(Member(Root(u), j), i) => MemberSuccessor(p, m, u, j, i);
      case _ =>
    }
  }

  /** A fresh SET of all slots, with no results yet, is in order. */
  lemma FreshGroup(s: Spec, slots: set<Id>)
    requires slots == set j | 0 <= j < |s.outs| :: Member(s.gid, j)
    ensures GroupOk(s, slots, map[])
  {
    forall x | x in slots ensures exists j :: 0 <= j < |s.outs| && x == Member(s.gid, j) {}
  }

  lemma SamePending(p: Plan, g: Groups, h: Groups, k: Key)
    requires k in g.pending && k in h.pending && PendingOk(p, g, k)
    requires g.pending[k] == h.pending[k] && ResultsOf(g, k) == ResultsOf(h, k)
    ensures PendingOk(p, h, k)
  {
  }

  /** What the stage script leaves of any group. */
  lemma StageFrame(g: Groups, key: Key, slots: set<Id>, cb: bool, k: Key)
    ensures var h := CreateIfAbsent(g, key, slots, cb);
            && (k in g.pending ==> k in h.pending && h.pending[k] == g.pending[k] && ResultsOf(h, k) == ResultsOf(g, k))
            && (k in h.pending && k !in g.pending ==> k == key && h.pending[k] == slots && ResultsOf(h, k) == map[])
            && (k in h.results ==> k in g.results)
  {
  }

  lemma StageGroups(p: Plan, w: World, key: Key, s: Spec, slots: set<Id>, cb: bool)
    requires GroupsOk(p, w) && SpecOf(p, key) == Some(s) && GroupOk(s, slots, map[]) && !key.1.Root?
    ensures GroupsOk(p, w.(groups := CreateIfAbsent(w.groups, key, slots, cb)))
  {
    var g := CreateIfAbsent(w.groups, key, slots, cb);
    forall k | k in g.pending ensures PendingOk(p, g, k) && (k.1.Root? ==> k.1 in w.launched) {
      StageFrame(w.groups, key, slots, cb, k);
      if k in w.groups.pending { SamePending(p, w.groups, g, k); }
    }
    forall k | k in g.results && k.1.Root? ensures k.1 in w.launched { StageFrame(w.groups, key, slots, cb, k); }
  }

  lemma CreateStageOk(p: Plan, w: World, m: TaskMessage, cb: bool)
    requires ValidPlan(p) && GroupsOk(p, w) && StagingOk(p, m)
    ensures HasNext(m)
    ensures GroupsOk(p, w.(groups := CreateIfAbsent(w.groups, StageKey(m), StageSlots(m), cb)))
  {
    StageSpec(p, m);
    var s := SpecOf(p, StageKey(m)).value;
    FreshGroup(s, StageSlots(m));
    StageGroups(p, w, StageKey(m), s, StageSlots(m), cb);
  }

  /** A grouped task with a successor is a mid-link of a member chain, never retained. */
  lemma MidLinkNotRetained(p: Plan, id: Id)
    requires ValidPlan(p) && NoRetainedMidLinks(p) && Birth(p, id).Some?
    requires Birth(p, id).value.groupId.Some? && Birth(p, id).value.chain != []
    ensures Birth(p, id).value.retention <= 0
  {
    match id {
      case Indexed(Member(Root(u), j), i) =>
        RootOfDerived(u, i, j);
        assert NoRetainedMidLink(p.flows[u].members[j]);
      case _ =>
    }
  }

  lemma HandOffOk(p: Plan, m: TaskMessage)
    requires ValidPlan(p) && NoRetainedMidLinks(p) && MsgOk(p, m) && HasItsResult(p, m) && m.chain != []
    ensures HandedOffOk(p, m.(chain := []))
  {
    BirthId(p, m.id);
    if Birth(p, m.id).value.groupId.Some? { MidLinkNotRetained(p, m.id); }
  }

  lemma SetPhaseInv(p: Plan, w: World, wid: nat, ph: Phase)
    requires Inv(p, w) && wid in w.workers && WorkerOk(p, w.workers[wid].(phase := ph))
    ensures Inv(p, SetPhase(w, wid, ph))
  {
  }

  lemma HandOffInv(p: Plan, w: World, wid: nat)
    requires ValidPlan(p) && NoRetainedMidLinks(p) && Inv(p, w) && wid in w.workers
    requires MsgOk(p, w.workers[wid].msg) && HasItsResult(p, w.workers[wid].msg) && w.workers[wid].msg.chain != []
    ensures Inv(p, HandOff(w, wid))
  {
    HandOffOk(p, w.workers[wid].msg);
  }

  lemma CreateTaskInv(p: Plan, w: World, msg: TaskMessage, delay: int, at: int)
    requires Inv(p, w) && Birth(p, msg.id) == Some(msg)
    ensures Inv(p, CreateTask(w, msg, delay, at)) && CreateTask(w, msg, delay, at).workers == w.workers
  {
    CreateTaskOk(p, w, msg, delay, at);
  }

  lemma ReportMemberInv(p: Plan, w: World, m: TaskMessage, at: int)
    requires ValidPlan(p) && Inv(p, w) && MsgOk(p, m) && HasItsResult(p, m) && Reporter(p, m.id)
    ensures CanReport(m)
    ensures Inv(p, ReportMember(w, m, at)) && ReportMember(w, m, at).workers == w.workers
  {
    ReportMemberOk(p, w, m, at);
    ReportMemberFrame(w, m, at);
    SameWorkers(p, w, ReportMember(w, m, at));
  }

  lemma SameWorkers(p: Plan, w: World, v: World)
    requires Inv(p, w) && QueuesOk(p, v) && GroupsOk(p, v) && v.workers == w.workers && v.log == w.log
    ensures Inv(p, v)
  {
  }

  lemma AdvanceReport(p: Plan, w: World, wid: nat, at: int)
    requires ValidPlan(p) && Inv(p, w) && wid in w.workers && CanAdvance(w, w.workers[wid])
    requires w.workers[wid].phase.Succeeded? && w.workers[wid].msg.chain == []
    ensures Inv(p, AdvanceWorker(w, wid, at))
  {
    var m := w.workers[wid].msg;
    assert WorkerOk(p, w.workers[wid]);
    ReportMemberInv(p, w, m, at);
    SetPhaseInv(p, ReportMember(w, m, at), wid, Phase.Reported);
    SettleInv(p, SetPhase(ReportMember(w, m, at), wid, Phase.Reported), m.id);
  }

  lemma AdvanceLink(p: Plan, w: World, wid: nat, at: int)
    requires ValidPlan(p) && NoRetainedMidLinks(p) && Inv(p, w) && wid in w.workers && CanAdvance(w, w.workers[wid])
    requires w.workers[wid].phase.Succeeded? && w.workers[wid].msg.chain != [] && w.workers[wid].msg.chain[0].group == []
    ensures Inv(p, AdvanceWorker(w, wid, at))
  {
    var m := w.workers[wid].msg;
    assert WorkerOk(p, w.workers[wid]);
    LinkSuccessor(p, m);
    CreateTaskInv(p, w, NextMessage(m), m.chain[0].delay, at);
    HandOffInv(p, CreateTask(w, NextMessage(m), m.chain[0].delay, at), wid);
  }

  lemma AdvanceStage(p: Plan, w: World, wid: nat, at: int)
    requires ValidPlan(p) && NoRetainedMidLinks(p) && Inv(p, w) && wid in w.workers && CanAdvance(w, w.workers[wid])
    requires w.workers[wid].phase.Succeeded? && w.workers[wid].msg.chain != [] && w.workers[wid].msg.chain[0].group != []
    ensures Inv(p, AdvanceWorker(w, wid, at))
  {
    var m := w.workers[wid].msg;
    assert WorkerOk(p, w.workers[wid]);
    var cb := Exists(w, m.chain[0].queue, Callback(StageId(m)));
    CreateStageOk(p, w, m, cb);
    var v := w.(groups := CreateIfAbsent(w.groups, StageKey(m), StageSlots(m), cb));
    assert Inv(p, v);
    HandOffInv(p, v, wid);
    SetPhaseInv(p, v, wid, Listing);
    SetPhaseInv(p, v, wid, Staging(0, None));
  }

  lemma AdvanceMember(p: Plan, w: World, wid: nat, at: int)
    requires ValidPlan(p) && NoRetainedMidLinks(p) && Inv(p, w) && wid in w.workers && CanAdvance(w, w.workers[wid])
    requires w.workers[wid].phase.Staging?
    ensures Inv(p, AdvanceWorker(w, wid, at))
  {
    var m, j, listed := w.workers[wid].msg, w.workers[wid].phase.j, w.workers[wid].phase.listed;
    assert WorkerOk(p, w.workers[wid]);
    if j == |m.chain[0].group| {
      HandOffInv(p, w, wid);
    } else if listed.Some? && Member(StageId(m), j) !in listed.value {
      SetPhaseInv(p, w, wid, Staging(j + 1, listed));
    } else {
      StageOneMember(p, w, wid, at, if Exists(w, MemberMessage(m, j).queue, MemberMessage(m, j).id)
                                    then Draining(j, listed) else Staging(j + 1, listed));
    }
  }

  lemma StageOneMember(p: Plan, w: World, wid: nat, at: int, ph: Phase)
    requires ValidPlan(p) && Inv(p, w) && wid in w.workers && StagingOk(p, w.workers[wid].msg) && HasNext(w.workers[wid].msg)
    requires w.workers[wid].phase.Staging? && w.workers[wid].phase.j < |w.workers[wid].msg.chain[0].group|
    requires ph.Staging? || ph.Draining?
    ensures var m, j := w.workers[wid].msg, w.workers[wid].phase.j;
            var v := CreateTask(w, MemberMessage(m, j), m.chain[0].group[j].delay, at);
            wid in v.workers && Inv(p, SetPhase(v, wid, ph))
  {
    var m, j := w.workers[wid].msg, w.workers[wid].phase.j;
    LinkSuccessor(p, m);
    CreateTaskInv(p, w, MemberMessage(m, j), m.chain[0].group[j].delay, at);
    SetPhaseInv(p, CreateTask(w, MemberMessage(m, j), m.chain[0].group[j].delay, at), wid, ph);
  }

  lemma AdvanceDrainReading(p: Plan, w: World, wid: nat, at: int)
    requires ValidPlan(p) && Inv(p, w) && ReadsResult(p, w, Advance(wid, at))
    requires wid in w.workers && CanAdvance(w, w.workers[wid]) && w.workers[wid].phase.DrainReading?
    ensures Inv(p, AdvanceWorker(w, wid, at))
  {
    var m, j := w.workers[wid].msg, w.workers[wid].phase.j;
    assert WorkerOk(p, w.workers[wid]);
    LinkSuccessor(p, m);
    var member := MemberMessage(m, j);
    var h := QueueOf(w, member.queue).hash;
    assert Birth(p, Member(StageId(m), j)) == Some(member);
    if member.id in h { assert BodyOk(p, member.queue, member.id, h[member.id]); }
  }

  lemma AdvanceOk(p: Plan, w: World, wid: nat, at: int)
    requires ValidPlan(p) && NoRetainedMidLinks(p) && Inv(p, w) && wid in w.workers && CanAdvance(w, w.workers[wid])
    requires ReadsResult(p, w, Advance(wid, at))
    ensures Inv(p, AdvanceWorker(w, wid, at))
  {
    var x := w.workers[wid];
    assert WorkerOk(p, x);
    match x.phase {
      case Succeeded =>
        if x.msg.chain == [] { AdvanceReport(p, w, wid, at); }
        else if x.msg.chain[0].group == [] { AdvanceLink(p, w, wid, at); }
        else { AdvanceStage(p, w, wid, at); }
      case Staging(_, _) => AdvanceMember(p, w, wid, at);
      case DrainReading(_, _) => AdvanceDrainReading(p, w, wid, at);
      case DrainReporting(j, listed, stored) =>
        ReportMemberInv(p, w, stored, at);
        SetPhaseInv(p, ReportMember(w, stored, at), wid, Staging(j + 1, listed));
      case Listing =>
      case Draining(_, _) =>
    }
  }

  // ----- every other step -----

  lemma RunInv(p: Plan, w: World, name: string, op: Op)
    requires Inv(p, w) && (Written(op).Some? ==> BodyOk(p, name, op.msg.id, Written(op).value))
    ensures Inv(p, Run(w, name, op))
  {
    RunOk(p, w, name, op);
    SameWorkers(p, w, Run(w, name, op));
  }

  lemma RemoveInv(p: Plan, w: World, wid: nat)
    requires Inv(p, w)
    ensures Inv(p, Remove(w, wid))
  {
  }

  lemma SettleInv(p: Plan, w: World, id: Id)
    requires Inv(p, w)
    ensures Inv(p, Settle(w, id))
  {
  }

  lemma MoveTaskOk(p: Plan, w: World, wid: nat, m: TaskMessage, z: ZSet, at: int)
    requires QueuesOk(p, w) && wid in w.workers && MsgOk(p, m) && (z == ZCompleted ==> HasItsResult(p, m))
    ensures QueuesOk(p, MoveTask(w, wid, m, z, at))
  {
    BirthId(p, m.id);
    RunOk(p, w, m.queue, Move(w.workers[wid].entry, m, z, at));
  }

  lemma DropTaskOk(p: Plan, w: World, wid: nat)
    requires QueuesOk(p, w) && wid in w.workers
    ensures QueuesOk(p, DropTask(w, wid))
  {
    var x := w.workers[wid];
    RunOk(p, w, x.msg.queue, Finish(x.entry, x.msg.id));
  }

  lemma FinishOk(p: Plan, w: World, wid: nat, at: int)
    requires QueuesOk(p, w) && wid in w.workers && WorkerOk(p, w.workers[wid]) && CanFinish(w.workers[wid])
    ensures QueuesOk(p, FinishWorker(w, wid, at))
  {
    var m := w.workers[wid].msg;
    if m.retention > 0 { MoveTaskOk(p, w, wid, m, ZCompleted, at + m.retention); } else { DropTaskOk(p, w, wid); }
  }

  lemma MoreRetries(p: Plan, m: TaskMessage)
    requires MsgOk(p, m)
    ensures MsgOk(p, m.(retried := m.retried + 1))
  {
  }

  lemma PutAwayOk(p: Plan, w: World, wid: nat, z: ZSet, at: int)
    requires QueuesOk(p, w) && wid in w.workers && MsgOk(p, w.workers[wid].msg) && z != ZCompleted
    ensures var m := w.workers[wid].msg;
            QueuesOk(p, MoveTask(w, wid, m, z, at)) && QueuesOk(p, MoveTask(w, wid, m.(retried := m.retried + 1), z, at))
  {
    var m := w.workers[wid].msg;
    MoreRetries(p, m);
    MoveTaskOk(p, w, wid, m, z, at);
    MoveTaskOk(p, w, wid, m.(retried := m.retried + 1), z, at);
  }

  lemma RetireOk(p: Plan, w: World, wid: nat, at: int)
    requires QueuesOk(p, w) && wid in w.workers && MsgOk(p, w.workers[wid].msg) && w.workers[wid].phase.Failed?
    ensures QueuesOk(p, RetireWorker(w, wid, at))
  {
    RetireIs(w, wid, at);
    PutAwayOk(p, w, wid, ZRetry, at);
    PutAwayOk(p, w, wid, ZArchived, at);
    DropTaskOk(p, w, wid);
  }

  lemma ReclaimOk(p: Plan, w: World, wid: nat, at: int)
    requires QueuesOk(p, w) && wid in w.workers && MsgOk(p, w.workers[wid].msg)
    ensures QueuesOk(p, ReclaimWorker(w, wid, at))
  {
    PutAwayOk(p, w, wid, ZRetry, at);
    PutAwayOk(p, w, wid, ZArchived, at);
  }

  /** A worker that is done changes its queue and leaves. */
  lemma LeavingInv(p: Plan, w: World, wid: nat, v: World)
    requires Inv(p, w) && QueuesOk(p, v)
    requires v.groups == w.groups && v.launched == w.launched && v.log == w.log && v.workers == w.workers - {wid}
    ensures Inv(p, v)
  {
  }

  lemma DoneInv(p: Plan, w: World, wid: nat, at: int)
    requires Inv(p, w) && wid in w.workers && CanFinish(w.workers[wid])
    ensures Inv(p, FinishWorker(w, wid, at))
  {
    assert WorkerOk(p, w.workers[wid]);
    FinishOk(p, w, wid, at);
    LeavingInv(p, w, wid, FinishWorker(w, wid, at));
  }

  lemma RetireInv(p: Plan, w: World, wid: nat, at: int)
    requires Inv(p, w) && wid in w.workers && w.workers[wid].phase.Failed?
    ensures Inv(p, RetireWorker(w, wid, at))
  {
    assert WorkerOk(p, w.workers[wid]);
    RetireOk(p, w, wid, at);
    LeavingInv(p, w, wid, RetireWorker(w, wid, at));
  }

  lemma ReclaimInv(p: Plan, w: World, wid: nat, at: int)
    requires Inv(p, w) && wid in w.workers && w.workers[wid].phase == Running
    ensures Inv(p, ReclaimWorker(w, wid, at))
  {
    assert WorkerOk(p, w.workers[wid]);
    ReclaimOk(p, w, wid, at);
    LeavingInv(p, w, wid, ReclaimWorker(w, wid, at));
  }

  lemma LaunchInv(p: Plan, w: World, op: Op)
    requires Inv(p, w) && (op.Enqueue? || op.Schedule?) && Birth(p, op.msg.id) == Some(op.msg)
    ensures Inv(p, Run(w, op.msg.queue, op).(launched := w.launched + {op.msg.id}))
  {
    BirthId(p, op.msg.id);
    RunInv(p, w, op.msg.queue, op);
  }

  lemma LaunchGroups(p: Plan, w: World, key: Key, s: Spec, slots: set<Id>)
    requires GroupsOk(p, w) && SpecOf(p, key) == Some(s) && GroupOk(s, slots, map[]) && key.1.Root? && key.1 !in w.launched
    ensures GroupsOk(p, w.(groups := Create(w.groups, key, slots), launched := w.launched + {key.1}))
  {
    assert key !in w.groups.pending && key !in w.groups.results;
    var g := Create(w.groups, key, slots);
    forall k | k in g.pending ensures PendingOk(p, g, k) {
      if k in w.groups.pending { assert PendingOk(p, w.groups, k); }
    }
  }

  lemma LaunchGroupInv(p: Plan, w: World, u: string)
    requires Inv(p, w) && u in p.flows && p.flows[u].GroupFlow? && Root(u) !in w.launched
    ensures var v := w.(groups := Create(w.groups, FlowKey(u, p.flows[u]), FlowSlots(u, p.flows[u])),
                        launched := w.launched + {Root(u)});
            Inv(p, v)
  {
    var key := FlowKey(u, p.flows[u]);
    RootOfDerived(u, 0, 0);
    var s := SpecOf(p, key).value;
    FreshGroup(s, FlowSlots(u, p.flows[u]));
    LaunchGroups(p, w, key, s, FlowSlots(u, p.flows[u]));
  }

  lemma PassInv(p: Plan, w: World, t: int)
    requires Inv(p, w) && InTime(w, TimePasses(t))
    ensures Inv(p, w.(groups := Pass(w.groups, t)))
  {
    var g := Pass(w.groups, t);
    forall k | k in g.pending ensures PendingOk(p, g, k) {
      assert PendingOk(p, w.groups, k);
      assert ResultsOf(g, k) == ResultsOf(w.groups, k);
    }
  }

  lemma FetchInv(p: Plan, w: World, e: Event)
    requires Inv(p, w) && e.Fetch? && Enabled(p, w, e)
    ensures Inv(p, Step(p, w, e))
  {
    assert BodyOk(p, e.queue, e.id, QueueOf(w, e.queue).hash[e.id]);
  }

  lemma SameInput(p: Plan, m: TaskMessage)
    requires MsgOk(p, m)
    ensures InputOf(m) == InputOf(Birth(p, m.id).value)
  {
    BirthId(p, m.id);
  }

  lemma HandlerErrInv(p: Plan, w: World, wid: nat, skip: bool)
    requires Inv(p, w) && Enabled(p, w, HandlerErr(wid, skip))
    ensures Inv(p, Step(p, w, HandlerErr(wid, skip)))
  {
    assert WorkerOk(p, w.workers[wid]);
    SameInput(p, w.workers[wid].msg);
    SetPhaseInv(p, w, wid, Failed(skip));
  }

  lemma ResultOk(p: Plan, m: TaskMessage)
    requires MsgOk(p, m)
    ensures MsgOk(p, WithResult(m, p.h(InputOf(m)))) && HasItsResult(p, WithResult(m, p.h(InputOf(m))))
  {
    SameInput(p, m);
  }

  lemma HandlerOkInv(p: Plan, w: World, wid: nat)
    requires Inv(p, w) && Enabled(p, w, HandlerOk(wid))
    ensures Inv(p, Step(p, w, HandlerOk(wid)))
  {
    assert WorkerOk(p, w.workers[wid]);
    SameInput(p, w.workers[wid].msg);
    ResultOk(p, w.workers[wid].msg);
  }

  lemma StepInv(p: Plan, w: World, e: Event)
    requires ValidPlan(p) && NoRetainedMidLinks(p) && Inv(p, w) && Enabled(p, w, e) && ReadsResult(p, w, e) && InTime(w, e)
    ensures Inv(p, Step(p, w, e))
  {
    match e {
      case LaunchChain(u, op) =>
        BirthId(p, ChainStart(u));
        LaunchInv(p, w, op);
      case LaunchGroup(u) => LaunchGroupInv(p, w, u);
      case LaunchMember(u, j, op) =>
        BirthId(p, MemberStart(p.flows[u], u, j));
        LaunchInv(p, w, op);
      case Env(queue, op) => RunInv(p, w, queue, op);
      case TimePasses(t) => PassInv(p, w, t);
      case Fetch(_, _, _, _) => FetchInv(p, w, e);
      case HandlerOk(wid) => HandlerOkInv(p, w, wid);
      case HandlerErr(wid, skip) => HandlerErrInv(p, w, wid, skip);
      case Advance(wid, at) => AdvanceOk(p, w, wid, at);
      case Again(wid) => assert WorkerOk(p, w.workers[wid]);
      case Done(wid, at) => DoneInv(p, w, wid, at);
      case Retire(wid, at) => RetireInv(p, w, wid, at);
      case Reclaim(wid, at) => ReclaimInv(p, w, wid, at);
      case Vanish(wid) => RemoveInv(p, w, wid);
    }
  }

  ghost predicate SoundRun(p: Plan, ws: seq<World>, es: seq<Event>) {
    IsRun(p, ws, es) && forall k :: 0 <= k < |es| ==> ReadsResult(p, ws[k], es[k]) && InTime(ws[k], es[k])
  }

  lemma {:induction false} AlwaysInv(p: Plan, ws: seq<World>, es: seq<Event>, k: nat)
    requires ValidPlan(p) && NoRetainedMidLinks(p) && SoundRun(p, ws, es) && k < |ws|
    ensures Inv(p, ws[k])
  {
    if k > 0 {
      AlwaysInv(p, ws, es, k - 1);
      StepInv(p, ws[k - 1], es[k - 1]);
    }
  }

  /** In every run where drains read results and no HASH expires before its SET, every handler
      call is a call of the direct evaluation of its workflow, however many workers hold the
      same task. */
  lemma MeaningWhileSound(p: Plan, ws: seq<World>, es: seq<Event>, k: nat, call: Input)
    requires ValidPlan(p) && NoRetainedMidLinks(p) && SoundRun(p, ws, es) && k < |ws| && call in ws[k].log
    ensures RootOf(call.id) in p.flows && CalledBy(p.h, RootOf(call.id), p.flows[RootOf(call.id)], call)
  {
    AlwaysInv(p, ws, es, k);
    BirthCalled(p, call.id);
  }
}
