/** When result HASHes outlive their SETs: in every run in which no re-attempt of a stage
    refreshes the SET of a group that has results. */
module Deadlines {
  import opened Ids
  import opened Base
  import opened Store
  import opened GroupState
  import opened Flow
  import opened World
  import opened Shape
  import opened Meaning
  import opened Leases

  /** A worker that opens a stage does not find its SET in flight with results recorded. */
  ghost predicate NoLateRefresh(w: World, e: Event) {
    e.Advance? && e.wid in w.workers && w.workers[e.wid].phase.Succeeded? && HasNext(w.workers[e.wid].msg) ==>
      var m := w.workers[e.wid].msg;
      m.chain[0].group != [] && !Exists(w, m.chain[0].queue, Callback(StageId(m))) ==>
        !(StageKey(m) in w.groups.pending && StageKey(m) in w.groups.results)
  }

  ghost predicate HashOutlives(g: Groups, key: Key) {
    key in g.pending && key in g.results ==>
      key in g.setUntil && key in g.hashUntil && g.setUntil[key] <= g.hashUntil[key]
  }

  ghost predicate DInv(w: World) {
    && (forall key :: HashOutlives(w.groups, key))
    && (forall key {:trigger key in w.groups.results} :: key in w.groups.results && key.1.Root? ==> key.1 in w.launched)
    && (forall key {:trigger key in w.groups.results} :: key in w.groups.results ==> w.groups.results[key] != map[])
  }

  lemma ReportOrdered(w: World, key: Key, slot: Id, index: nat, size: nat, result: Bytes, cb: bool)
    requires DInv(w) && RootsLaunched(w.groups.pending, w.launched)
    ensures DInv(w.(groups := Report(w.groups, key, slot, index, size, result, cb).groups))
  {
    var g := Report(w.groups, key, slot, index, size, result, cb).groups;
    forall k ensures HashOutlives(g, k) { assert HashOutlives(w.groups, k); }
  }

  lemma ReportMemberOrdered(w: World, m: TaskMessage, at: int, v: World)
    requires DInv(w) && RootsLaunched(w.groups.pending, w.launched) && CanReport(m)
    requires v.groups == ReportMember(w, m, at).groups && v.launched == w.launched
    ensures DInv(v)
  {
    var cb := Exists(w, m.groupCallback.value.queue, Callback(m.groupId.value));
    ReportOrdered(w, GroupKeyOf(m), SlotOf(m), m.groupIndex, m.groupSize, m.result, cb);
  }

  lemma OpenOrdered(w: World, key: Key, slots: set<Id>, cb: bool, v: World)
    requires DInv(w) && v.groups == CreateIfAbsent(w.groups, key, slots, cb) && v.launched == w.launched
    requires !cb ==> !(key in w.groups.pending && key in w.groups.results)
    ensures DInv(v)
  {
    forall k ensures HashOutlives(v.groups, k) { assert HashOutlives(w.groups, k); }
  }

  lemma LaunchOrdered(w: World, key: Key, slots: set<Id>, v: World)
    requires DInv(w) && key.1.Root? && key.1 !in w.launched
    requires v.groups == Create(w.groups, key, slots) && v.launched == w.launched + {key.1}
    ensures DInv(v)
  {
    assert key !in w.groups.results;
    forall k ensures HashOutlives(v.groups, k) { assert HashOutlives(w.groups, k); }
  }

  lemma PassOrdered(w: World, t: int, v: World)
    requires DInv(w) && v.groups == Pass(w.groups, t) && v.launched == w.launched
    ensures DInv(v)
  {
    forall k ensures HashOutlives(v.groups, k) { assert HashOutlives(w.groups, k); }
  }

  lemma SameOrdered(w: World, v: World)
    requires DInv(w) && v.groups == w.groups && w.launched <= v.launched
    ensures DInv(v)
  {
    forall k ensures HashOutlives(v.groups, k) { assert HashOutlives(w.groups, k); }
  }

  lemma CreateTaskGroups(w: World, msg: TaskMessage, delay: int, at: int)
    ensures CreateTask(w, msg, delay, at).groups == w.groups && CreateTask(w, msg, delay, at).launched == w.launched
  {
  }

  lemma ReportLaunched(w: World, m: TaskMessage, at: int)
    requires CanReport(m)
    ensures ReportMember(w, m, at).launched == w.launched
  {
  }

  lemma SucceededOrdered(w: World, wid: nat, at: int, v: World)
    requires DInv(w) && RootsLaunched(w.groups.pending, w.launched) && wid in w.workers && CanAdvance(w, w.workers[wid])
    requires w.workers[wid].phase.Succeeded? && NoLateRefresh(w, Advance(wid, at)) && v == AdvanceWorker(w, wid, at)
    ensures DInv(v)
  {
    var m := w.workers[wid].msg;
    if m.chain == [] {
      ReportLaunched(w, m, at);
      ReportMemberOrdered(w, m, at, v);
    } else if m.chain[0].group == [] {
      CreateTaskGroups(w, NextMessage(m), m.chain[0].delay, at);
      SameOrdered(w, v);
    } else {
      StageIs(w, wid, at);
      OpenOrdered(w, StageKey(m), StageSlots(m), Exists(w, m.chain[0].queue, Callback(StageId(m))), v);
    }
  }

  lemma AdvanceOrdered(w: World, wid: nat, at: int, v: World)
    requires DInv(w) && RootsLaunched(w.groups.pending, w.launched) && wid in w.workers && CanAdvance(w, w.workers[wid])
    requires NoLateRefresh(w, Advance(wid, at)) && v == AdvanceWorker(w, wid, at)
    ensures DInv(v)
  {
    var m := w.workers[wid].msg;
    match w.workers[wid].phase {
      case Succeeded => SucceededOrdered(w, wid, at, v);
      case Staging(j, _) =>
        if j < |m.chain[0].group| { CreateTaskGroups(w, MemberMessage(m, j), m.chain[0].group[j].delay, at); }
        SameOrdered(w, v);
      case DrainReporting(_, _, stored) =>
        DrainReportIs(w, wid, at);
        ReportLaunched(w, stored, at);
        ReportMemberOrdered(w, stored, at, v);
      case _ => SameOrdered(w, v);
    }
  }

  lemma StepOrdered(p: Plan, w: World, e: Event)
    requires DInv(w) && RootsLaunched(w.groups.pending, w.launched) && Enabled(p, w, e) && NoLateRefresh(w, e)
    ensures DInv(Step(p, w, e))
  {
    match e {
      case LaunchGroup(u) => LaunchOrdered(w, FlowKey(u, p.flows[u]), FlowSlots(u, p.flows[u]), Step(p, w, e));
      case TimePasses(t) => PassOrdered(w, t, Step(p, w, e));
      case Advance(wid, at) => AdvanceOrdered(w, wid, at, Step(p, w, e));
      case _ => SameOrdered(w, Step(p, w, e));
    }
  }

  ghost predicate NoLateRefreshes(ws: seq<World>, es: seq<Event>) {
    |ws| == |es| + 1 && forall k :: 0 <= k < |es| ==> NoLateRefresh(ws[k], es[k])
  }

  lemma {:induction false} AlwaysOrdered(p: Plan, ws: seq<World>, es: seq<Event>, k: nat)
    requires ValidPlan(p) && IsRun(p, ws, es) && NoLateRefreshes(ws, es) && k < |ws|
    ensures DInv(ws[k])
  {
    if k > 0 {
      AlwaysOrdered(p, ws, es, k - 1);
      AlwaysShaped(p, ws, es, k - 1);
      StepOrdered(p, ws[k - 1], es[k - 1]);
    }
  }

  /** Without late refreshes no result HASH expires before its SET. */
  lemma OutlivesInTime(p: Plan, ws: seq<World>, es: seq<Event>, k: nat)
    requires ValidPlan(p) && IsRun(p, ws, es) && NoLateRefreshes(ws, es) && k < |es|
    ensures InTime(ws[k], es[k])
  {
    AlwaysOrdered(p, ws, es, k);
    var w, e := ws[k], es[k];
    if e.TimePasses? {
      forall key | key in w.groups.pending && key in w.groups.results && Alive(w.groups.setUntil, key, e.t)
        ensures Alive(w.groups.hashUntil, key, e.t)
      {
        assert HashOutlives(w.groups, key);
      }
    }
  }

  /** Meaning preserved, on what a deployment controls: leases hold, no mid-link of a member chain
      is retained, and no stage with results is re-attempted. */
  lemma MeaningPreservedWithoutLateRefresh(p: Plan, ws: seq<World>, es: seq<Event>, k: nat, call: Input)
    requires ValidPlan(p) && NoRetainedMidLinks(p) && IsRun(p, ws, es) && NoLateRefreshes(ws, es)
    requires forall i :: 0 <= i < |es| ==> Leased(ws[i], es[i])
    requires k < |ws| && call in ws[k].log
    ensures RootOf(call.id) in p.flows && CalledBy(p.h, RootOf(call.id), p.flows[RootOf(call.id)], call)
  {
    forall i | 0 <= i < |es| ensures InTime(ws[i], es[i]) { OutlivesInTime(p, ws, es, i); }
    MeaningPreserved(p, ws, es, k, call);
  }
}
