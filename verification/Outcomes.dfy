/** Where the tasks of a workflow go, in terms of what a reader of the store sees: after a success,
    a failure or a lapsed lease, and when a server creates them. */
module Outcomes {
  import opened Ids
  import opened Base
  import opened Store
  import opened GroupState
  import opened Flow
  import opened World
  import opened Shape

  // ----- the end of a delivery -----

  /** The delivery of the task is over: its entry is acknowledged, the store holds `body` for it,
      it has score `place.1` in the ZSET `place.0`, and nothing else has changed. */
  ghost predicate EndsIn(w: World, v: World, queue: string, entry: nat, id: Id, body: Option<Body>, place: Option<(ZSet, int)>) {
    && v.groups == w.groups && (forall n :: n != queue ==> QueueOf(v, n) == QueueOf(w, n))
    && EntryGone(w, v, queue, entry)
    && (forall i :: BodyOf(v, queue, i) == if i == id then body else BodyOf(w, queue, i))
    && (forall z, i :: ScoreOf(v, queue, z, i) ==
          if place.Some? && z == place.value.0 && i == id then Some(place.value.1) else ScoreOf(w, queue, z, i))
  }

  /** After a failure: an error that is not to be retried and an exhausted budget end in the archive,
      with the message as it is, or nowhere if failures are to be discarded; any other error costs
      one attempt and waits for the retry. */
  ghost predicate EndsAsFailure(w: World, v: World, entry: nat, m: TaskMessage, skip: bool, at: int) {
    if skip || m.retried >= m.maxRetry then
      if m.noArchive then EndsIn(w, v, m.queue, entry, m.id, None, None)
      else EndsIn(w, v, m.queue, entry, m.id, Some(Body(Some(m), Archived)), Some((ZArchived, at)))
    else
      EndsIn(w, v, m.queue, entry, m.id, Some(Body(Some(m.(retried := m.retried + 1)), Retry)), Some((ZRetry, at)))
  }

  /** After a success: kept for its retention, or gone. */
  ghost predicate EndsAsSuccess(w: World, v: World, entry: nat, m: TaskMessage, at: int) {
    if m.retention > 0 then EndsIn(w, v, m.queue, entry, m.id, Some(Body(Some(m), Completed)), Some((ZCompleted, at + m.retention)))
    else EndsIn(w, v, m.queue, entry, m.id, None, None)
  }

  /** After a lapsed lease: one attempt is used up, and an exhausted budget ends in the archive even
      if failures are to be discarded. */
  ghost predicate EndsAsLapse(w: World, v: World, entry: nat, m: TaskMessage, at: int) {
    if m.retried >= m.maxRetry then EndsIn(w, v, m.queue, entry, m.id, Some(Body(Some(m), Archived)), Some((ZArchived, at)))
    else EndsIn(w, v, m.queue, entry, m.id, Some(Body(Some(m.(retried := m.retried + 1)), Retry)), Some((ZRetry, at)))
  }

  lemma MoveEnds(w: World, entry: nat, m: TaskMessage, z: ZSet, score: int, v: World)
    requires v.queues == Run(w, m.queue, Move(entry, m, z, score)).queues && v.groups == w.groups
    ensures EndsIn(w, v, m.queue, entry, m.id, Some(Body(Some(m), StateOf(z))), Some((z, score)))
  {
  }

  lemma FinishEnds(w: World, entry: nat, queue: string, id: Id, v: World)
    requires v.queues == Run(w, queue, Finish(entry, id)).queues && v.groups == w.groups
    ensures EndsIn(w, v, queue, entry, id, None, None)
  {
  }

  /** A handler's error, and what becomes of the task. */
  lemma FailureEnds(p: Plan, w: World, wid: nat, skip: bool, at: int, u: World, v: World)
    requires Enabled(p, w, HandlerErr(wid, skip)) && u == Step(p, w, HandlerErr(wid, skip))
    requires Enabled(p, u, Retire(wid, at)) ==> v == Step(p, u, Retire(wid, at))
    ensures Enabled(p, u, Retire(wid, at))
    ensures EndsAsFailure(w, v, w.workers[wid].entry, w.workers[wid].msg, skip, at)
  {
    var x := w.workers[wid];
    assert u.workers[wid] == x.(phase := Failed(skip)) && u.queues == w.queues && u.groups == w.groups;
    RetireEnds(u, wid, at, v);
    SameStart(w, u, v, x.entry, x.msg, skip, at);
  }

  lemma SameStart(w: World, u: World, v: World, entry: nat, m: TaskMessage, skip: bool, at: int)
    requires u.queues == w.queues && u.groups == w.groups && EndsAsFailure(u, v, entry, m, skip, at)
    ensures EndsAsFailure(w, v, entry, m, skip, at)
  {
    forall i ensures BodyOf(u, m.queue, i) == BodyOf(w, m.queue, i) {}
    forall e ensures EntryAt(u, m.queue, e) == EntryAt(w, m.queue, e) {}
    forall z, i ensures ScoreOf(u, m.queue, z, i) == ScoreOf(w, m.queue, z, i) {}
    forall n ensures QueueOf(u, n) == QueueOf(w, n) {}
  }

  lemma RetireEnds(w: World, wid: nat, at: int, v: World)
    requires wid in w.workers && w.workers[wid].phase.Failed? && v == RetireWorker(w, wid, at)
    ensures EndsAsFailure(w, v, w.workers[wid].entry, w.workers[wid].msg, w.workers[wid].phase.skip, at)
  {
    var x, m := w.workers[wid], w.workers[wid].msg;
    if !x.phase.skip && m.retried < m.maxRetry {
      MoveEnds(w, x.entry, m.(retried := m.retried + 1), ZRetry, at, v);
    } else if m.noArchive {
      FinishEnds(w, x.entry, m.queue, m.id, v);
    } else {
      MoveEnds(w, x.entry, m, ZArchived, at, v);
    }
  }

  lemma SuccessEnds(w: World, wid: nat, at: int, v: World)
    requires wid in w.workers && v == FinishWorker(w, wid, at)
    ensures EndsAsSuccess(w, v, w.workers[wid].entry, w.workers[wid].msg, at)
  {
    var x, m := w.workers[wid], w.workers[wid].msg;
    if m.retention > 0 {
      MoveEnds(w, x.entry, m, ZCompleted, at + m.retention, v);
    } else {
      FinishEnds(w, x.entry, m.queue, m.id, v);
    }
  }

  lemma LapseEnds(w: World, wid: nat, at: int, v: World)
    requires wid in w.workers && v == ReclaimWorker(w, wid, at)
    ensures EndsAsLapse(w, v, w.workers[wid].entry, w.workers[wid].msg, at)
  {
    var x, m := w.workers[wid], w.workers[wid].msg;
    if m.retried >= m.maxRetry {
      MoveEnds(w, x.entry, m, ZArchived, at, v);
    } else {
      MoveEnds(w, x.entry, m.(retried := m.retried + 1), ZRetry, at, v);
    }
  }

  // ----- the start of a task -----

  /** A new task: with a delay it waits for its time, on no stream; without one it is on the stream
      once. */
  ghost predicate StartsOnTime(w: World, v: World, queue: string, id: Id, delay: int, at: int) {
    && BodyOf(w, queue, id).None? && BodyOf(v, queue, id).Some?
    && if delay > 0 then
         BodyOf(v, queue, id).value.state == Scheduled && ScoreOf(v, queue, ZScheduled, id) == Some(at + delay) && SameEntries(w, v, queue)
       else
         BodyOf(v, queue, id).value.state == Pending && NewEntry(w, v, queue, id)
  }

  lemma CreateStarts(w: World, u: World, msg: TaskMessage, delay: int, at: int, v: World)
    requires !Exists(w, msg.queue, msg.id) && u.queues == w.queues && v.queues == CreateTask(u, msg, delay, at).queues
    ensures StartsOnTime(w, v, msg.queue, msg.id, delay, at) && BodyOf(v, msg.queue, msg.id).value.msg == Some(msg)
  {
  }

  /** The report of the last pending member starts the callback, after the callback's own delay. */
  lemma CallbackStarts(w: World, m: TaskMessage, at: int, v: World)
    requires CanReport(m) && GroupKeyOf(m) in w.groups.pending && w.groups.pending[GroupKeyOf(m)] <= {SlotOf(m)}
    requires !Exists(w, m.groupQueue, Callback(m.groupId.value)) && v.queues == ReportMember(w, m, at).queues
    ensures StartsOnTime(w, v, m.groupQueue, Callback(m.groupId.value), m.groupCallback.value.delay, at)
  {
    var o := Report(w.groups, GroupKeyOf(m), SlotOf(m), m.groupIndex, m.groupSize, m.result, false);
    assert w.groups.pending[GroupKeyOf(m)] - {SlotOf(m)} == {};
    CreateStarts(w, w.(groups := o.groups), CallbackMessage(m, o.collected), m.groupCallback.value.delay, at, v);
  }

  /** The delay with which the plan has a task start, once its predecessors are done. */
  function DelayOf(p: Plan, id: Id): Option<int> {
    var u := RootOf(id);
    if u !in p.flows then None
    else
      match (p.flows[u], id)
      case (ChainFlow(stages), Indexed(Root(_), k)) => if k < |stages| then Some(stages[k].delay) else None
      case (ChainFlow(stages), Callback(Indexed(Root(_), k))) => if k < |stages| then Some(stages[k].delay) else None
      case (ChainFlow(stages), Member(Indexed(Root(_), k), j)) =>
        if k < |stages| && j < |stages[k].group| then Some(stages[k].group[j].delay) else None
      case (GroupFlow(members, callback), Callback(Root(_))) => Some(callback.delay)
      case (GroupFlow(members, callback), Indexed(Member(Root(_), j), i)) =>
        if j < |members| && members[j].Seq? && i < |members[j].links| then Some(members[j].links[i].delay) else None
      case _ => None
  }

  lemma NextDelay(p: Plan, m: TaskMessage)
    requires ValidPlan(p) && Shaped(p, m) && m.chain != []
    ensures HasNext(m)
    ensures m.chain[0].group == [] ==> DelayOf(p, StageId(m)) == Some(m.chain[0].delay)
    ensures forall j :: 0 <= j < |m.chain[0].group| ==> DelayOf(p, Member(StageId(m), j)) == Some(m.chain[0].group[j].delay)
  {
    NextNewborn(p, m);
    match m.id {
      case Indexed(Root(u), k) => ChainDelay(p, m, u, k);
      case Callback(Indexed(Root(u), k)) => ChainDelay(p, m, u, k);
      case Indexed(Member(Root(u), j), i) =>
        RootOfDerived(u, i, j);
        RootOfDerived(u, i + 1, j);
        LinkNewborn(p, m, u, j, i);
        assert m.chain == p.flows[u].members[j].links[i + 1..];
      case _ =>
    }
  }

  lemma ChainDelay(p: Plan, m: TaskMessage, u: string, k: nat)
    requires ValidPlan(p) && Shaped(p, m) && m.chain != [] && (m.id == Indexed(Root(u), k) || m.id == Callback(Indexed(Root(u), k)))
    ensures HasNext(m) && StageId(m) == Indexed(Root(u), k + 1) && DelayOf(p, StageId(m)) == Some(m.chain[0].delay)
    ensures forall j :: 0 <= j < |m.chain[0].group| ==> DelayOf(p, Member(StageId(m), j)) == Some(m.chain[0].group[j].delay)
  {
    ChainNewborn(p, m, u, k);
    RootOfDerived(u, k, 0);
    RootOfDerived(u, k + 1, 0);
    assert m.chain == p.flows[u].stages[k + 1..];
    forall j | 0 <= j < |m.chain[0].group| ensures DelayOf(p, Member(StageId(m), j)) == Some(m.chain[0].group[j].delay) {
      RootOfDerived(u, k + 1, j);
    }
  }

  lemma CallbackDelay(p: Plan, m: TaskMessage)
    requires ValidPlan(p) && Shaped(p, m) && m.groupId.Some?
    ensures m.groupCallback.Some? && DelayOf(p, Callback(m.groupId.value)) == Some(m.groupCallback.value.delay)
  {
    match m.id {
      case Member(Indexed(Root(u), k), j) => RootOfDerived(u, k, j);
      case Member(Root(u), j) => RootOfDerived(u, 0, j);
      case Indexed(Member(Root(u), j), i) => RootOfDerived(u, i, j);
      case _ =>
    }
  }

  /** The step created this task. */
  ghost predicate Bears(w: World, v: World, id: Id) { v.born[id] > w.born[id] }

  /** What the theorem says of one step. */
  ghost predicate BornAsPlanned(p: Plan, w: World, v: World, id: Id, at: int) {
    && Birth(p, id).Some? && DelayOf(p, id).Some?
    && StartsOnTime(w, v, Birth(p, id).value.queue, id, DelayOf(p, id).value, at)
    && BodyOf(v, Birth(p, id).value.queue, id).value.msg.Some? && Newborn(p, BodyOf(v, Birth(p, id).value.queue, id).value.msg.value)
  }

  lemma CreatedAsPlanned(p: Plan, w: World, u: World, msg: TaskMessage, delay: int, at: int, v: World, id: Id)
    requires Newborn(p, msg) && DelayOf(p, msg.id) == Some(delay) && u.queues == w.queues && u.born == w.born
    requires v.queues == CreateTask(u, msg, delay, at).queues && v.born == CreateTask(u, msg, delay, at).born && Bears(w, v, id)
    ensures BornAsPlanned(p, w, v, id, at)
  {
    SameBirth(p, msg);
    assert id == msg.id && !Exists(w, msg.queue, msg.id);
    CreateStarts(w, u, msg, delay, at, v);
  }

  lemma ReportAsPlanned(p: Plan, w: World, m: TaskMessage, at: int, v: World, id: Id)
    requires ValidPlan(p) && Shaped(p, m) && m.groupId.Some? && CanReport(m)
    requires v.queues == ReportMember(w, m, at).queues && v.born == ReportMember(w, m, at).born && Bears(w, v, id)
    ensures BornAsPlanned(p, w, v, id, at)
  {
    var cb := Exists(w, m.groupCallback.value.queue, Callback(m.groupId.value));
    var o := Report(w.groups, GroupKeyOf(m), SlotOf(m), m.groupIndex, m.groupSize, m.result, cb);
    assert o.fires;
    GroupedKnows(p, m, o.collected);
    CallbackDelay(p, m);
    CreatedAsPlanned(p, w, w.(groups := o.groups), CallbackMessage(m, o.collected), m.groupCallback.value.delay, at, v, id);
  }

  lemma SucceededAsPlanned(p: Plan, w: World, wid: nat, at: int, v: World, id: Id)
    requires ValidPlan(p) && wid in w.workers && WorkerShaped(p, w.workers[wid]) && CanAdvance(w, w.workers[wid])
    requires w.workers[wid].phase.Succeeded? && v == AdvanceWorker(w, wid, at) && Bears(w, v, id)
    ensures BornAsPlanned(p, w, v, id, at)
  {
    var m := w.workers[wid].msg;
    if m.chain == [] {
      ReportAsPlanned(p, w, m, at, v, id);
    } else if m.chain[0].group == [] {
      NextNewborn(p, m);
      NextDelay(p, m);
      CreatedAsPlanned(p, w, w, NextMessage(m), m.chain[0].delay, at, v, id);
    } else {
      StageIs(w, wid, at);
    }
  }

  lemma StagedAsPlanned(p: Plan, w: World, wid: nat, at: int, v: World, id: Id)
    requires ValidPlan(p) && wid in w.workers && WorkerShaped(p, w.workers[wid]) && CanAdvance(w, w.workers[wid])
    requires w.workers[wid].phase.Staging? && v == AdvanceWorker(w, wid, at) && Bears(w, v, id)
    ensures BornAsPlanned(p, w, v, id, at)
  {
    var m, j := w.workers[wid].msg, w.workers[wid].phase.j;
    MemberIs(w, wid, at);
    if j < |m.chain[0].group| {
      NextNewborn(p, m);
      NextDelay(p, m);
      assert Newborn(p, MemberMessage(m, j)) && DelayOf(p, Member(StageId(m), j)) == Some(m.chain[0].group[j].delay);
      CreatedAsPlanned(p, w, w, MemberMessage(m, j), m.chain[0].group[j].delay, at, v, id);
    }
  }

  lemma AdvanceAsPlanned(p: Plan, w: World, wid: nat, at: int, v: World, id: Id)
    requires ValidPlan(p) && wid in w.workers && WorkerShaped(p, w.workers[wid]) && CanAdvance(w, w.workers[wid])
    requires v == AdvanceWorker(w, wid, at) && Bears(w, v, id)
    ensures BornAsPlanned(p, w, v, id, at)
  {
    var x := w.workers[wid];
    match x.phase {
      case Succeeded => SucceededAsPlanned(p, w, wid, at, v, id);
      case Staging(_, _) => StagedAsPlanned(p, w, wid, at, v, id);
      case DrainReporting(_, _, stored) =>
        DrainReportIs(w, wid, at);
        ReportAsPlanned(p, w, stored, at, v, id);
      case _ =>
    }
  }

  /** In every run, every link, stage member and callback a server creates starts as the plan has it:
      on the stream at once, or, with a delay, at the worker's time plus its own delay. */
  lemma StartsAsPlanned(p: Plan, ws: seq<World>, es: seq<Event>, k: nat, id: Id)
    requires ValidPlan(p) && IsRun(p, ws, es) && k < |es| && Bears(ws[k], ws[k + 1], id)
    ensures es[k].Advance? && BornAsPlanned(p, ws[k], ws[k + 1], id, es[k].at)
  {
    AlwaysShaped(p, ws, es, k);
    OnlyAdvanceBears(p, ws[k], es[k], id);
    assert WorkerShaped(p, ws[k].workers[es[k].wid]);
    AdvanceAsPlanned(p, ws[k], es[k].wid, es[k].at, ws[k + 1], id);
  }

  lemma OnlyAdvanceBears(p: Plan, w: World, e: Event, id: Id)
    requires Enabled(p, w, e) && Bears(w, Step(p, w, e), id)
    ensures e.Advance?
  {
  }

  // ----- which members are created again -----

  /** From state `i` to state `k` worker `wid` is in one hand-off of `m`. */
  ghost predicate HandsOffSince(ws: seq<World>, i: nat, k: nat, wid: nat, m: TaskMessage)
    requires i <= k < |ws|
  {
    forall n :: i <= n <= k ==> wid in ws[n].workers && ws[n].workers[wid].msg == m && HandingOff(ws[n].workers[wid].phase)
  }

  /** In the hand-off that worker `wid` is in at state `k`, slot `id` was pending at some moment. */
  ghost predicate SeenPending(ws: seq<World>, k: nat, wid: nat, m: TaskMessage, id: Id)
    requires k < |ws|
  {
    HasNext(m) && exists i :: 0 <= i <= k && PendingAt(ws[i], StageKey(m), id) && HandsOffSince(ws, i, k, wid, m)
  }

  predicate PendingAt(w: World, key: Key, id: Id) {
    key in w.groups.pending && id in w.groups.pending[key]
  }

  predicate Listed(listed: Option<set<Id>>, id: Id) { listed.Some? ==> id in listed.value }

  /** What the worker means to create was pending. */
  ghost predicate ListsPending(ws: seq<World>, k: nat, wid: nat)
    requires k < |ws|
  {
    wid in ws[k].workers && HandingOff(ws[k].workers[wid].phase) && !ws[k].workers[wid].phase.Listing? && HasNext(ws[k].workers[wid].msg) ==>
      var x := ws[k].workers[wid];
      forall id :: id in StageSlots(x.msg) && Listed(x.phase.listed, id) ==> SeenPending(ws, k, wid, x.msg, id)
  }

  lemma OtherWorkersStay(p: Plan, w: World, e: Event, wid: nat)
    requires Enabled(p, w, e) && wid in Step(p, w, e).workers && HandingOff(Step(p, w, e).workers[wid].phase)
    requires !(e.Advance? && e.wid == wid)
    ensures wid in w.workers && Step(p, w, e).workers[wid] == w.workers[wid]
  {
    if e.Advance? { AdvanceMovesOne(w, e.wid, e.at, Step(p, w, e)); }
  }

  ghost predicate MovesOne(w: World, v: World, wid: nat) {
    wid in v.workers && v.workers == w.workers[wid := v.workers[wid]]
  }

  lemma CreateFrame(w: World, msg: TaskMessage, delay: int, at: int)
    ensures CreateTask(w, msg, delay, at).workers == w.workers
  {
  }

  lemma SucceededMovesOne(w: World, wid: nat, at: int, v: World)
    requires wid in w.workers && CanAdvance(w, w.workers[wid]) && w.workers[wid].phase.Succeeded? && v == AdvanceWorker(w, wid, at)
    ensures MovesOne(w, v, wid)
  {
    var m := w.workers[wid].msg;
    if m.chain == [] { ReportMemberFrame(w, m, at); }
    else if m.chain[0].group == [] { CreateFrame(w, NextMessage(m), m.chain[0].delay, at); }
    else { StageIs(w, wid, at); }
  }

  lemma AdvanceMovesOne(w: World, wid: nat, at: int, v: World)
    requires wid in w.workers && CanAdvance(w, w.workers[wid]) && v == AdvanceWorker(w, wid, at)
    ensures MovesOne(w, v, wid)
  {
    var x := w.workers[wid];
    match x.phase {
      case Succeeded => SucceededMovesOne(w, wid, at, v);
      case Staging(j, _) =>
        MemberIs(w, wid, at);
        if j < |x.msg.chain[0].group| { CreateFrame(w, MemberMessage(x.msg, j), x.msg.chain[0].group[j].delay, at); }
      case DrainReporting(_, _, stored) =>
        DrainReportIs(w, wid, at);
        ReportMemberFrame(w, stored, at);
      case _ =>
    }
  }

  /** How a worker gets into a phase of a hand-off. */
  ghost predicate IntoHandOff(w: World, v: World, x: Worker, y: Worker)
    requires HandingOff(y.phase) && !y.phase.Listing?
  {
    && y.msg == x.msg && HasNext(x.msg)
    && (|| (HandingOff(x.phase) && !x.phase.Listing? && y.phase.listed == x.phase.listed)
        || (x.phase.Listing? && y.phase.listed.Some? && forall id :: id in y.phase.listed.value ==> PendingAt(w, StageKey(x.msg), id))
        || (x.phase.Succeeded? && StageKey(x.msg) in v.groups.pending && v.groups.pending[StageKey(x.msg)] == StageSlots(x.msg)))
  }

  lemma AdvanceIntoHandOff(w: World, wid: nat, at: int, v: World)
    requires wid in w.workers && CanAdvance(w, w.workers[wid]) && v == AdvanceWorker(w, wid, at) && wid in v.workers
    requires HandingOff(v.workers[wid].phase) && !v.workers[wid].phase.Listing? && HasNext(w.workers[wid].msg)
    ensures IntoHandOff(w, v, w.workers[wid], v.workers[wid])
  {
    var x := w.workers[wid];
    match x.phase {
      case Succeeded => SlotsNotEmpty(x.msg);
      case Staging(_, _) => MemberIs(w, wid, at);
      case DrainReading(_, _) => DrainReadIs(w, wid, at);
      case DrainReporting(_, _, _) => DrainReportIs(w, wid, at);
      case _ =>
    }
  }

  lemma SlotsNotEmpty(m: TaskMessage)
    requires HasNext(m)
    ensures m.chain[0].group != [] ==> Member(StageId(m), 0) in StageSlots(m)
  {
  }

  lemma SeenOn(ws: seq<World>, k: nat, wid: nat, m: TaskMessage, id: Id)
    requires 0 < k < |ws| && SeenPending(ws, k - 1, wid, m, id)
    requires wid in ws[k].workers && ws[k].workers[wid].msg == m && HandingOff(ws[k].workers[wid].phase)
    ensures SeenPending(ws, k, wid, m, id)
  {
    var i :| 0 <= i <= k - 1 && PendingAt(ws[i], StageKey(m), id) && HandsOffSince(ws, i, k - 1, wid, m);
    assert HandsOffSince(ws, i, k, wid, m);
  }

  lemma SeenNow(ws: seq<World>, i: nat, k: nat, wid: nat, m: TaskMessage, id: Id)
    requires i <= k < |ws| && HasNext(m) && PendingAt(ws[i], StageKey(m), id) && HandsOffSince(ws, i, k, wid, m)
    ensures SeenPending(ws, k, wid, m, id)
  {
  }

  lemma {:induction false} AlwaysListsPending(p: Plan, ws: seq<World>, es: seq<Event>, k: nat, wid: nat)
    requires ValidPlan(p) && IsRun(p, ws, es) && k < |ws|
    ensures ListsPending(ws, k, wid)
  {
    if k > 0 && wid in ws[k].workers && HandingOff(ws[k].workers[wid].phase) && !ws[k].workers[wid].phase.Listing? && HasNext(ws[k].workers[wid].msg) {
      AlwaysListsPending(p, ws, es, k - 1, wid);
      var w, v, e := ws[k - 1], ws[k], es[k - 1];
      if !(e.Advance? && e.wid == wid) {
        OtherWorkersStay(p, w, e, wid);
        var x := v.workers[wid];
        forall id | id in StageSlots(x.msg) && Listed(x.phase.listed, id) ensures SeenPending(ws, k, wid, x.msg, id) {
          SeenOn(ws, k, wid, x.msg, id);
        }
      } else {
        AlwaysShaped(p, ws, es, k - 1);
        AdvanceListsPending(p, ws, k, wid, e.at);
      }
    }
  }

  lemma AdvanceListsPending(p: Plan, ws: seq<World>, k: nat, wid: nat, at: int)
    requires ValidPlan(p) && 0 < k < |ws| && wid in ws[k - 1].workers && CanAdvance(ws[k - 1], ws[k - 1].workers[wid])
    requires WorkerShaped(p, ws[k - 1].workers[wid]) && ListsPending(ws, k - 1, wid)
    requires ws[k] == AdvanceWorker(ws[k - 1], wid, at) && wid in ws[k].workers
    requires HandingOff(ws[k].workers[wid].phase) && !ws[k].workers[wid].phase.Listing?
    ensures ListsPending(ws, k, wid)
  {
    var x, y := ws[k - 1].workers[wid], ws[k].workers[wid];
    WasNext(p, ws[k - 1], wid, at);
    AdvanceIntoHandOff(ws[k - 1], wid, at, ws[k]);
    forall id | id in StageSlots(y.msg) && Listed(y.phase.listed, id) ensures SeenPending(ws, k, wid, y.msg, id) {
      if HandingOff(x.phase) && !x.phase.Listing? {
        SeenOn(ws, k, wid, y.msg, id);
      } else if x.phase.Listing? {
        SeenNow(ws, k - 1, k, wid, y.msg, id);
      } else {
        SeenNow(ws, k, k, wid, y.msg, id);
      }
    }
  }

  lemma WasNext(p: Plan, w: World, wid: nat, at: int)
    requires ValidPlan(p) && wid in w.workers && WorkerShaped(p, w.workers[wid]) && CanAdvance(w, w.workers[wid])
    requires wid in AdvanceWorker(w, wid, at).workers && HandingOff(AdvanceWorker(w, wid, at).workers[wid].phase)
    ensures HasNext(w.workers[wid].msg)
  {
    var x := w.workers[wid];
    if x.phase.Succeeded? && x.msg.chain == [] { ReportMemberFrame(w, x.msg, at); }
  }

  /** In every run a member of a parallel stage is created, for the first time or again, only by a
      hand-off during which its slot was pending: the work of a member that has reported is not
      redone because its predecessor was redelivered. */
  lemma OnlyPendingIsCreated(p: Plan, ws: seq<World>, es: seq<Event>, k: nat, id: Id)
    requires ValidPlan(p) && IsRun(p, ws, es) && k < |es| && Bears(ws[k], ws[k + 1], id) && id.Member? && id.parent.Indexed?
    ensures es[k].Advance? && es[k].wid in ws[k].workers && HasNext(ws[k].workers[es[k].wid].msg)
    ensures StageId(ws[k].workers[es[k].wid].msg) == id.parent
    ensures SeenPending(ws, k, es[k].wid, ws[k].workers[es[k].wid].msg, id)
  {
    OnlyAdvanceBears(p, ws[k], es[k], id);
    StagesOne(ws[k], es[k].wid, es[k].at, id);
    AlwaysListsPending(p, ws, es, k, es[k].wid);
  }

  lemma StagesOne(w: World, wid: nat, at: int, id: Id)
    requires wid in w.workers && CanAdvance(w, w.workers[wid]) && Bears(w, AdvanceWorker(w, wid, at), id) && id.Member?
    ensures var x := w.workers[wid];
            x.phase.Staging? && HasNext(x.msg) && id in StageSlots(x.msg) && Listed(x.phase.listed, id)
  {
    var x := w.workers[wid];
    if x.phase.Staging? { MemberIs(w, wid, at); }
    if x.phase.DrainReporting? { DrainReportIs(w, wid, at); }
  }
}
