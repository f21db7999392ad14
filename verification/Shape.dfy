/** The shape of messages: whatever is stored or held is the message its task was born with,
    except for the retry count, the results in it, and a tail that may have been dropped.
    This holds in every run, with lapsed leases, re-runs, deletions and expiry. */
module Shape {
  import opened Ids
  import opened Base
  import opened Store
  import opened GroupState
  import opened Flow
  import opened World

  ghost predicate Shaped(p: Plan, m: TaskMessage) {
    && Birth(p, m.id).Some?
    && var b := Birth(p, m.id).value;
       && m == b.(retried := m.retried, result := m.result, chain := m.chain, prevResult := m.prevResult, groupResults := m.groupResults)
       && (m.chain == b.chain || m.chain == [])
  }

  /** A message as it is created: with its whole tail. */
  ghost predicate Newborn(p: Plan, m: TaskMessage) {
    Shaped(p, m) && m.chain == Birth(p, m.id).value.chain
  }

  /** Of the tasks that belong to a group only a retained one is kept without its tail. */
  ghost predicate CutShort(p: Plan, m: TaskMessage)
    requires Shaped(p, m)
  {
    m.chain == Birth(p, m.id).value.chain || m.groupId.None? || m.retention > 0
  }

  ghost predicate BodyShaped(p: Plan, name: string, id: Id, body: Body) {
    RootOf(id) in p.flows ==>
      && (body.state == Completed ==> body.msg.Some?)
      && (body.msg.Some? ==> body.msg.value.id == id && body.msg.value.queue == name && Shaped(p, body.msg.value) && CutShort(p, body.msg.value))
  }

  ghost predicate QueuesShaped(p: Plan, queues: map<string, Queue>) {
    forall name, id {:trigger id in queues[name].hash} ::
      name in queues && id in queues[name].hash ==> BodyShaped(p, name, id, queues[name].hash[id])
  }

  /** A hand-off works on a stage, and on a member the stage has. */
  ghost predicate WorkerShaped(p: Plan, x: Worker) {
    && Shaped(p, x.msg)
    && (if x.phase.HandedOff? then x.msg.chain == [] else CutShort(p, x.msg))
    && (HandingOff(x.phase) ==> x.msg.chain != [] && x.msg.chain[0].group != [])
    && (HandingOff(x.phase) && !x.phase.Listing? ==> x.phase.j < |x.msg.chain[0].group| + if x.phase.Staging? then 1 else 0)
    && (x.phase.DrainReporting? ==> HasNext(x.msg) && Shaped(p, x.phase.stored) && x.phase.stored.id == Member(StageId(x.msg), x.phase.j))
  }

  ghost predicate WorkersShaped(p: Plan, workers: map<nat, Worker>) {
    forall i {:trigger i in workers} :: i in workers ==> WorkerShaped(p, workers[i])
  }

  ghost predicate RootsLaunched(pending: map<Key, set<Id>>, launched: set<Id>) {
    forall key {:trigger key in pending} :: key in pending && key.1.Root? ==> key.1 in launched
  }

  ghost predicate SInv(p: Plan, w: World) {
    QueuesShaped(p, w.queues) && WorkersShaped(p, w.workers) && RootsLaunched(w.groups.pending, w.launched)
  }

  // ----- messages a worker creates -----

  lemma SameBirth(p: Plan, m: TaskMessage)
    requires Shaped(p, m)
    ensures var b := Birth(p, m.id).value;
            && b.id == m.id && m.queue == b.queue && m.kind == b.kind && m.maxRetry == b.maxRetry && m.noArchive == b.noArchive
            && m.retention == b.retention && m.chainId == b.chainId && m.chainIndex == b.chainIndex
            && m.groupId == b.groupId && m.groupQueue == b.groupQueue && m.groupCallback == b.groupCallback
            && m.groupIndex == b.groupIndex && m.groupSize == b.groupSize && m.groupMemberId == b.groupMemberId
            && m.groupCallbackChain == b.groupCallbackChain
  {
    BirthId(p, m.id);
  }

  /** What a message with a tail creates next is newborn. */
  lemma NextNewborn(p: Plan, m: TaskMessage)
    requires ValidPlan(p) && Shaped(p, m) && m.chain != []
    ensures HasNext(m) && m.chain == Birth(p, m.id).value.chain
    ensures m.chain[0].group == [] ==> Newborn(p, NextMessage(m))
    ensures forall j :: 0 <= j < |m.chain[0].group| ==> Newborn(p, MemberMessage(m, j))
  {
    match m.id {
      case Indexed(Root(u), k) => ChainNewborn(p, m, u, k);
      case Callback(Indexed(Root(u), k)) => ChainNewborn(p, m, u, k);
      case Indexed(Member(Root(u), j), i) => LinkNewborn(p, m, u, j, i);
      case _ =>
    }
  }

  lemma ChainNewborn(p: Plan, m: TaskMessage, u: string, k: nat)
    requires ValidPlan(p) && Shaped(p, m) && m.chain != []
    requires m.id == Indexed(Root(u), k) || m.id == Callback(Indexed(Root(u), k))
    ensures HasNext(m) && StageId(m) == Indexed(Root(u), k + 1)
    ensures m.chain[0].group == [] ==> Newborn(p, NextMessage(m))
    ensures forall j :: 0 <= j < |m.chain[0].group| ==> Newborn(p, MemberMessage(m, j))
  {
    RootOfDerived(u, k, 0);
    RootOfDerived(u, k + 1, 0);
    var stages := p.flows[u].stages;
    assert m.chain == stages[k + 1..] && m.chain[1..] == stages[k + 2..];
    forall j | 0 <= j < |m.chain[0].group| ensures Newborn(p, MemberMessage(m, j)) { RootOfDerived(u, k + 1, j); }
  }

  lemma LinkNewborn(p: Plan, m: TaskMessage, u: string, j: nat, i: nat)
    requires ValidPlan(p) && Shaped(p, m) && m.chain != [] && m.id == Indexed(Member(Root(u), j), i)
    ensures HasNext(m) && m.chain[0].group == [] && Newborn(p, NextMessage(m))
  {
    RootOfDerived(u, i, j);
    RootOfDerived(u, i + 1, j);
    assert ValidMember(p.flows[u].members[j]);
    var links := p.flows[u].members[j].links;
    assert m.chain == links[i + 1..] && m.chain[1..] == links[i + 2..];
  }

  // ----- groups -----

  /** How many members a stage has, for the key of a stage. */
  ghost function StageSize(p: Plan, key: Key): Option<nat> {
    var u := RootOf(key.1);
    match key.1
    case Indexed(Root(_), k) =>
      if u in p.flows && p.flows[u].ChainFlow? && k < |p.flows[u].stages| && key.0 == p.flows[u].stages[k].queue
      then Some(|p.flows[u].stages[k].group|) else None
    case _ => None
  }

  /** The stage a message hands on to. */
  lemma StageShape(p: Plan, m: TaskMessage)
    requires ValidPlan(p) && Shaped(p, m) && m.chain != [] && m.chain[0].group != []
    ensures HasNext(m) && StageId(m).Indexed? && StageSize(p, StageKey(m)) == Some(|m.chain[0].group|)
    ensures Birth(p, Callback(StageId(m))).Some? && Birth(p, Callback(StageId(m))).value.queue == m.chain[0].queue
  {
    NextNewborn(p, m);
    match m.id {
      case Indexed(Root(u), k) => RootOfDerived(u, k, 0); RootOfDerived(u, k + 1, 0);
      case Callback(Indexed(Root(u), k)) => RootOfDerived(u, k, 0); RootOfDerived(u, k + 1, 0);
      case Indexed(Member(Root(u), j), i) => LinkNewborn(p, m, u, j, i);
      case _ =>
    }
  }

  /** What the fields of a grouped message say about its group. */
  ghost predicate KnowsGroup(p: Plan, m: TaskMessage, collected: seq<Bytes>) {
    && CanReport(m)
    && (var cb := CallbackMessage(m, collected);
        Newborn(p, cb) && cb.id == Callback(m.groupId.value) && cb.queue == m.groupQueue && cb.groupId.None?)
    && SlotOf(m) == Member(m.groupId.value, m.groupIndex)
    && (m.groupId.value.Indexed? ==> SlotOf(m) == m.id)
  }

  lemma GroupedKnows(p: Plan, m: TaskMessage, collected: seq<Bytes>)
    requires ValidPlan(p) && Shaped(p, m) && m.groupId.Some?
    ensures KnowsGroup(p, m, collected)
  {
    match m.id {
      case Member(Indexed(Root(u), k), j) => StageMemberKnows(p, m, collected, u, k, j);
      case Member(Root(u), j) => FlowMemberKnows(p, m, collected, u, j);
      case Indexed(Member(Root(u), j), i) => RootOfDerived(u, i, j); FlowMemberKnows(p, m, collected, u, j);
      case _ =>
    }
  }

  lemma StageMemberKnows(p: Plan, m: TaskMessage, collected: seq<Bytes>, u: string, k: nat, j: nat)
    requires ValidPlan(p) && Shaped(p, m) && m.groupId.Some? && m.id == Member(Indexed(Root(u), k), j)
    ensures KnowsGroup(p, m, collected)
  {
    RootOfDerived(u, k, j);
  }

  lemma FlowMemberKnows(p: Plan, m: TaskMessage, collected: seq<Bytes>, u: string, j: nat)
    requires ValidPlan(p) && Shaped(p, m) && m.groupId.Some? && RootOf(m.id) == u
    requires m.id == Member(Root(u), j) || (m.id.Indexed? && m.id.parent == Member(Root(u), j))
    ensures KnowsGroup(p, m, collected)
  {
    RootOfDerived(u, 0, j);
  }

  // ----- single calls -----

  lemma RunShaped(p: Plan, w: World, name: string, op: Op)
    requires QueuesShaped(p, w.queues)
    requires Written(op).Some? ==> BodyShaped(p, name, op.msg.id, Written(op).value)
    ensures QueuesShaped(p, Run(w, name, op).queues)
  {
    var q, v := QueueOf(w, name), Run(w, name, op);
    ApplyBodies(q, op);
    forall n, id | n in v.queues && id in v.queues[n].hash ensures BodyShaped(p, n, id, v.queues[n].hash[id]) {
      if n == name {
        if id in q.hash { assert BodyShaped(p, n, id, q.hash[id]); }
        if v.queues[n].hash[id].state == Completed { ApplyCompleted(q, op, id); }
      }
    }
  }

  lemma CreateTaskShaped(p: Plan, w: World, msg: TaskMessage, delay: int, at: int)
    requires QueuesShaped(p, w.queues) && Newborn(p, msg)
    ensures QueuesShaped(p, CreateTask(w, msg, delay, at).queues)
  {
    RunShaped(p, w, msg.queue, if delay > 0 then ScheduleLink(msg, at + delay) else EnqueueLink(msg));
  }

  lemma ReportRoots(w: World, key: Key, slot: Id, index: nat, size: nat, result: Bytes, cb: bool)
    requires RootsLaunched(w.groups.pending, w.launched)
    ensures RootsLaunched(Report(w.groups, key, slot, index, size, result, cb).groups.pending, w.launched)
  {
  }

  lemma ReportShaped(p: Plan, w: World, m: TaskMessage, at: int)
    requires ValidPlan(p) && QueuesShaped(p, w.queues) && RootsLaunched(w.groups.pending, w.launched) && Shaped(p, m) && m.groupId.Some?
    ensures CanReport(m)
    ensures var v := ReportMember(w, m, at);
            QueuesShaped(p, v.queues) && RootsLaunched(v.groups.pending, v.launched) && v.workers == w.workers && v.launched == w.launched
  {
    GroupedKnows(p, m, []);
    var cb := Exists(w, m.groupCallback.value.queue, Callback(m.groupId.value));
    ReportRoots(w, GroupKeyOf(m), SlotOf(m), m.groupIndex, m.groupSize, m.result, cb);
    var o := Report(w.groups, GroupKeyOf(m), SlotOf(m), m.groupIndex, m.groupSize, m.result, cb);
    if o.fires {
      GroupedKnows(p, m, o.collected);
      CreateTaskShaped(p, w.(groups := o.groups), CallbackMessage(m, o.collected), m.groupCallback.value.delay, at);
    }
  }

  // ----- steps -----

  lemma WithWorker(p: Plan, w: World, v: World, wid: nat)
    requires WorkersShaped(p, w.workers) && QueuesShaped(p, v.queues) && RootsLaunched(v.groups.pending, v.launched)
    requires wid in v.workers && v.workers == w.workers[wid := v.workers[wid]] && WorkerShaped(p, v.workers[wid])
    ensures SInv(p, v)
  {
  }

  lemma SetPhaseShaped(p: Plan, w: World, wid: nat, ph: Phase, v: World)
    requires SInv(p, w) && wid in w.workers && WorkerShaped(p, w.workers[wid].(phase := ph)) && v == SetPhase(w, wid, ph)
    ensures SInv(p, v)
  {
    WithWorker(p, w, v, wid);
  }

  lemma HandOffShaped(p: Plan, w: World, wid: nat, v: World)
    requires SInv(p, w) && wid in w.workers && v == HandOff(w, wid)
    ensures SInv(p, v)
  {
    assert WorkerShaped(p, w.workers[wid]);
    WithWorker(p, w, v, wid);
  }

  lemma AdvanceReport(p: Plan, w: World, wid: nat, at: int, v: World)
    requires ValidPlan(p) && SInv(p, w) && wid in w.workers && CanAdvance(w, w.workers[wid])
    requires w.workers[wid].phase.Succeeded? && w.workers[wid].msg.chain == [] && v == AdvanceWorker(w, wid, at)
    ensures SInv(p, v)
  {
    assert WorkerShaped(p, w.workers[wid]);
    ReportShaped(p, w, w.workers[wid].msg, at);
    WithWorker(p, w, v, wid);
  }

  lemma AdvanceLink(p: Plan, w: World, wid: nat, at: int, v: World)
    requires ValidPlan(p) && SInv(p, w) && wid in w.workers && CanAdvance(w, w.workers[wid]) && w.workers[wid].phase.Succeeded?
    requires w.workers[wid].msg.chain != [] && w.workers[wid].msg.chain[0].group == [] && v == AdvanceWorker(w, wid, at)
    ensures SInv(p, v)
  {
    var m := w.workers[wid].msg;
    assert WorkerShaped(p, w.workers[wid]);
    NextNewborn(p, m);
    CreateTaskShaped(p, w, NextMessage(m), m.chain[0].delay, at);
    HandOffShaped(p, CreateTask(w, NextMessage(m), m.chain[0].delay, at), wid, v);
  }

  lemma StageCreatedShaped(p: Plan, w: World, key: Key, slots: set<Id>, cb: bool)
    requires SInv(p, w) && !key.1.Root?
    ensures SInv(p, w.(groups := CreateIfAbsent(w.groups, key, slots, cb)))
  {
  }

  lemma AdvanceStage(p: Plan, w: World, wid: nat, at: int, v: World)
    requires ValidPlan(p) && SInv(p, w) && wid in w.workers && CanAdvance(w, w.workers[wid]) && w.workers[wid].phase.Succeeded?
    requires w.workers[wid].msg.chain != [] && w.workers[wid].msg.chain[0].group != [] && v == AdvanceWorker(w, wid, at)
    ensures SInv(p, v)
  {
    var m := w.workers[wid].msg;
    assert WorkerShaped(p, w.workers[wid]);
    StageShape(p, m);
    var cb := Exists(w, m.chain[0].queue, Callback(StageId(m)));
    StageCreatedShaped(p, w, StageKey(m), StageSlots(m), cb);
    var u := w.(groups := CreateIfAbsent(w.groups, StageKey(m), StageSlots(m), cb));
    StageIs(w, wid, at);
    if cb { HandOffShaped(p, u, wid, v); }
    else {
      SetPhaseShaped(p, u, wid, Listing, SetPhase(u, wid, Listing));
      SetPhaseShaped(p, u, wid, Staging(0, None), SetPhase(u, wid, Staging(0, None)));
    }
  }

  lemma AdvanceAllStaged(p: Plan, w: World, wid: nat, at: int, v: World)
    requires SInv(p, w) && wid in w.workers && CanAdvance(w, w.workers[wid]) && w.workers[wid].phase.Staging?
    requires w.workers[wid].phase.j == |w.workers[wid].msg.chain[0].group| && v == AdvanceWorker(w, wid, at)
    ensures SInv(p, v)
  {
    HandOffShaped(p, w, wid, v);
  }

  lemma AdvanceStaging(p: Plan, w: World, wid: nat, at: int, v: World)
    requires ValidPlan(p) && SInv(p, w) && wid in w.workers && CanAdvance(w, w.workers[wid]) && w.workers[wid].phase.Staging?
    requires w.workers[wid].phase.j < |w.workers[wid].msg.chain[0].group| && v == AdvanceWorker(w, wid, at)
    ensures SInv(p, v)
  {
    var m, j, listed := w.workers[wid].msg, w.workers[wid].phase.j, w.workers[wid].phase.listed;
    assert WorkerShaped(p, w.workers[wid]);
    MemberIs(w, wid, at);
    WorkerShapedAt(p, w.workers[wid], j, listed);
    if listed.Some? && Member(StageId(m), j) !in listed.value {
      SetPhaseShaped(p, w, wid, Staging(j + 1, listed), v);
    } else {
      StageOneShaped(p, w, wid, m, j, at, v);
    }
  }

  lemma WorkerShapedAt(p: Plan, x: Worker, j: nat, listed: Option<set<Id>>)
    requires WorkerShaped(p, x) && HandingOff(x.phase) && HasNext(x.msg) && j < |x.msg.chain[0].group|
    ensures WorkerShaped(p, x.(phase := Draining(j, listed))) && WorkerShaped(p, x.(phase := Staging(j + 1, listed)))
  {
  }

  lemma StageOneShaped(p: Plan, w: World, wid: nat, m: TaskMessage, j: nat, at: int, v: World)
    requires ValidPlan(p) && SInv(p, w) && wid in w.workers && w.workers[wid].msg == m && HasNext(m) && j < |m.chain[0].group|
    requires var u := CreateTask(w, MemberMessage(m, j), m.chain[0].group[j].delay, at);
             exists ph {:trigger SetPhase(u, wid, ph)} :: v == SetPhase(u, wid, ph) && WorkerShaped(p, w.workers[wid].(phase := ph))
    ensures SInv(p, v)
  {
    var u := CreateTask(w, MemberMessage(m, j), m.chain[0].group[j].delay, at);
    var ph :| v == SetPhase(u, wid, ph) && WorkerShaped(p, w.workers[wid].(phase := ph));
    assert WorkerShaped(p, w.workers[wid]);
    NextNewborn(p, m);
    assert Newborn(p, MemberMessage(m, j));
    CreateTaskShaped(p, w, MemberMessage(m, j), m.chain[0].group[j].delay, at);
    SetPhaseShaped(p, u, wid, ph, v);
  }

  lemma AdvanceListing(p: Plan, w: World, wid: nat, at: int, v: World)
    requires SInv(p, w) && wid in w.workers && CanAdvance(w, w.workers[wid])
    requires (w.workers[wid].phase.Listing? || w.workers[wid].phase.Draining?) && v == AdvanceWorker(w, wid, at)
    ensures SInv(p, v)
  {
    assert WorkerShaped(p, w.workers[wid]);
    SetPhaseShaped(p, w, wid, v.workers[wid].phase, v);
  }

  /** The member message a drain reads. */
  lemma ReadShaped(p: Plan, w: World, m: TaskMessage, j: nat)
    requires ValidPlan(p) && QueuesShaped(p, w.queues) && Shaped(p, m) && HasNext(m) && j < |m.chain[0].group|
    ensures var member := MemberMessage(m, j);
            var h := QueueOf(w, member.queue).hash;
            member.id in h && h[member.id].msg.Some? ==> Shaped(p, h[member.id].msg.value) && h[member.id].msg.value.id == member.id
  {
    NextNewborn(p, m);
    var member := MemberMessage(m, j);
    assert Newborn(p, member);
    BirthRoot(p, member.id);
    if Exists(w, member.queue, member.id) { assert BodyShaped(p, member.queue, member.id, w.queues[member.queue].hash[member.id]); }
  }

  lemma AdvanceReading(p: Plan, w: World, wid: nat, at: int, v: World)
    requires ValidPlan(p) && SInv(p, w) && wid in w.workers && CanAdvance(w, w.workers[wid])
    requires w.workers[wid].phase.DrainReading? && v == AdvanceWorker(w, wid, at)
    ensures SInv(p, v)
  {
    var m, j := w.workers[wid].msg, w.workers[wid].phase.j;
    assert WorkerShaped(p, w.workers[wid]);
    ReadShaped(p, w, m, j);
    DrainReadIs(w, wid, at);
    SetPhaseShaped(p, w, wid, v.workers[wid].phase, v);
  }

  lemma BirthRoot(p: Plan, id: Id)
    requires Birth(p, id).Some?
    ensures RootOf(id) in p.flows
  {
  }

  lemma AdvanceDrained(p: Plan, w: World, wid: nat, at: int, v: World)
    requires ValidPlan(p) && SInv(p, w) && wid in w.workers && CanAdvance(w, w.workers[wid])
    requires w.workers[wid].phase.DrainReporting? && v == AdvanceWorker(w, wid, at)
    ensures SInv(p, v)
  {
    assert WorkerShaped(p, w.workers[wid]);
    ReportShaped(p, w, w.workers[wid].phase.stored, at);
    DrainReportIs(w, wid, at);
    WithWorker(p, w, v, wid);
  }

  /** A worker that is done changes its queue and leaves. */
  ghost predicate Leaves(w: World, wid: nat, v: World) {
    v.groups == w.groups && v.launched == w.launched && v.workers == w.workers - {wid}
  }

  lemma MoveShaped(p: Plan, w: World, wid: nat, m: TaskMessage, z: ZSet, at: int, v: World)
    requires SInv(p, w) && wid in w.workers && Shaped(p, m) && CutShort(p, m) && Leaves(w, wid, v)
    requires v.queues == Run(w, m.queue, Move(w.workers[wid].entry, m, z, at)).queues
    ensures SInv(p, v)
  {
    RunShaped(p, w, m.queue, Move(w.workers[wid].entry, m, z, at));
  }

  lemma DropShaped(p: Plan, w: World, wid: nat, v: World)
    requires SInv(p, w) && wid in w.workers && Leaves(w, wid, v)
    requires v.queues == Run(w, w.workers[wid].msg.queue, Finish(w.workers[wid].entry, w.workers[wid].msg.id)).queues
    ensures SInv(p, v)
  {
    RunShaped(p, w, w.workers[wid].msg.queue, Finish(w.workers[wid].entry, w.workers[wid].msg.id));
  }

  lemma FinishShaped(p: Plan, w: World, wid: nat, at: int, v: World)
    requires SInv(p, w) && wid in w.workers && v == FinishWorker(w, wid, at)
    ensures SInv(p, v)
  {
    assert WorkerShaped(p, w.workers[wid]);
    if w.workers[wid].msg.retention > 0 {
      MoveShaped(p, w, wid, w.workers[wid].msg, ZCompleted, at + w.workers[wid].msg.retention, v);
    } else {
      DropShaped(p, w, wid, v);
    }
  }

  lemma RetryShaped(p: Plan, w: World, wid: nat, at: int, v: World)
    requires SInv(p, w) && wid in w.workers && !w.workers[wid].phase.HandedOff?
    requires var m := w.workers[wid].msg;
             v == MoveTask(w, wid, m.(retried := m.retried + 1), ZRetry, at) || v == MoveTask(w, wid, m, ZArchived, at)
    ensures SInv(p, v)
  {
    var m := w.workers[wid].msg;
    assert WorkerShaped(p, w.workers[wid]);
    if v == MoveTask(w, wid, m, ZArchived, at) {
      MoveShaped(p, w, wid, m, ZArchived, at, v);
    } else {
      MoveShaped(p, w, wid, m.(retried := m.retried + 1), ZRetry, at, v);
    }
  }

  lemma RetireShaped(p: Plan, w: World, wid: nat, at: int, v: World)
    requires SInv(p, w) && wid in w.workers && w.workers[wid].phase.Failed? && v == RetireWorker(w, wid, at)
    ensures SInv(p, v)
  {
    RetireIs(w, wid, at);
    if v == Settle(DropTask(w, wid), w.workers[wid].msg.id) {
      DropShaped(p, w, wid, v);
    } else {
      RetryShaped(p, w, wid, at, v);
    }
  }

  lemma LaunchShaped(p: Plan, w: World, op: Op)
    requires SInv(p, w) && (op.Enqueue? || op.Schedule?) && Birth(p, op.msg.id) == Some(op.msg)
    ensures SInv(p, Run(w, op.msg.queue, op).(launched := w.launched + {op.msg.id}))
  {
    BirthId(p, op.msg.id);
    RunShaped(p, w, op.msg.queue, op);
  }

  lemma FetchShaped(p: Plan, w: World, e: Event)
    requires SInv(p, w) && e.Fetch? && Enabled(p, w, e)
    ensures SInv(p, Step(p, w, e))
  {
    assert BodyShaped(p, e.queue, e.id, w.queues[e.queue].hash[e.id]);
    WithWorker(p, w, Step(p, w, e), e.wid);
  }

  lemma AdvanceShaped(p: Plan, w: World, wid: nat, at: int, v: World)
    requires ValidPlan(p) && SInv(p, w) && wid in w.workers && CanAdvance(w, w.workers[wid]) && v == AdvanceWorker(w, wid, at)
    ensures SInv(p, v)
  {
    var x := w.workers[wid];
    match x.phase {
      case Succeeded =>
        if x.msg.chain == [] { AdvanceReport(p, w, wid, at, v); }
        else if x.msg.chain[0].group == [] { AdvanceLink(p, w, wid, at, v); }
        else { AdvanceStage(p, w, wid, at, v); }
      case Listing => AdvanceListing(p, w, wid, at, v);
      case Staging(j, _) =>
        if j == |x.msg.chain[0].group| { AdvanceAllStaged(p, w, wid, at, v); } else { AdvanceStaging(p, w, wid, at, v); }
      case Draining(_, _) => AdvanceListing(p, w, wid, at, v);
      case DrainReading(_, _) => AdvanceReading(p, w, wid, at, v);
      case DrainReporting(_, _, _) => AdvanceDrained(p, w, wid, at, v);
    }
  }

  lemma HandlerShaped(p: Plan, w: World, e: Event)
    requires SInv(p, w) && Enabled(p, w, e) && (e.Again? || e.HandlerOk? || e.HandlerErr?)
    ensures SInv(p, Step(p, w, e))
  {
    assert WorkerShaped(p, w.workers[e.wid]);
    WithWorker(p, w, Step(p, w, e), e.wid);
  }

  lemma ReclaimShaped(p: Plan, w: World, wid: nat, at: int, v: World)
    requires SInv(p, w) && wid in w.workers && w.workers[wid].phase.Running? && v == ReclaimWorker(w, wid, at)
    ensures SInv(p, v)
  {
    RetryShaped(p, w, wid, at, v);
  }

  lemma EndShaped(p: Plan, w: World, e: Event)
    requires SInv(p, w) && Enabled(p, w, e) && (e.Done? || e.Reclaim?)
    ensures SInv(p, Step(p, w, e))
  {
    match e {
      case Done(wid, at) => FinishShaped(p, w, wid, at, FinishWorker(w, wid, at));
      case Reclaim(wid, at) => ReclaimShaped(p, w, wid, at, ReclaimWorker(w, wid, at));
    }
  }

  lemma FailShaped(p: Plan, w: World, e: Event)
    requires SInv(p, w) && Enabled(p, w, e) && (e.Retire? || e.Vanish?)
    ensures SInv(p, Step(p, w, e))
  {
    match e {
      case Retire(wid, at) => RetireShaped(p, w, wid, at, RetireWorker(w, wid, at));
      case Vanish(wid) =>
    }
  }

  lemma StepShaped(p: Plan, w: World, e: Event)
    requires ValidPlan(p) && SInv(p, w) && Enabled(p, w, e)
    ensures SInv(p, Step(p, w, e))
  {
    match e {
      case LaunchChain(u, op) => BirthId(p, ChainStart(u)); LaunchShaped(p, w, op);
      case LaunchGroup(u) =>
      case LaunchMember(u, j, op) => BirthId(p, MemberStart(p.flows[u], u, j)); LaunchShaped(p, w, op);
      case Env(queue, op) => RunShaped(p, w, queue, op);
      case TimePasses(_) =>
      case Fetch(_, _, _, _) => FetchShaped(p, w, e);
      case HandlerOk(_) => HandlerShaped(p, w, e);
      case HandlerErr(_, _) => HandlerShaped(p, w, e);
      case Again(_) => HandlerShaped(p, w, e);
      case Advance(wid, at) => AdvanceShaped(p, w, wid, at, AdvanceWorker(w, wid, at));
      case Done(_, _) => EndShaped(p, w, e);
      case Retire(_, _) => FailShaped(p, w, e);
      case Reclaim(_, _) => EndShaped(p, w, e);
      case Vanish(_) => FailShaped(p, w, e);
    }
  }

  /** The shape of messages, in every run of every valid plan. */
  lemma {:induction false} AlwaysShaped(p: Plan, ws: seq<World>, es: seq<Event>, k: nat)
    requires ValidPlan(p) && IsRun(p, ws, es) && k < |ws|
    ensures SInv(p, ws[k])
  {
    if k > 0 {
      AlwaysShaped(p, ws, es, k - 1);
      StepShaped(p, ws[k - 1], es[k - 1]);
    }
  }
}
