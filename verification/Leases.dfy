/** Leases: in a run where no task is ever held by two workers at once, a drain that found its
    member completed always reads the member's result, and so workflow meaning is preserved. */
module Leases {
  import opened Ids
  import opened Base
  import opened Store
  import opened GroupState
  import opened Flow
  import opened World
  import opened Shape
  import opened Meaning

  /** The lease of a task that a worker holds has not lapsed: nobody else is given the task. */
  ghost predicate Leased(w: World, e: Event) {
    e.Fetch? ==> forall i :: i in w.workers ==> w.workers[i].msg.id != e.id
  }

  // ----- the invariant -----

  ghost predicate Alone(w: World) {
    forall i, k :: i in w.workers && k in w.workers && w.workers[i].msg.id == w.workers[k].msg.id ==> i == k
  }

  predicate SaysCompleted(w: World, name: string, id: Id) {
    name in w.queues && id in w.queues[name].hash && w.queues[name].hash[id].state == Completed
  }

  predicate HasMessage(w: World, name: string, id: Id) {
    name in w.queues && id in w.queues[name].hash && w.queues[name].hash[id].msg.Some?
  }

  function MessageOf(w: World, name: string, id: Id): TaskMessage
    requires HasMessage(w, name, id)
  {
    w.queues[name].hash[id].msg.value
  }

  /** A worker without the result holds a task that nobody has completed. */
  ghost predicate FreshAt(p: Plan, w: World, i: nat)
    requires i in w.workers
  {
    HasItsResult(p, w.workers[i].msg) || forall name :: !SaysCompleted(w, name, w.workers[i].msg.id)
  }

  /** Worker `i` has found member `id` of its stage completed and is about to read it. */
  ghost predicate Reads(w: World, i: nat, id: Id) {
    && i in w.workers && w.workers[i].phase.DrainReading? && HasNext(w.workers[i].msg)
    && id == Member(StageId(w.workers[i].msg), w.workers[i].phase.j)
  }

  /** Every message of the task, stored or at hand, has its result. */
  ghost predicate CleanAt(p: Plan, w: World, id: Id) {
    && (forall name :: HasMessage(w, name, id) ==> HasItsResult(p, MessageOf(w, name, id)))
    && (forall i {:trigger i in w.workers} :: i in w.workers && w.workers[i].msg.id == id ==> HasItsResult(p, w.workers[i].msg))
  }

  ghost predicate LInv(p: Plan, w: World) {
    && Alone(w)
    && (forall i {:trigger i in w.workers} :: i in w.workers ==> FreshAt(p, w, i))
    && (forall i, id :: Reads(w, i, id) ==> CleanAt(p, w, id))
  }

  // ----- what a step may do -----

  ghost predicate WorkerFrom(p: Plan, x: Worker, y: Worker) {
    && y.msg.id == x.msg.id && (HasItsResult(p, x.msg) ==> HasItsResult(p, y.msg))
    && (y.phase.DrainReading? ==> y == x)
  }

  ghost predicate WorkersFrom(p: Plan, w: World, v: World) {
    forall i {:trigger i in v.workers} :: i in v.workers ==> i in w.workers && WorkerFrom(p, w.workers[i], v.workers[i])
  }

  ghost predicate Unread(w: World, id: Id) {
    forall i :: !Reads(w, i, id)
  }

  /** Messages are as they were, or have their result, or nobody is about to read them. */
  ghost predicate MessagesFrom(p: Plan, w: World, v: World) {
    forall name, id :: HasMessage(v, name, id) ==>
      || (HasMessage(w, name, id) && MessageOf(w, name, id) == MessageOf(v, name, id))
      || HasItsResult(p, MessageOf(v, name, id)) || Unread(w, id)
  }

  /** What is completed was completed before, or nobody holds it. */
  ghost predicate CompletedFrom(w: World, v: World) {
    forall name, id :: SaysCompleted(v, name, id) ==>
      SaysCompleted(w, name, id) || forall i :: i in v.workers ==> v.workers[i].msg.id != id
  }

  lemma CleanStays(p: Plan, w: World, v: World, id: Id)
    requires WorkersFrom(p, w, v) && MessagesFrom(p, w, v) && CleanAt(p, w, id) && !Unread(w, id)
    ensures CleanAt(p, v, id)
  {
    forall name | HasMessage(v, name, id) ensures HasItsResult(p, MessageOf(v, name, id)) {}
    forall i | i in v.workers && v.workers[i].msg.id == id ensures HasItsResult(p, v.workers[i].msg) {
      assert WorkerFrom(p, w.workers[i], v.workers[i]);
    }
  }

  lemma FreshStays(p: Plan, w: World, v: World, i: nat)
    requires WorkersFrom(p, w, v) && CompletedFrom(w, v) && i in v.workers && i in w.workers && FreshAt(p, w, i)
    ensures FreshAt(p, v, i)
  {
    assert WorkerFrom(p, w.workers[i], v.workers[i]);
    if !HasItsResult(p, v.workers[i].msg) {
      forall name ensures !SaysCompleted(v, name, v.workers[i].msg.id) {
        assert !SaysCompleted(w, name, w.workers[i].msg.id);
      }
    }
  }

  lemma AloneStays(p: Plan, w: World, v: World)
    requires WorkersFrom(p, w, v) && Alone(w)
    ensures Alone(v)
  {
    forall i, k | i in v.workers && k in v.workers && v.workers[i].msg.id == v.workers[k].msg.id ensures i == k {
      assert WorkerFrom(p, w.workers[i], v.workers[i]) && WorkerFrom(p, w.workers[k], v.workers[k]);
    }
  }

  lemma Framed(p: Plan, w: World, v: World)
    requires LInv(p, w) && WorkersFrom(p, w, v) && MessagesFrom(p, w, v) && CompletedFrom(w, v)
    ensures LInv(p, v)
  {
    AloneStays(p, w, v);
    forall i | i in v.workers ensures FreshAt(p, v, i) { FreshStays(p, w, v, i); }
    forall i, id | Reads(v, i, id) ensures CleanAt(p, v, id) {
      assert WorkerFrom(p, w.workers[i], v.workers[i]);
      assert Reads(w, i, id);
      CleanStays(p, w, v, id);
    }
  }

  // ----- queue operations -----

  lemma RunFrom(p: Plan, w: World, name: string, op: Op, v: World)
    requires v.queues == Run(w, name, op).queues
    requires Written(op).Some? ==> HasItsResult(p, op.msg) || Unread(w, op.msg.id)
    requires Written(op).Some? && Written(op).value.state == Completed ==> forall i :: i in v.workers ==> v.workers[i].msg.id != op.msg.id
    ensures MessagesFrom(p, w, v) && CompletedFrom(w, v)
  {
    var q := QueueOf(w, name);
    ApplyBodies(q, op);
    forall n, id | SaysCompleted(v, n, id) && !SaysCompleted(w, n, id) ensures forall i :: i in v.workers ==> v.workers[i].msg.id != id {
      ApplyCompleted(q, op, id);
      WrittenKey(q, op, id);
    }
    forall n, id | HasMessage(v, n, id)
      ensures || (HasMessage(w, n, id) && MessageOf(w, n, id) == MessageOf(v, n, id))
              || HasItsResult(p, MessageOf(v, n, id)) || Unread(w, id)
    {
    }
  }

  /** A body that differs from the old one in its state was written under its own key. */
  lemma WrittenKey(q: Queue, op: Op, id: Id)
    requires id in Apply(q, op).hash && Apply(q, op).hash[id].state == Completed
    ensures (id in q.hash && Apply(q, op).hash[id] == q.hash[id]) || (Written(op).Some? && op.msg.id == id && Written(op).value.state == Completed)
  {
    ApplyCompleted(q, op, id);
    ApplyBodies(q, op);
  }

  /** Only members of a parallel stage are drained. */
  lemma UnreadKind(w: World, id: Id)
    requires !(id.Member? && id.parent.Indexed?)
    ensures Unread(w, id)
  {
  }

  lemma CreateFrom(p: Plan, w: World, u: World, msg: TaskMessage, delay: int, at: int, v: World)
    requires u.queues == w.queues && v.queues == CreateTask(u, msg, delay, at).queues && Unread(w, msg.id)
    ensures MessagesFrom(p, w, v) && CompletedFrom(w, v)
  {
    RunFrom(p, w, msg.queue, if delay > 0 then ScheduleLink(msg, at + delay) else EnqueueLink(msg), v);
  }

  lemma SameFrom(p: Plan, w: World, v: World)
    requires v.queues == w.queues
    ensures MessagesFrom(p, w, v) && CompletedFrom(w, v)
  {
  }

  // ----- steps of a succeeded task -----

  lemma OneWorkerFrom(p: Plan, w: World, v: World, wid: nat)
    requires wid in w.workers && wid in v.workers && v.workers == w.workers[wid := v.workers[wid]]
    requires WorkerFrom(p, w.workers[wid], v.workers[wid])
    ensures WorkersFrom(p, w, v)
  {
  }

  lemma ReportFrom(p: Plan, w: World, m: TaskMessage, at: int, v: World)
    requires CanReport(m) && v.queues == ReportMember(w, m, at).queues
    ensures MessagesFrom(p, w, v) && CompletedFrom(w, v)
  {
    var cb := Exists(w, m.groupCallback.value.queue, Callback(m.groupId.value));
    var o := Report(w.groups, GroupKeyOf(m), SlotOf(m), m.groupIndex, m.groupSize, m.result, cb);
    if o.fires {
      UnreadKind(w, Callback(m.groupId.value));
      CreateFrom(p, w, w.(groups := o.groups), CallbackMessage(m, o.collected), m.groupCallback.value.delay, at, v);
    } else {
      SameFrom(p, w, v);
    }
  }

  lemma SucceededFrom(p: Plan, w: World, wid: nat, at: int, v: World)
    requires LInv(p, w) && wid in w.workers && CanAdvance(w, w.workers[wid])
    requires w.workers[wid].phase.Succeeded? && v == AdvanceWorker(w, wid, at)
    ensures LInv(p, v)
  {
    var m := w.workers[wid].msg;
    if m.chain == [] {
      ReportMemberFrame(w, m, at);
      ReportFrom(p, w, m, at, v);
    } else if m.chain[0].group == [] {
      UnreadKind(w, StageId(m));
      CreateFrom(p, w, w, NextMessage(m), m.chain[0].delay, at, v);
    } else {
      SameFrom(p, w, v);
    }
    OneWorkerFrom(p, w, v, wid);
    Framed(p, w, v);
  }

  /** A parallel stage is handed over by one task only. */
  lemma OnePredecessor(p: Plan, m: TaskMessage, n: TaskMessage)
    requires ValidPlan(p) && Shaped(p, m) && Shaped(p, n) && m.chain != [] && n.chain != []
    requires m.chain[0].group != [] && n.chain[0].group != [] && HasNext(m) && HasNext(n) && StageId(m) == StageId(n)
    ensures m.id == n.id
  {
    var u, k := PredecessorIs(p, m);
    var u', k' := PredecessorIs(p, n);
  }

  lemma PredecessorIs(p: Plan, m: TaskMessage) returns (u: string, k: nat)
    requires ValidPlan(p) && Shaped(p, m) && HasNext(m) && m.chain[0].group != []
    ensures StageId(m) == Indexed(Root(u), k + 1) && u in p.flows && p.flows[u].ChainFlow? && k < |p.flows[u].stages|
    ensures m.id == if p.flows[u].stages[k].group == [] then Indexed(Root(u), k) else Callback(Indexed(Root(u), k))
  {
    NextNewborn(p, m);
    match m.id {
      case Indexed(Root(v), n) => RootOfDerived(v, n, 0); u, k := v, n;
      case Callback(Indexed(Root(v), n)) => RootOfDerived(v, n, 0); u, k := v, n;
      case Indexed(Member(Root(v), j), i) => LinkNewborn(p, m, v, j, i);
      case _ =>
    }
  }

  /** Nobody drains a stage while another holder of its predecessor stages it. */
  lemma StagedIsUnread(p: Plan, w: World, wid: nat, j: nat)
    requires ValidPlan(p) && WorkersShaped(p, w.workers) && Alone(w) && wid in w.workers && !w.workers[wid].phase.DrainReading?
    requires HasNext(w.workers[wid].msg) && w.workers[wid].msg.chain[0].group != []
    ensures Unread(w, Member(StageId(w.workers[wid].msg), j))
  {
    forall i | Reads(w, i, Member(StageId(w.workers[wid].msg), j)) ensures false {
      assert WorkerShaped(p, w.workers[i]) && WorkerShaped(p, w.workers[wid]);
      OnePredecessor(p, w.workers[i].msg, w.workers[wid].msg);
    }
  }

  lemma StageOneFrom(p: Plan, w: World, wid: nat, at: int, v: World)
    requires ValidPlan(p) && SInv(p, w) && LInv(p, w) && wid in w.workers && HasNext(w.workers[wid].msg)
    requires w.workers[wid].phase.Staging? && w.workers[wid].phase.j < |w.workers[wid].msg.chain[0].group|
    requires var m, j := w.workers[wid].msg, w.workers[wid].phase.j;
             v.queues == CreateTask(w, MemberMessage(m, j), m.chain[0].group[j].delay, at).queues
    requires wid in v.workers && v.workers == w.workers[wid := v.workers[wid]] && WorkerFrom(p, w.workers[wid], v.workers[wid])
    ensures LInv(p, v)
  {
    var m, j := w.workers[wid].msg, w.workers[wid].phase.j;
    StagedIsUnread(p, w, wid, j);
    CreateFrom(p, w, w, MemberMessage(m, j), m.chain[0].group[j].delay, at, v);
    OneWorkerFrom(p, w, v, wid);
    Framed(p, w, v);
  }

  lemma StagingFrom(p: Plan, w: World, wid: nat, at: int, v: World)
    requires ValidPlan(p) && SInv(p, w) && LInv(p, w) && wid in w.workers && CanAdvance(w, w.workers[wid])
    requires w.workers[wid].phase.Staging? && v == AdvanceWorker(w, wid, at)
    ensures LInv(p, v)
  {
    var m, j, listed := w.workers[wid].msg, w.workers[wid].phase.j, w.workers[wid].phase.listed;
    MemberIs(w, wid, at);
    if j < |m.chain[0].group| && !(listed.Some? && Member(StageId(m), j) !in listed.value) {
      StageOneFrom(p, w, wid, at, v);
    } else {
      SameFrom(p, w, v);
      OneWorkerFrom(p, w, v, wid);
      Framed(p, w, v);
    }
  }

  lemma DrainedFrom(p: Plan, w: World, wid: nat, at: int, v: World)
    requires LInv(p, w) && wid in w.workers && CanAdvance(w, w.workers[wid])
    requires w.workers[wid].phase.DrainReporting? && v == AdvanceWorker(w, wid, at)
    ensures LInv(p, v)
  {
    DrainReportIs(w, wid, at);
    ReportMemberFrame(w, w.workers[wid].phase.stored, at);
    ReportFrom(p, w, w.workers[wid].phase.stored, at, v);
    OneWorkerFrom(p, w, v, wid);
    Framed(p, w, v);
  }

  /** A step that only moves one worker to a phase other than the second read of a drain. */
  lemma PhaseFrom(p: Plan, w: World, wid: nat, ph: Phase, v: World)
    requires LInv(p, w) && wid in w.workers && !ph.DrainReading? && v.queues == w.queues
    requires v.workers == w.workers[wid := w.workers[wid].(phase := ph)]
    ensures LInv(p, v)
  {
    SameFrom(p, w, v);
    OneWorkerFrom(p, w, v, wid);
    Framed(p, w, v);
  }

  /** A completed member has its result wherever its message is. */
  lemma CompletedIsClean(p: Plan, w: World, queue: string, id: Id)
    requires QueuesOk(p, w) && LInv(p, w) && RootOf(id) in p.flows
    requires SaysCompleted(w, queue, id) && HasMessage(w, queue, id)
    ensures CleanAt(p, w, id)
  {
    assert BodyOk(p, queue, id, w.queues[queue].hash[id]);
    forall name | HasMessage(w, name, id) ensures HasItsResult(p, MessageOf(w, name, id)) {
      assert BodyOk(p, name, id, w.queues[name].hash[id]);
      BirthId(p, id);
    }
    forall i | i in w.workers && w.workers[i].msg.id == id ensures HasItsResult(p, w.workers[i].msg) {
      assert FreshAt(p, w, i);
    }
  }

  /** From the first read of a drain to the second. */
  lemma NowReading(p: Plan, w: World, wid: nat, ph: Phase)
    requires LInv(p, w) && wid in w.workers && ph.DrainReading?
    requires HasNext(w.workers[wid].msg) ==> CleanAt(p, w, Member(StageId(w.workers[wid].msg), ph.j))
    ensures LInv(p, SetPhase(w, wid, ph))
  {
    var v := SetPhase(w, wid, ph);
    forall i | i in v.workers ensures FreshAt(p, v, i) {
      assert FreshAt(p, w, i);
      forall name ensures SaysCompleted(v, name, v.workers[i].msg.id) == SaysCompleted(w, name, w.workers[i].msg.id) {}
    }
    forall i, id | Reads(v, i, id) ensures CleanAt(p, v, id) {
      if i != wid { assert Reads(w, i, id); }
      SameClean(p, w, v, id);
    }
  }

  lemma SameClean(p: Plan, w: World, v: World, id: Id)
    requires CleanAt(p, w, id) && v.queues == w.queues
    requires forall i {:trigger i in v.workers} :: i in v.workers ==> i in w.workers && v.workers[i].msg == w.workers[i].msg
    ensures CleanAt(p, v, id)
  {
    forall name | HasMessage(v, name, id) ensures HasItsResult(p, MessageOf(v, name, id)) { assert HasMessage(w, name, id); }
  }

  lemma FoundCompleted(p: Plan, w: World, m: TaskMessage, j: nat)
    requires ValidPlan(p) && SInv(p, w) && QueuesOk(p, w) && LInv(p, w) && Shaped(p, m) && HasNext(m) && j < |m.chain[0].group|
    requires SaysCompleted(w, MemberMessage(m, j).queue, MemberMessage(m, j).id)
    ensures CleanAt(p, w, Member(StageId(m), j))
  {
    var member := MemberMessage(m, j);
    NextNewborn(p, m);
    assert Newborn(p, member);
    BirthRoot(p, member.id);
    assert BodyShaped(p, member.queue, member.id, w.queues[member.queue].hash[member.id]);
    CompletedIsClean(p, w, member.queue, member.id);
  }

  lemma DrainIs(w: World, wid: nat, at: int)
    requires wid in w.workers && CanAdvance(w, w.workers[wid]) && w.workers[wid].phase.Draining?
    ensures var m, j, listed := w.workers[wid].msg, w.workers[wid].phase.j, w.workers[wid].phase.listed;
            AdvanceWorker(w, wid, at) ==
              SetPhase(w, wid, if SaysCompleted(w, MemberMessage(m, j).queue, MemberMessage(m, j).id)
                               then DrainReading(j, listed) else Staging(j + 1, listed))
  {
  }

  lemma DrainingTo(p: Plan, w: World, wid: nat, j: nat, listed: Option<set<Id>>, v: World)
    requires ValidPlan(p) && SInv(p, w) && QueuesOk(p, w) && LInv(p, w) && wid in w.workers
    requires HasNext(w.workers[wid].msg) && j < |w.workers[wid].msg.chain[0].group|
    requires var member := MemberMessage(w.workers[wid].msg, j);
             v == SetPhase(w, wid, if SaysCompleted(w, member.queue, member.id) then DrainReading(j, listed) else Staging(j + 1, listed))
    ensures LInv(p, v)
  {
    var member := MemberMessage(w.workers[wid].msg, j);
    if SaysCompleted(w, member.queue, member.id) {
      assert WorkerShaped(p, w.workers[wid]);
      FoundCompleted(p, w, w.workers[wid].msg, j);
      NowReading(p, w, wid, DrainReading(j, listed));
    } else {
      PhaseFrom(p, w, wid, Staging(j + 1, listed), v);
    }
  }

  lemma DrainingFrom(p: Plan, w: World, wid: nat, at: int, v: World)
    requires ValidPlan(p) && SInv(p, w) && QueuesOk(p, w) && LInv(p, w) && wid in w.workers && CanAdvance(w, w.workers[wid])
    requires w.workers[wid].phase.Draining? && v == AdvanceWorker(w, wid, at)
    ensures LInv(p, v)
  {
    DrainIs(w, wid, at);
    DrainingTo(p, w, wid, w.workers[wid].phase.j, w.workers[wid].phase.listed, v);
  }

  lemma AdvanceFrom(p: Plan, w: World, wid: nat, at: int, v: World)
    requires ValidPlan(p) && SInv(p, w) && QueuesOk(p, w) && LInv(p, w) && wid in w.workers && CanAdvance(w, w.workers[wid])
    requires v == AdvanceWorker(w, wid, at)
    ensures LInv(p, v)
  {
    match w.workers[wid].phase {
      case Succeeded => SucceededFrom(p, w, wid, at, v);
      case Listing => PhaseFrom(p, w, wid, v.workers[wid].phase, v);
      case Staging(_, _) => StagingFrom(p, w, wid, at, v);
      case Draining(_, _) => DrainingFrom(p, w, wid, at, v);
      case DrainReading(_, _) => DrainReadIs(w, wid, at); PhaseFrom(p, w, wid, v.workers[wid].phase, v);
      case DrainReporting(_, _, _) => DrainedFrom(p, w, wid, at, v);
    }
  }

  // ----- every other step -----

  lemma LeftFrom(p: Plan, w: World, wid: nat, v: World)
    requires v.workers == w.workers - {wid}
    ensures WorkersFrom(p, w, v)
  {
  }

  lemma HolderHasResult(p: Plan, w: World, wid: nat)
    requires LInv(p, w) && wid in w.workers && !Unread(w, w.workers[wid].msg.id)
    ensures HasItsResult(p, w.workers[wid].msg)
  {
    var i :| Reads(w, i, w.workers[wid].msg.id);
    assert CleanAt(p, w, w.workers[wid].msg.id);
  }

  /** A worker writes its message back and leaves: whoever is about to read it finds the result. */
  lemma MoveFrom(p: Plan, w: World, wid: nat, m: TaskMessage, z: ZSet, at: int, v: World)
    requires LInv(p, w) && wid in w.workers && m.id == w.workers[wid].msg.id && m.result == w.workers[wid].msg.result
    requires v.workers == w.workers - {wid} && v.queues == MoveTask(w, wid, m, z, at).queues
    ensures LInv(p, v)
  {
    if !Unread(w, m.id) { HolderHasResult(p, w, wid); }
    RunFrom(p, w, m.queue, Move(w.workers[wid].entry, m, z, at), v);
    LeftFrom(p, w, wid, v);
    Framed(p, w, v);
  }

  lemma DropFrom(p: Plan, w: World, wid: nat, v: World)
    requires LInv(p, w) && wid in w.workers && v.workers == w.workers - {wid} && v.queues == DropTask(w, wid).queues
    ensures LInv(p, v)
  {
    RunFrom(p, w, w.workers[wid].msg.queue, Finish(w.workers[wid].entry, w.workers[wid].msg.id), v);
    LeftFrom(p, w, wid, v);
    Framed(p, w, v);
  }

  lemma EndFrom(p: Plan, w: World, wid: nat, at: int, v: World)
    requires LInv(p, w) && wid in w.workers && (v == FinishWorker(w, wid, at) || v == ReclaimWorker(w, wid, at))
    ensures LInv(p, v)
  {
    var m := w.workers[wid].msg;
    if v == FinishWorker(w, wid, at) {
      if m.retention > 0 { MoveFrom(p, w, wid, m, ZCompleted, at + m.retention, v); } else { DropFrom(p, w, wid, v); }
    } else if m.retried >= m.maxRetry {
      MoveFrom(p, w, wid, m, ZArchived, at, v);
    } else {
      MoveFrom(p, w, wid, m.(retried := m.retried + 1), ZRetry, at, v);
    }
  }

  lemma RetireFrom(p: Plan, w: World, wid: nat, at: int, v: World)
    requires LInv(p, w) && wid in w.workers && w.workers[wid].phase.Failed? && v == RetireWorker(w, wid, at)
    ensures LInv(p, v)
  {
    var m := w.workers[wid].msg;
    RetireIs(w, wid, at);
    if v == MoveTask(w, wid, m, ZArchived, at) {
      MoveFrom(p, w, wid, m, ZArchived, at, v);
    } else if v == MoveTask(w, wid, m.(retried := m.retried + 1), ZRetry, at) {
      MoveFrom(p, w, wid, m.(retried := m.retried + 1), ZRetry, at, v);
    } else {
      DropFrom(p, w, wid, v);
    }
  }

  lemma LaunchFrom(p: Plan, w: World, op: Op, v: World)
    requires LInv(p, w) && (op.Enqueue? || op.Schedule?) && !(op.msg.id.Member? && op.msg.id.parent.Indexed?)
    requires v.queues == Run(w, op.msg.queue, op).queues && v.workers == w.workers
    ensures LInv(p, v)
  {
    UnreadKind(w, op.msg.id);
    RunFrom(p, w, op.msg.queue, op, v);
    Framed(p, w, v);
  }

  /** Tasks of other programs are neither held nor read here. */
  lemma ForeignUnread(p: Plan, w: World, id: Id)
    requires ValidPlan(p) && WorkersShaped(p, w.workers) && RootOf(id) !in p.flows
    ensures Unread(w, id) && forall i :: i in w.workers ==> w.workers[i].msg.id != id
  {
    forall i | i in w.workers ensures w.workers[i].msg.id != id && !Reads(w, i, id) {
      assert WorkerShaped(p, w.workers[i]);
      BirthRoot(p, w.workers[i].msg.id);
      if Reads(w, i, id) {
        NextNewborn(p, w.workers[i].msg);
        assert Newborn(p, MemberMessage(w.workers[i].msg, w.workers[i].phase.j));
        BirthRoot(p, id);
      }
    }
  }

  lemma EnvFrom(p: Plan, w: World, name: string, op: Op, v: World)
    requires ValidPlan(p) && SInv(p, w) && LInv(p, w) && ForeignOp(p, op) && v == Run(w, name, op)
    ensures LInv(p, v)
  {
    if Written(op).Some? { ForeignUnread(p, w, op.msg.id); }
    RunFrom(p, w, name, op, v);
    Framed(p, w, v);
  }

  lemma FetchedFresh(p: Plan, w: World, name: string, id: Id, v: World, wid: nat)
    requires QueuesOk(p, w) && SInv(p, w) && HasMessage(w, name, id) && RootOf(id) in p.flows && v.queues == w.queues
    requires wid in v.workers && v.workers[wid].msg == MessageOf(w, name, id)
    ensures v.workers[wid].msg.id == id && FreshAt(p, v, wid)
  {
    assert BodyOk(p, name, id, w.queues[name].hash[id]);
    forall n | SaysCompleted(v, n, id) ensures HasItsResult(p, v.workers[wid].msg) {
      assert BodyShaped(p, n, id, w.queues[n].hash[id]) && BodyOk(p, n, id, w.queues[n].hash[id]);
      BirthId(p, id);
    }
  }

  /** A task that is about to be read is handed out with its result. */
  lemma FetchedClean(p: Plan, w: World, wid: nat, x: Worker, name: string, id: Id)
    requires CleanAt(p, w, id) && HasMessage(w, name, x.msg.id) && MessageOf(w, name, x.msg.id) == x.msg
    ensures CleanAt(p, w.(workers := w.workers[wid := x]), id)
  {
    var v := w.(workers := w.workers[wid := x]);
    forall n | HasMessage(v, n, id) ensures HasItsResult(p, MessageOf(v, n, id)) { assert HasMessage(w, n, id); }
  }

  lemma NewWorkerFrom(p: Plan, w: World, wid: nat, x: Worker, name: string)
    requires LInv(p, w) && wid !in w.workers && x.phase.Running? && HasMessage(w, name, x.msg.id) && MessageOf(w, name, x.msg.id) == x.msg
    requires forall i :: i in w.workers ==> w.workers[i].msg.id != x.msg.id
    requires FreshAt(p, w.(workers := w.workers[wid := x]), wid)
    ensures LInv(p, w.(workers := w.workers[wid := x]))
  {
    var v := w.(workers := w.workers[wid := x]);
    forall i | i in v.workers ensures FreshAt(p, v, i) {
      if i != wid {
        assert FreshAt(p, w, i);
        forall n ensures SaysCompleted(v, n, v.workers[i].msg.id) == SaysCompleted(w, n, w.workers[i].msg.id) {}
      }
    }
    forall i, id | Reads(v, i, id) ensures CleanAt(p, v, id) {
      assert Reads(w, i, id);
      FetchedClean(p, w, wid, x, name, id);
    }
  }

  lemma FetchFrom(p: Plan, w: World, e: Event)
    requires QueuesOk(p, w) && SInv(p, w) && LInv(p, w) && e.Fetch? && Enabled(p, w, e) && Leased(w, e)
    ensures LInv(p, Step(p, w, e))
  {
    assert HasMessage(w, e.queue, e.id);
    var x := Worker(e.entry, MessageOf(w, e.queue, e.id), Running);
    FetchedFresh(p, w, e.queue, e.id, w.(workers := w.workers[e.wid := x]), e.wid);
    NewWorkerFrom(p, w, e.wid, x, e.queue);
  }

  lemma HandlerFrom(p: Plan, w: World, e: Event)
    requires Inv(p, w) && LInv(p, w) && Enabled(p, w, e) && (e.HandlerOk? || e.HandlerErr? || e.Again?)
    ensures LInv(p, Step(p, w, e))
  {
    var v, x := Step(p, w, e), w.workers[e.wid];
    assert WorkerOk(p, x);
    if e.HandlerOk? { ResultOk(p, x.msg); }
    SameFrom(p, w, v);
    OneWorkerFrom(p, w, v, e.wid);
    Framed(p, w, v);
  }

  lemma LaunchStepFrom(p: Plan, w: World, e: Event)
    requires LInv(p, w) && Enabled(p, w, e) && (e.LaunchChain? || e.LaunchMember?)
    ensures LInv(p, Step(p, w, e))
  {
    BirthId(p, if e.LaunchChain? then ChainStart(e.u) else MemberStart(p.flows[e.u], e.u, e.j));
    LaunchFrom(p, w, e.op, Step(p, w, e));
  }

  lemma QuietFrom(p: Plan, w: World, e: Event)
    requires LInv(p, w) && Enabled(p, w, e) && (e.LaunchGroup? || e.TimePasses? || e.Vanish?)
    ensures LInv(p, Step(p, w, e))
  {
    SameFrom(p, w, Step(p, w, e));
    Framed(p, w, Step(p, w, e));
  }

  lemma StepFrom(p: Plan, w: World, e: Event)
    requires ValidPlan(p) && SInv(p, w) && Inv(p, w) && LInv(p, w) && Enabled(p, w, e) && Leased(w, e)
    ensures LInv(p, Step(p, w, e))
  {
    match e {
      case LaunchChain(_, _) => LaunchStepFrom(p, w, e);
      case LaunchGroup(_) => QuietFrom(p, w, e);
      case LaunchMember(_, _, _) => LaunchStepFrom(p, w, e);
      case Env(queue, op) => EnvFrom(p, w, queue, op, Step(p, w, e));
      case TimePasses(_) => QuietFrom(p, w, e);
      case Fetch(_, _, _, _) => FetchFrom(p, w, e);
      case HandlerOk(_) => HandlerFrom(p, w, e);
      case HandlerErr(_, _) => HandlerFrom(p, w, e);
      case Again(_) => HandlerFrom(p, w, e);
      case Advance(wid, at) => AdvanceFrom(p, w, wid, at, Step(p, w, e));
      case Done(wid, at) => EndFrom(p, w, wid, at, Step(p, w, e));
      case Retire(wid, at) => RetireFrom(p, w, wid, at, Step(p, w, e));
      case Reclaim(wid, at) => EndFrom(p, w, wid, at, Step(p, w, e));
      case Vanish(_) => QuietFrom(p, w, e);
    }
  }

  /** While leases hold, the message a drain reads has its result. */
  lemma LeasedReads(p: Plan, w: World, e: Event)
    requires LInv(p, w)
    ensures ReadsResult(p, w, e)
  {
    if e.Advance? && e.wid in w.workers && w.workers[e.wid].phase.DrainReading? && CanAdvance(w, w.workers[e.wid]) {
      var x := w.workers[e.wid];
      var member := MemberMessage(x.msg, x.phase.j);
      assert Reads(w, e.wid, member.id);
      if ReadBy(w, x).Some? { assert HasMessage(w, member.queue, member.id); }
    }
  }

  // ----- whole runs -----

  ghost predicate LeasedRun(p: Plan, ws: seq<World>, es: seq<Event>) {
    IsRun(p, ws, es) && forall k :: 0 <= k < |es| ==> Leased(ws[k], es[k]) && InTime(ws[k], es[k])
  }

  lemma {:induction false} AlwaysLInv(p: Plan, ws: seq<World>, es: seq<Event>, k: nat)
    requires ValidPlan(p) && NoRetainedMidLinks(p) && LeasedRun(p, ws, es) && k < |ws|
    ensures Inv(p, ws[k]) && LInv(p, ws[k])
  {
    if k > 0 {
      AlwaysLInv(p, ws, es, k - 1);
      AlwaysShaped(p, ws, es, k - 1);
      LeasedReads(p, ws[k - 1], es[k - 1]);
      StepInv(p, ws[k - 1], es[k - 1]);
      StepFrom(p, ws[k - 1], es[k - 1]);
    }
  }

  /** Workflow meaning is preserved: in every run whose leases hold and whose result HASHes
      do not expire before their SETs, every handler call is a call of the direct evaluation
      of its workflow. */
  lemma MeaningPreserved(p: Plan, ws: seq<World>, es: seq<Event>, k: nat, call: Input)
    requires ValidPlan(p) && NoRetainedMidLinks(p) && LeasedRun(p, ws, es) && k < |ws| && call in ws[k].log
    ensures RootOf(call.id) in p.flows && CalledBy(p.h, RootOf(call.id), p.flows[RootOf(call.id)], call)
  {
    AlwaysLInv(p, ws, es, k);
    BirthCalled(p, call.id);
  }
}
