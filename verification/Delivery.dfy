/** What is stored is also delivered: a task of a workflow that was created and is not settled
    has its message stored with its tail, and an entry of the stream or of a ZSET leads to it. */
module Delivery {
  import opened Ids
  import opened Base
  import opened Store
  import opened GroupState
  import opened Flow
  import opened World
  import opened Shape
  import opened Continuity
  import StoreRuns

  ghost predicate InStream(q: Queue, id: Id) {
    StoreRuns.HasEntry(q, {}, id)
  }

  /** The stream or a ZSET leads to the task. */
  ghost predicate Referenced(q: Queue, id: Id) {
    InStream(q, id) || InSomeZSet(q, id)
  }

  ghost predicate EntriesOk(q: Queue) {
    forall e :: e in q.stream ==> e < q.nextEntry
  }

  /** An acknowledgement is of the task's own entry, and an orphan's entry is dropped only while
      nothing is stored that it alone leads to. */
  ghost predicate AcksOwn(q: Queue, op: Op) {
    match op
    case DropOrphan(entry) => entry in q.stream && q.stream[entry] in q.hash ==> Referenced(XAckDel(q, entry), q.stream[entry])
    case Requeue(entry, id) => entry in q.stream ==> q.stream[entry] == id
    case Finish(entry, id) => entry in q.stream ==> q.stream[entry] == id
    case Move(entry, msg, _, _) => entry in q.stream ==> q.stream[entry] == msg.id
    case _ => true
  }

  // ----- one queue -----

  lemma KeepsEntry(q: Queue, op: Op, entry: nat, id: Id)
    requires EntriesOk(q) && entry in q.stream && q.stream[entry] == id
    requires (op.DropOrphan? || op.Requeue? || op.Finish? || op.Move?) ==> op.entry != entry
    ensures entry in Apply(q, op).stream && Apply(q, op).stream[entry] == id
  {
  }

  lemma ForwardKeepsZSet(q: Queue, z: ZSet, ids: seq<Id>, id: Id)
    requires InSomeZSet(q, id)
    ensures InSomeZSet(ForwardAll(q, z, ids), id) || InStream(ForwardAll(q, z, ids), id)
  {
    if id in ids { ForwardedIsInStream(q, z, ids, id); }
  }

  lemma RerunKeepsZSet(q: Queue, i: Id, id: Id, r: Queue)
    requires InSomeZSet(q, id) && id in q.hash && r == Apply(q, RunTask(i))
    ensures InSomeZSet(r, id) || InStream(r, id)
  {
    if i == id { assert r.stream[q.nextEntry] == id; }
  }

  lemma KeepsZSet(q: Queue, op: Op, id: Id, r: Queue)
    requires InSomeZSet(q, id) && id in q.hash && !Removes(op, id) && r == Apply(q, op)
    ensures InSomeZSet(r, id) || InStream(r, id)
  {
    if op.Forward? { ForwardKeepsZSet(q, op.z, op.ids, id); }
    else if op.RunTask? { RerunKeepsZSet(q, op.id, id, r); }
    else if Written(op).Some? { WriteKeepsZSet(q, op, id); }
    else { OtherKeepsZSet(q, op, id); }
  }

  lemma OtherKeepsZSet(q: Queue, op: Op, id: Id)
    requires InSomeZSet(q, id) && !Removes(op, id) && Written(op).None? && !op.Forward? && !op.RunTask?
    ensures InSomeZSet(Apply(q, op), id)
  {
  }

  lemma WriteKeepsZSet(q: Queue, op: Op, id: Id)
    requires InSomeZSet(q, id) && Written(op).Some?
    ensures InSomeZSet(Apply(q, op), id) || InStream(Apply(q, op), id)
  {
    if op.Enqueue? || op.EnqueueUnique? || op.EnqueuePeriodic? { PutInStream(q, op, id); }
  }

  lemma PutInStream(q: Queue, op: Op, id: Id)
    requires InSomeZSet(q, id) && (op.Enqueue? || op.EnqueueUnique? || op.EnqueuePeriodic?)
    ensures InSomeZSet(Apply(q, op), id) || InStream(Apply(q, op), id)
  {
    if op.msg.id == id && Apply(q, op) != q { assert Apply(q, op).stream[q.nextEntry] == id; }
  }

  lemma ForwardedIsInStream(q: Queue, z: ZSet, ids: seq<Id>, id: Id)
    requires id in ids
    ensures InStream(ForwardAll(q, z, ids), id)
  {
    var i :| 0 <= i < |ids| && ids[i] == id;
    assert ForwardAll(q, z, ids).stream[q.nextEntry + i] == id;
  }

  /** No operation leaves a stored task without a reference. */
  lemma ApplyReferenced(q: Queue, op: Op, id: Id)
    requires EntriesOk(q) && AcksOwn(q, op) && id in q.hash && Referenced(q, id) && !Removes(op, id)
    ensures Referenced(Apply(q, op), id)
  {
    if InSomeZSet(q, id) {
      KeepsZSet(q, op, id, Apply(q, op));
    } else {
      var e :| e in q.stream && q.stream[e] == id;
      if (op.DropOrphan? || op.Requeue? || op.Move?) && op.entry == e {
        if op.Requeue? { assert Apply(q, op).stream[q.nextEntry] == id; }
      } else {
        KeepsEntry(q, op, e, id);
      }
    }
  }

  lemma ApplyEntries(q: Queue, op: Op)
    requires EntriesOk(q)
    ensures EntriesOk(Apply(q, op)) && q.nextEntry <= Apply(q, op).nextEntry
  {
  }

  lemma ApplyNames(q: Queue, op: Op, entry: nat, id: Id)
    requires EntriesOk(q) && StoreRuns.Faithful(q, entry, id)
    ensures StoreRuns.Faithful(Apply(q, op), entry, id)
  {
  }

  // ----- the invariant -----

  ghost predicate QueuesEntered(w: World) {
    forall name :: name in w.queues ==> EntriesOk(w.queues[name])
  }

  ghost predicate WorkersEntered(w: World) {
    forall i :: i in w.workers ==> StoreRuns.Faithful(QueueOf(w, w.workers[i].msg.queue), w.workers[i].entry, w.workers[i].msg.id)
  }

  ghost predicate LedTo(p: Plan, w: World, id: Id) {
    Created(w, id) && id !in w.settled && Birth(p, id).Some? ==> Referenced(QueueOf(w, Birth(p, id).value.queue), id)
  }

  ghost predicate RInv(p: Plan, w: World) {
    QueuesEntered(w) && WorkersEntered(w) && forall id :: LedTo(p, w, id)
  }

  /** A task is handed out with the entry that names it, and acknowledged with its own. */
  ghost predicate Delivers(w: World, e: Event) {
    match e
    case Fetch(_, queue, id, entry) => entry in QueueOf(w, queue).stream && QueueOf(w, queue).stream[entry] == id
    case Env(name, op) => AcksOwn(QueueOf(w, name), op)
    case _ => true
  }

  // ----- steps -----

  lemma QueueEntered(w: World, name: string)
    requires QueuesEntered(w)
    ensures EntriesOk(QueueOf(w, name))
  {
  }

  lemma RunEntered(w: World, name: string, op: Op, v: World)
    requires QueuesEntered(w) && v.queues == Run(w, name, op).queues
    ensures QueuesEntered(v)
    ensures forall queue, entry, id :: StoreRuns.Faithful(QueueOf(w, queue), entry, id) ==> StoreRuns.Faithful(QueueOf(v, queue), entry, id)
  {
    QueueEntered(w, name);
    ApplyEntries(QueueOf(w, name), op);
    forall queue, entry, id | StoreRuns.Faithful(QueueOf(w, queue), entry, id) ensures StoreRuns.Faithful(QueueOf(v, queue), entry, id) {
      if queue == name { ApplyNames(QueueOf(w, name), op, entry, id); }
    }
  }

  lemma RunLedTo(p: Plan, w: World, name: string, op: Op, v: World, id: Id)
    requires QueuesEntered(w) && Kept(p, w) && LedTo(p, w, id) && v.queues == Run(w, name, op).queues
    requires Created(w, id) && id !in w.settled && Birth(p, id).Some?
    requires AcksOwn(QueueOf(w, name), op) && !Removes(op, id)
    ensures Referenced(QueueOf(v, Birth(p, id).value.queue), id)
  {
    assert KeptAt(p, w, id);
    BirthId(p, id);
    QueueEntered(w, name);
    if Birth(p, id).value.queue == name { ApplyReferenced(QueueOf(w, name), op, id); }
  }

  predicate SameTask(x: Worker, y: Worker) {
    y.entry == x.entry && y.msg.id == x.msg.id && y.msg.queue == x.msg.queue
  }

  /** Workers may have left or moved on. */
  ghost predicate SameTasks(w: World, v: World) {
    forall i {:trigger i in v.workers} :: i in v.workers ==> i in w.workers && SameTask(w.workers[i], v.workers[i])
  }

  /** An operation on a queue, and what it may have brought into being. */
  lemma RunRInv(p: Plan, w: World, name: string, op: Op, v: World)
    requires RInv(p, w) && Kept(p, w) && v.queues == Run(w, name, op).queues && AcksOwn(QueueOf(w, name), op)
    requires w.settled <= v.settled
    requires SameTasks(w, v)
    requires forall id {:trigger Removes(op, id)} :: Birth(p, id).Some? && Removes(op, id) ==> id in v.settled
    requires forall id :: Created(v, id) && !Created(w, id) && Birth(p, id).Some? ==> Referenced(QueueOf(v, Birth(p, id).value.queue), id)
    ensures RInv(p, v)
  {
    RunEntered(w, name, op, v);
    forall id ensures LedTo(p, v, id) {
      assert LedTo(p, w, id);
      if Created(v, id) && id !in v.settled && Birth(p, id).Some? && Created(w, id) { RunLedTo(p, w, name, op, v, id); }
    }
  }

  lemma SameRInv(p: Plan, w: World, v: World)
    requires RInv(p, w) && v.queues == w.queues && w.settled <= v.settled
    requires forall i :: i in v.workers ==> StoreRuns.Faithful(QueueOf(w, v.workers[i].msg.queue), v.workers[i].entry, v.workers[i].msg.id)
    requires forall id :: Created(v, id) && Birth(p, id).Some? ==> Created(w, id)
    ensures RInv(p, v)
  {
    forall id ensures LedTo(p, v, id) { assert LedTo(p, w, id); }
  }

  lemma NewIsReferenced(q: Queue, msg: TaskMessage, delay: int, at: int)
    requires msg.id !in q.hash
    ensures Referenced(Apply(q, if delay > 0 then ScheduleLink(msg, at + delay) else EnqueueLink(msg)), msg.id)
  {
    if delay <= 0 { assert Apply(q, EnqueueLink(msg)).stream[q.nextEntry] == msg.id; }
  }

  /** One task created, whatever else the worker's step does. */
  lemma CreateRInv(p: Plan, w: World, msg: TaskMessage, delay: int, at: int, v: World)
    requires RInv(p, w) && Kept(p, w) && OnlyCreated(p, w) && Newborn(p, msg)
    requires v.queues == CreateTask(w, msg, delay, at).queues && w.settled <= v.settled
    requires forall id :: Created(v, id) && !Created(w, id) ==> id == msg.id && !Exists(w, msg.queue, msg.id)
    requires SameTasks(w, v)
    ensures RInv(p, v)
  {
    SameBirth(p, msg);
    if !Exists(w, msg.queue, msg.id) { NewIsReferenced(QueueOf(w, msg.queue), msg, delay, at); }
    RunRInv(p, w, msg.queue, if delay > 0 then ScheduleLink(msg, at + delay) else EnqueueLink(msg), v);
  }

  lemma CreatedBy(w: World, msg: TaskMessage, delay: int, at: int)
    ensures var v := CreateTask(w, msg, delay, at);
            && v.launched == w.launched && v.workers == w.workers && v.settled == w.settled
            && forall id :: Created(v, id) && !Created(w, id) ==> id == msg.id && !Exists(w, msg.queue, msg.id)
  {
  }

  lemma ReportRInv(p: Plan, w: World, m: TaskMessage, at: int, v: World)
    requires ValidPlan(p) && RInv(p, w) && Kept(p, w) && OnlyCreated(p, w) && Shaped(p, m) && m.groupId.Some? && CanReport(m)
    requires v.queues == ReportMember(w, m, at).queues && w.settled <= v.settled
    requires v.launched == w.launched && v.born == ReportMember(w, m, at).born
    requires SameTasks(w, v)
    ensures RInv(p, v)
  {
    var cb := Exists(w, m.groupCallback.value.queue, Callback(m.groupId.value));
    var o := Report(w.groups, GroupKeyOf(m), SlotOf(m), m.groupIndex, m.groupSize, m.result, cb);
    if o.fires {
      GroupedKnows(p, m, o.collected);
      var u := w.(groups := o.groups);
      CreatedBy(u, CallbackMessage(m, o.collected), m.groupCallback.value.delay, at);
      CreateRInv(p, w, CallbackMessage(m, o.collected), m.groupCallback.value.delay, at, v);
    } else {
      SameRInv(p, w, v);
    }
  }

  /** A step of one worker that leaves the queues alone and creates nothing. */
  lemma PhaseRInv(p: Plan, w: World, wid: nat, v: World)
    requires RInv(p, w) && wid in w.workers && wid in v.workers && v.workers == w.workers[wid := v.workers[wid]]
    requires SameTask(w.workers[wid], v.workers[wid])
    requires v.queues == w.queues && v.launched == w.launched && v.born == w.born && w.settled <= v.settled
    ensures RInv(p, v)
  {
    SameRInv(p, w, v);
  }

  /** A worker creates one task and moves on. */
  lemma CreateStepRInv(p: Plan, w: World, wid: nat, msg: TaskMessage, delay: int, at: int, u: World, v: World)
    requires RInv(p, w) && Kept(p, w) && OnlyCreated(p, w) && Newborn(p, msg) && u == CreateTask(w, msg, delay, at)
    requires wid in w.workers && wid in v.workers && v.workers == w.workers[wid := v.workers[wid]] && SameTask(w.workers[wid], v.workers[wid])
    requires v.queues == u.queues && v.launched == u.launched && v.born == u.born && w.settled <= v.settled
    ensures RInv(p, v)
  {
    CreatedBy(w, msg, delay, at);
    CreateRInv(p, w, msg, delay, at, v);
  }

  lemma LinkRInv(p: Plan, w: World, wid: nat, at: int, v: World)
    requires ValidPlan(p) && RInv(p, w) && Kept(p, w) && OnlyCreated(p, w) && wid in w.workers && WorkerShaped(p, w.workers[wid])
    requires CanAdvance(w, w.workers[wid]) && w.workers[wid].phase.Succeeded? && v == AdvanceWorker(w, wid, at)
    requires w.workers[wid].msg.chain != [] && w.workers[wid].msg.chain[0].group == []
    ensures RInv(p, v)
  {
    var m := w.workers[wid].msg;
    NextNewborn(p, m);
    var u := CreateTask(w, NextMessage(m), m.chain[0].delay, at);
    CreatedBy(w, NextMessage(m), m.chain[0].delay, at);
    assert v == HandOff(u, wid);
    CreateStepRInv(p, w, wid, NextMessage(m), m.chain[0].delay, at, u, v);
  }

  lemma SucceededRInv(p: Plan, w: World, wid: nat, at: int, v: World)
    requires ValidPlan(p) && RInv(p, w) && Kept(p, w) && OnlyCreated(p, w) && wid in w.workers && WorkerShaped(p, w.workers[wid])
    requires CanAdvance(w, w.workers[wid]) && w.workers[wid].phase.Succeeded? && v == AdvanceWorker(w, wid, at)
    requires w.workers[wid].msg.chain == [] || w.workers[wid].msg.chain[0].group != []
    ensures RInv(p, v)
  {
    var m := w.workers[wid].msg;
    if m.chain == [] {
      ReportMemberFrame(w, m, at);
      ReportLaunches(w, m, at);
      ReportRInv(p, w, m, at, v);
    } else {
      StageIs(w, wid, at);
      PhaseRInv(p, w, wid, v);
    }
  }

  lemma StageOneRInv(p: Plan, w: World, wid: nat, m: TaskMessage, j: nat, at: int, v: World)
    requires ValidPlan(p) && RInv(p, w) && Kept(p, w) && OnlyCreated(p, w) && wid in w.workers && w.workers[wid].msg == m
    requires Shaped(p, m) && HasNext(m) && j < |m.chain[0].group|
    requires var u := CreateTask(w, MemberMessage(m, j), m.chain[0].group[j].delay, at);
             wid in u.workers && exists ph {:trigger SetPhase(u, wid, ph)} :: v == SetPhase(u, wid, ph)
    ensures RInv(p, v)
  {
    var u := CreateTask(w, MemberMessage(m, j), m.chain[0].group[j].delay, at);
    NextNewborn(p, m);
    assert Newborn(p, MemberMessage(m, j));
    CreatedBy(w, MemberMessage(m, j), m.chain[0].group[j].delay, at);
    CreateStepRInv(p, w, wid, MemberMessage(m, j), m.chain[0].group[j].delay, at, u, v);
  }

  lemma StagingRInv(p: Plan, w: World, wid: nat, at: int, v: World)
    requires ValidPlan(p) && RInv(p, w) && Kept(p, w) && OnlyCreated(p, w) && wid in w.workers && WorkerShaped(p, w.workers[wid])
    requires CanAdvance(w, w.workers[wid]) && w.workers[wid].phase.Staging? && v == AdvanceWorker(w, wid, at)
    ensures RInv(p, v)
  {
    var m, j, listed := w.workers[wid].msg, w.workers[wid].phase.j, w.workers[wid].phase.listed;
    MemberIs(w, wid, at);
    if j < |m.chain[0].group| && !(listed.Some? && Member(StageId(m), j) !in listed.value) {
      StageOneRInv(p, w, wid, m, j, at, v);
    } else {
      PhaseRInv(p, w, wid, v);
    }
  }

  lemma DrainedRInv(p: Plan, w: World, wid: nat, at: int, v: World)
    requires ValidPlan(p) && RInv(p, w) && Kept(p, w) && OnlyCreated(p, w) && wid in w.workers && WorkerShaped(p, w.workers[wid])
    requires CanAdvance(w, w.workers[wid]) && w.workers[wid].phase.DrainReporting? && v == AdvanceWorker(w, wid, at)
    ensures RInv(p, v)
  {
    DrainReportIs(w, wid, at);
    ReportMemberFrame(w, w.workers[wid].phase.stored, at);
    ReportLaunches(w, w.workers[wid].phase.stored, at);
    ReportRInv(p, w, w.workers[wid].phase.stored, at, v);
  }

  lemma ReportLaunches(w: World, m: TaskMessage, at: int)
    requires CanReport(m)
    ensures ReportMember(w, m, at).launched == w.launched && ReportMember(w, m, at).settled == w.settled
  {
  }

  lemma AdvanceRInv(p: Plan, w: World, wid: nat, at: int, v: World)
    requires ValidPlan(p) && RInv(p, w) && Kept(p, w) && OnlyCreated(p, w) && wid in w.workers && WorkerShaped(p, w.workers[wid])
    requires CanAdvance(w, w.workers[wid]) && v == AdvanceWorker(w, wid, at)
    ensures RInv(p, v)
  {
    match w.workers[wid].phase {
      case Succeeded =>
        if w.workers[wid].msg.chain != [] && w.workers[wid].msg.chain[0].group == [] { LinkRInv(p, w, wid, at, v); }
        else { SucceededRInv(p, w, wid, at, v); }
      case Staging(_, _) => StagingRInv(p, w, wid, at, v);
      case DrainReporting(_, _, _) => DrainedRInv(p, w, wid, at, v);
      case _ => PhaseRInv(p, w, wid, v);
    }
  }

  lemma LeaveRInv(p: Plan, w: World, wid: nat, op: Op, v: World)
    requires RInv(p, w) && Kept(p, w) && wid in w.workers && v.workers == w.workers - {wid}
    requires op.Finish? || op.Move?
    requires var x := w.workers[wid]; op.entry == x.entry && (if op.Finish? then op.id else op.msg.id) == x.msg.id
    requires v.queues == Run(w, w.workers[wid].msg.queue, op).queues && v.launched == w.launched && v.born == w.born
    requires w.settled <= v.settled && (op.Finish? ==> op.id in v.settled)
    ensures RInv(p, v)
  {
    RunRInv(p, w, w.workers[wid].msg.queue, op, v);
  }

  lemma FinishRInv(p: Plan, w: World, wid: nat, at: int, v: World)
    requires RInv(p, w) && Kept(p, w) && wid in w.workers && v == FinishWorker(w, wid, at)
    ensures RInv(p, v)
  {
    var x := w.workers[wid];
    if x.msg.retention > 0 { LeaveRInv(p, w, wid, Move(x.entry, x.msg, ZCompleted, at + x.msg.retention), v); }
    else { LeaveRInv(p, w, wid, Finish(x.entry, x.msg.id), v); }
  }

  lemma PutAwayRInv(p: Plan, w: World, wid: nat, m: TaskMessage, z: ZSet, at: int, v: World)
    requires RInv(p, w) && Kept(p, w) && wid in w.workers && m == w.workers[wid].msg.(retried := m.retried)
    requires v == MoveTask(w, wid, m, z, at)
    ensures RInv(p, v)
  {
    LeaveRInv(p, w, wid, Move(w.workers[wid].entry, m, z, at), v);
  }

  lemma RetireRInv(p: Plan, w: World, wid: nat, at: int, v: World)
    requires RInv(p, w) && Kept(p, w) && wid in w.workers && w.workers[wid].phase.Failed? && v == RetireWorker(w, wid, at)
    ensures RInv(p, v)
  {
    var x := w.workers[wid];
    RetireIs(w, wid, at);
    if v == Settle(DropTask(w, wid), x.msg.id) { LeaveRInv(p, w, wid, Finish(x.entry, x.msg.id), v); }
    else if v == MoveTask(w, wid, x.msg, ZArchived, at) { PutAwayRInv(p, w, wid, x.msg, ZArchived, at, v); }
    else { PutAwayRInv(p, w, wid, x.msg.(retried := x.msg.retried + 1), ZRetry, at, v); }
  }

  lemma ReclaimRInv(p: Plan, w: World, wid: nat, at: int, v: World)
    requires RInv(p, w) && Kept(p, w) && wid in w.workers && v == ReclaimWorker(w, wid, at)
    ensures RInv(p, v)
  {
    var m := w.workers[wid].msg;
    if m.retried >= m.maxRetry { PutAwayRInv(p, w, wid, m, ZArchived, at, v); }
    else { PutAwayRInv(p, w, wid, m.(retried := m.retried + 1), ZRetry, at, v); }
  }

  lemma LaunchRInv(p: Plan, w: World, op: Op, v: World)
    requires RInv(p, w) && Kept(p, w) && (op.Enqueue? || op.Schedule?) && Newborn(p, op.msg)
    requires v == Run(w, op.msg.queue, op).(launched := w.launched + {op.msg.id})
    ensures RInv(p, v)
  {
    SameBirth(p, op.msg);
    var q := QueueOf(w, op.msg.queue);
    if op.Enqueue? { assert Apply(q, op).stream[q.nextEntry] == op.msg.id; }
    RunRInv(p, w, op.msg.queue, op, v);
  }

  lemma LaunchStepRInv(p: Plan, w: World, e: Event, v: World)
    requires RInv(p, w) && Kept(p, w) && Enabled(p, w, e) && (e.LaunchChain? || e.LaunchMember?)
    requires v == Step(p, w, e)
    ensures RInv(p, v)
  {
    BirthId(p, if e.LaunchChain? then ChainStart(e.u) else MemberStart(p.flows[e.u], e.u, e.j));
    LaunchRInv(p, w, e.op, v);
  }

  lemma LaunchGroupRInv(p: Plan, w: World, e: Event, v: World)
    requires RInv(p, w) && Enabled(p, w, e) && e.LaunchGroup?
    requires v == Step(p, w, e)
    ensures RInv(p, v)
  {
    assert Birth(p, Root(e.u)).None?;
    SameRInv(p, w, v);
  }

  lemma FetchRInv(p: Plan, w: World, e: Event, v: World)
    requires QueuesShaped(p, w.queues) && RInv(p, w) && e.Fetch? && Enabled(p, w, e) && Delivers(w, e)
    requires v == Step(p, w, e)
    ensures RInv(p, v)
  {
    assert e.queue in w.queues && e.id in w.queues[e.queue].hash;
    assert BodyShaped(p, e.queue, e.id, w.queues[e.queue].hash[e.id]);
    QueueEntered(w, e.queue);
    SameRInv(p, w, v);
  }

  lemma EnvRInv(p: Plan, w: World, e: Event, v: World)
    requires RInv(p, w) && Kept(p, w) && e.Env? && Enabled(p, w, e) && Lossless(p, w, e) && Delivers(w, e)
    requires v == Step(p, w, e)
    ensures RInv(p, v)
  {
    RunRInv(p, w, e.queue, e.op, v);
  }

  lemma QuietRInv(p: Plan, w: World, e: Event, v: World)
    requires RInv(p, w) && Enabled(p, w, e)
    requires e.TimePasses? || e.HandlerOk? || e.HandlerErr? || e.Again? || e.Vanish?
    requires v == Step(p, w, e)
    ensures RInv(p, v)
  {
    SameRInv(p, w, v);
  }

  lemma WorkerStepRInv(p: Plan, w: World, e: Event, v: World)
    requires ValidPlan(p) && SInv(p, w) && CInv(p, w) && RInv(p, w) && Enabled(p, w, e)
    requires e.Advance? || e.Done? || e.Retire? || e.Reclaim?
    requires v == Step(p, w, e)
    ensures RInv(p, v)
  {
    match e {
      case Advance(wid, at) => assert WorkerShaped(p, w.workers[wid]); AdvanceRInv(p, w, wid, at, v);
      case Done(wid, at) => FinishRInv(p, w, wid, at, v);
      case Retire(wid, at) => RetireRInv(p, w, wid, at, v);
      case Reclaim(wid, at) => ReclaimRInv(p, w, wid, at, v);
    }
  }

  lemma OutsideRInv(p: Plan, w: World, e: Event, v: World)
    requires QueuesShaped(p, w.queues) && Kept(p, w) && RInv(p, w) && Enabled(p, w, e) && Lossless(p, w, e) && Delivers(w, e)
    requires e.LaunchChain? || e.LaunchGroup? || e.LaunchMember? || e.Env? || e.Fetch?
    requires v == Step(p, w, e)
    ensures RInv(p, v)
  {
    if e.Env? { EnvRInv(p, w, e, v); }
    else if e.Fetch? { FetchRInv(p, w, e, v); }
    else if e.LaunchGroup? { LaunchGroupRInv(p, w, e, v); }
    else { LaunchStepRInv(p, w, e, v); }
  }

  lemma StepRInv(p: Plan, w: World, e: Event, v: World)
    requires ValidPlan(p) && SInv(p, w) && CInv(p, w) && RInv(p, w) && Enabled(p, w, e) && Lossless(p, w, e) && Delivers(w, e)
    requires v == Step(p, w, e)
    ensures RInv(p, v)
  {
    if e.LaunchChain? || e.LaunchGroup? || e.LaunchMember? || e.Env? || e.Fetch? { OutsideRInv(p, w, e, v); }
    else if e.Advance? || e.Done? || e.Retire? || e.Reclaim? { WorkerStepRInv(p, w, e, v); }
    else { QuietRInv(p, w, e, v); }
  }

  ghost predicate DeliveringRun(p: Plan, ws: seq<World>, es: seq<Event>) {
    LosslessRun(p, ws, es) && forall k :: 0 <= k < |es| ==> Delivers(ws[k], es[k])
  }

  lemma {:induction false} AlwaysRInv(p: Plan, ws: seq<World>, es: seq<Event>, k: nat)
    requires ValidPlan(p) && DeliveringRun(p, ws, es) && k < |ws|
    ensures RInv(p, ws[k])
  {
    if k > 0 {
      AlwaysRInv(p, ws, es, k - 1);
      AlwaysShaped(p, ws, es, k - 1);
      AlwaysCInv(p, ws, es, k - 1);
      StepRInv(p, ws[k - 1], es[k - 1], ws[k]);
    }
  }

  /** In every lossless run a task of a workflow that was created and is not settled is stored
      with its whole tail, and the stream or a ZSET leads to it. */
  lemma StoredAndDelivered(p: Plan, ws: seq<World>, es: seq<Event>, n: nat, id: Id)
    requires ValidPlan(p) && DeliveringRun(p, ws, es) && n < |ws|
    requires Birth(p, id).Some? && Created(ws[n], id) && id !in ws[n].settled
    ensures var b := Birth(p, id).value;
            Holds(ws[n], b.queue, id, b.chain) && Referenced(QueueOf(ws[n], b.queue), id)
  {
    AlwaysCInv(p, ws, es, n);
    AlwaysRInv(p, ws, es, n);
    assert KeptAt(p, ws[n], id) && LedTo(p, ws[n], id);
    BirthId(p, id);
  }

  // ----- what it means for a chain -----

  ghost predicate Served(w: World, queue: string, id: Id) {
    Referenced(QueueOf(w, queue), id)
  }

  /** Stage `k` is stored with the rest of the chain, and what is stored is delivered. */
  ghost predicate StageServed(w: World, u: string, stages: seq<ChainLink>, k: nat)
    requires k < |stages|
  {
    var gid := Indexed(Root(u), k);
    if stages[k].group == [] then Holds(w, stages[k].queue, gid, stages[k + 1..]) && Served(w, stages[k].queue, gid)
    else
      || (Holds(w, stages[k].queue, Callback(gid), stages[k + 1..]) && Served(w, stages[k].queue, Callback(gid)))
      || (StagePending(w, u, stages, k) && forall j :: 0 <= j < |stages[k].group| && SlotIn(w, stages[k].queue, gid, j) ==>
            Served(w, stages[k].group[j].queue, Member(gid, j)))
  }

  predicate SlotIn(w: World, queue: string, gid: Id, j: nat) {
    (queue, gid) in w.groups.pending && Member(gid, j) in w.groups.pending[(queue, gid)]
  }

  lemma CarrierServed(p: Plan, w: World, u: string, k: nat)
    requires CInv(p, w) && RInv(p, w) && u in p.flows && p.flows[u].ChainFlow? && k < |p.flows[u].stages|
    requires var id := CarrierId(u, p.flows[u].stages, k); Created(w, id) && id !in w.settled
    ensures StageServed(w, u, p.flows[u].stages, k)
  {
    var id := CarrierId(u, p.flows[u].stages, k);
    CarrierBirth(p, u, k);
    assert KeptAt(p, w, id) && LedTo(p, w, id);
  }

  lemma PendingServed(p: Plan, w: World, u: string, k: nat)
    requires QueuesShaped(p, w.queues) && CInv(p, w) && RInv(p, w) && u in p.flows && p.flows[u].ChainFlow? && k < |p.flows[u].stages|
    requires p.flows[u].stages[k].group != []
    requires var gid := Indexed(Root(u), k);
             var key := (p.flows[u].stages[k].queue, gid);
             && !Created(w, Callback(gid)) && StageOpen(w, key)
             && forall j :: 0 <= j < |p.flows[u].stages[k].group| ==> MemberThere(w, key, j)
    ensures StageServed(w, u, p.flows[u].stages, k)
  {
    PendingStored(p, w, u, k);
    var stages, gid := p.flows[u].stages, Indexed(Root(u), k);
    forall j | 0 <= j < |stages[k].group| && SlotIn(w, stages[k].queue, gid, j) ensures Served(w, stages[k].group[j].queue, Member(gid, j)) {
      assert MemberThere(w, (stages[k].queue, gid), j);
      MemberStored(p, w, u, k, j);
      RootOfDerived(u, k, j);
      assert LedTo(p, w, Member(gid, j));
    }
  }

  lemma {:induction false} TailServed(p: Plan, w: World, u: string, k: nat)
    requires QueuesShaped(p, w.queues) && CInv(p, w) && RInv(p, w) && u in p.flows && p.flows[u].ChainFlow? && k < |p.flows[u].stages|
    requires Created(w, CarrierId(u, p.flows[u].stages, k))
    ensures var stages := p.flows[u].stages;
            || CarrierId(u, stages, |stages| - 1) in w.settled
            || exists i :: (if CarrierId(u, stages, k) in w.settled then k + 1 else k) <= i < |stages| && StageServed(w, u, stages, i)
    decreases |p.flows[u].stages| - k
  {
    var stages := p.flows[u].stages;
    var id := CarrierId(u, stages, k);
    if id !in w.settled {
      CarrierServed(p, w, u, k);
    } else if k + 1 < |stages| {
      CarrierBirth(p, u, k);
      assert SettledHanded(p, w, id);
      if stages[k + 1].group != [] && !Created(w, Callback(Indexed(Root(u), k + 1))) {
        PendingServed(p, w, u, k + 1);
      } else {
        TailServed(p, w, u, k + 1);
      }
    }
  }

  /** Chain continuity with delivery: for every stage whose task was created, the chain has come
      to the end of its last stage, or that stage or a later one is stored with all the stages
      after it and led to; and once the stage is settled, a later one is. */
  lemma ChainDelivered(p: Plan, ws: seq<World>, es: seq<Event>, n: nat, u: string, k: nat)
    requires ValidPlan(p) && DeliveringRun(p, ws, es) && n < |ws|
    requires u in p.flows && p.flows[u].ChainFlow? && k < |p.flows[u].stages|
    requires Created(ws[n], CarrierId(u, p.flows[u].stages, k))
    ensures var w, stages := ws[n], p.flows[u].stages;
            || CarrierId(u, stages, |stages| - 1) in w.settled
            || exists i :: (if CarrierId(u, stages, k) in w.settled then k + 1 else k) <= i < |stages| && StageServed(w, u, stages, i)
  {
    AlwaysShaped(p, ws, es, n);
    AlwaysCInv(p, ws, es, n);
    AlwaysRInv(p, ws, es, n);
    TailServed(p, ws[n], u, k);
  }
}
