/** The workflow protocol as a machine of atomic Redis steps.

    Any number of servers process tasks of the planned workflows. A worker starts from a
    message it read from a task hash (`Fetch`, at any time and any number of times: first
    deliveries, retries, reclaims after a lapsed lease and operator re-runs all look alike)
    and then moves through `process`, one Redis call per step, and may vanish between any
    two of them. Everything else that touches the queues happens through `Env`. */
module World {
  import opened Ids
  import opened Base
  import opened Store
  import opened GroupState
  import opened Flow

  datatype Phase =
    | Running
    | Succeeded                                              // handler returned, result set
    | Listing                                                // stage SET existed, about to list it
    | Staging(j: nat, listed: Option<set<Id>>)               // about to create member j
    | Draining(j: nat, listed: Option<set<Id>>)              // member j existed, about to read its state
    | DrainReading(j: nat, listed: Option<set<Id>>)          // it was completed, about to read its message
    | DrainReporting(j: nat, listed: Option<set<Id>>, stored: TaskMessage)
    | HandedOff                                              // successor exists, own tail dropped
    | Reported                                               // group told
    | Failed(skip: bool)

  datatype Worker = Worker(entry: nat, msg: TaskMessage, phase: Phase)

  datatype World = World(
    queues: map<string, Queue>,
    groups: Groups,
    workers: map<nat, Worker>,
    launched: set<Id>,             // what clients have enqueued
    log: set<Input>,               // every handler call made
    born: multiset<Id>,            // tasks of workflows created by servers
    settled: set<Id>)              // tasks whose successor, report or end is recorded

  const START: World := World(map[], NO_GROUPS, map[], {}, {}, multiset{}, {})

  function QueueOf(w: World, name: string): Queue {
    if name in w.queues then w.queues[name] else EMPTY
  }

  function Run(w: World, name: string, op: Op): World {
    w.(queues := w.queues[name := Apply(QueueOf(w, name), op)])
  }

  predicate Exists(w: World, name: string, id: Id) {
    id in QueueOf(w, name).hash
  }

  function BodyOf(w: World, queue: string, id: Id): Option<Body> {
    if Exists(w, queue, id) then Some(QueueOf(w, queue).hash[id]) else None
  }

  function ScoreOf(w: World, queue: string, z: ZSet, id: Id): Option<int> {
    if (z, id) in QueueOf(w, queue).zs then Some(QueueOf(w, queue).zs[(z, id)]) else None
  }

  function EntryAt(w: World, queue: string, entry: nat): Option<Id> {
    if entry in QueueOf(w, queue).stream then Some(QueueOf(w, queue).stream[entry]) else None
  }

  function NextEntry(w: World, queue: string): nat { QueueOf(w, queue).nextEntry }

  ghost predicate SameEntries(w: World, v: World, queue: string) {
    NextEntry(v, queue) == NextEntry(w, queue) && forall e :: EntryAt(v, queue, e) == EntryAt(w, queue, e)
  }

  /** One entry more, for task `id`. */
  ghost predicate NewEntry(w: World, v: World, queue: string, id: Id) {
    && NextEntry(v, queue) == NextEntry(w, queue) + 1
    && forall e :: EntryAt(v, queue, e) == if e == NextEntry(w, queue) then Some(id) else EntryAt(w, queue, e)
  }

  ghost predicate EntryGone(w: World, v: World, queue: string, entry: nat) {
    && NextEntry(v, queue) == NextEntry(w, queue)
    && forall e :: EntryAt(v, queue, e) == if e == entry then None else EntryAt(w, queue, e)
  }

  // ----- messages a worker creates -----

  function NextMessage(m: TaskMessage): TaskMessage
    requires m.chain != [] && m.chainId.Some?
  {
    var l := m.chain[0];
    Plain(Indexed(m.chainId.value, m.chainIndex + 1), l.kind, l.payload, l.queue, l.maxRetry, l.noArchive, l.retention)
      .(chain := m.chain[1..], chainId := m.chainId, chainIndex := m.chainIndex + 1, prevResult := m.result,
        groupId := m.groupId, groupQueue := m.groupQueue, groupCallback := m.groupCallback,
        groupIndex := m.groupIndex, groupSize := m.groupSize, groupMemberId := m.groupMemberId)
  }

  function StageId(m: TaskMessage): Id
    requires m.chainId.Some?
  {
    Indexed(m.chainId.value, m.chainIndex + 1)
  }

  function StageKey(m: TaskMessage): Key
    requires m.chain != [] && m.chainId.Some?
  {
    (m.chain[0].queue, StageId(m))
  }

  function StageSlots(m: TaskMessage): set<Id>
    requires m.chain != [] && m.chainId.Some?
  {
    set j | 0 <= j < |m.chain[0].group| :: Member(StageId(m), j)
  }

  function MemberMessage(m: TaskMessage, j: nat): TaskMessage
    requires m.chain != [] && m.chainId.Some? && j < |m.chain[0].group|
  {
    var l, g := m.chain[0], m.chain[0].group[j];
    Plain(Member(StageId(m), j), g.kind, g.payload, g.queue, g.maxRetry, false, g.retention)
      .(groupId := Some(StageId(m)), groupQueue := l.queue, groupCallback := Some(l.(group := [])),
        groupIndex := j, groupSize := |l.group|, groupCallbackChain := m.chain[1..],
        chainId := m.chainId, chainIndex := m.chainIndex + 1, prevResult := m.result)
  }

  /** A message that can report: it has a callback snapshot living on the group's queue. */
  predicate CanReport(m: TaskMessage) {
    m.groupId.Some? && m.groupCallback.Some? && m.groupQueue == m.groupCallback.value.queue
  }

  function CallbackMessage(m: TaskMessage, collected: seq<Bytes>): TaskMessage
    requires CanReport(m)
  {
    var l := m.groupCallback.value;
    var cb := Plain(Callback(m.groupId.value), l.kind, l.payload, l.queue, l.maxRetry, l.noArchive, l.retention)
      .(groupResults := collected);
    if m.groupCallbackChain == [] then cb
    else cb.(chain := m.groupCallbackChain, chainId := m.chainId, chainIndex := m.chainIndex)
  }

  function GroupKeyOf(m: TaskMessage): Key
    requires CanReport(m)
  {
    (m.groupQueue, m.groupId.value)
  }

  function SlotOf(m: TaskMessage): Id {
    if m.groupMemberId.Some? then m.groupMemberId.value else m.id
  }

  // ----- Redis calls a worker makes -----

  /** Create-if-absent, at once or delayed. */
  function CreateTask(w: World, msg: TaskMessage, delay: int, at: int): World {
    var v := Run(w, msg.queue, if delay > 0 then ScheduleLink(msg, at + delay) else EnqueueLink(msg));
    if Exists(w, msg.queue, msg.id) then v else v.(born := w.born + multiset{msg.id})
  }

  /** CompleteGroupMember. */
  function ReportMember(w: World, m: TaskMessage, at: int): World
    requires CanReport(m)
  {
    var cbQueue := m.groupCallback.value.queue;
    var out := Report(w.groups, GroupKeyOf(m), SlotOf(m), m.groupIndex, m.groupSize, m.result,
                      Exists(w, cbQueue, Callback(m.groupId.value)));
    var v := w.(groups := out.groups);
    if out.fires then CreateTask(v, CallbackMessage(m, out.collected), m.groupCallback.value.delay, at) else v
  }

  // ----- events -----

  datatype Event =
    | LaunchChain(u: string, op: Op)
    | LaunchGroup(u: string)
    | LaunchMember(u: string, j: nat, op: Op)
    | Env(queue: string, op: Op)
    | TimePasses(t: int)                // time passes, keys expire
    | Fetch(wid: nat, queue: string, id: Id, entry: nat)
    | HandlerOk(wid: nat)
    | HandlerErr(wid: nat, skip: bool)
    | Advance(wid: nat, at: int)        // the next call of a succeeded task
    | Again(wid: nat)                   // a call of the hand-off failed, the hand-off is retried
    | Done(wid: nat, at: int)
    | Retire(wid: nat, at: int)         // retry, archive or discard after a failure
    | Reclaim(wid: nat, at: int)        // the recoverer's retry or archive
    | Vanish(wid: nat)

  function ChainStart(u: string): Id { Indexed(Root(u), 0) }

  function MemberStart(f: Workflow, u: string, j: nat): Id
    requires f.GroupFlow? && j < |f.members|
  {
    if f.members[j].Flat? then Member(Root(u), j) else Indexed(Member(Root(u), j), 0)
  }

  function FlowKey(u: string, f: Workflow): Key
    requires f.GroupFlow?
  {
    (f.callback.queue, Root(u))
  }

  function FlowSlots(u: string, f: Workflow): set<Id>
    requires f.GroupFlow?
  {
    set j | 0 <= j < |f.members| :: Member(Root(u), j)
  }

  predicate IsEnqueueOf(op: Op, msg: TaskMessage) {
    (op.Enqueue? || op.Schedule?) && op.msg == msg
  }

  /** Store operations that write no message of a planned workflow. */
  predicate ForeignOp(p: Plan, op: Op) {
    match op
    case Finish(_, id) => RootOf(id) !in p.flows
    case _ => Written(op).Some? ==> RootOf(op.msg.id) !in p.flows
  }

  ghost predicate Enabled(p: Plan, w: World, e: Event) {
    match e
    case LaunchChain(u, op) =>
      && u in p.flows && p.flows[u].ChainFlow? && ChainStart(u) !in w.launched
      && Birth(p, ChainStart(u)).Some? && IsEnqueueOf(op, Birth(p, ChainStart(u)).value)
    case LaunchGroup(u) => u in p.flows && p.flows[u].GroupFlow? && Root(u) !in w.launched
    case LaunchMember(u, j, op) =>
      && u in p.flows && p.flows[u].GroupFlow? && Root(u) in w.launched && j < |p.flows[u].members|
      && MemberStart(p.flows[u], u, j) !in w.launched
      && Birth(p, MemberStart(p.flows[u], u, j)).Some?
      && IsEnqueueOf(op, Birth(p, MemberStart(p.flows[u], u, j)).value)
    case Env(_, op) => ForeignOp(p, op)
    case TimePasses(t) => w.groups.clock <= t
    case Fetch(wid, queue, id, _) =>
      wid !in w.workers && Exists(w, queue, id) && QueueOf(w, queue).hash[id].msg.Some? && RootOf(id) in p.flows
    case HandlerOk(wid) => wid in w.workers && w.workers[wid].phase == Running
    case HandlerErr(wid, _) => wid in w.workers && w.workers[wid].phase == Running
    case Advance(wid, _) => wid in w.workers && CanAdvance(w, w.workers[wid])
    case Again(wid) => wid in w.workers && HandingOff(w.workers[wid].phase)
    case Done(wid, _) => wid in w.workers && CanFinish(w.workers[wid])
    case Retire(wid, _) => wid in w.workers && w.workers[wid].phase.Failed?
    case Reclaim(wid, _) => wid in w.workers && w.workers[wid].phase == Running
    case Vanish(wid) => wid in w.workers
  }

  predicate HandingOff(ph: Phase) {
    ph.Listing? || ph.Staging? || ph.Draining? || ph.DrainReading? || ph.DrainReporting?
  }

  predicate HasNext(m: TaskMessage) { m.chain != [] && m.chainId.Some? }

  predicate CanAdvance(w: World, x: Worker) {
    match x.phase
    case Succeeded => HasNext(x.msg) || (x.msg.chain == [] && CanReport(x.msg))
    case Listing => HasNext(x.msg)
    case Staging(j, _) => HasNext(x.msg) && j <= |x.msg.chain[0].group|
    case Draining(j, _) => HasNext(x.msg) && j < |x.msg.chain[0].group|
    case DrainReading(j, _) => HasNext(x.msg) && j < |x.msg.chain[0].group|
    case DrainReporting(j, _, stored) => CanReport(stored)
    case _ => false
  }

  predicate CanFinish(x: Worker) {
    || x.phase == HandedOff || x.phase == Reported
    || (x.phase == Succeeded && x.msg.chain == [] && x.msg.groupId.None?)
  }

  function SetPhase(w: World, wid: nat, ph: Phase): World
    requires wid in w.workers
  {
    w.(workers := w.workers[wid := w.workers[wid].(phase := ph)])
  }

  /** The successor exists: drop the tail from the message at hand. */
  function HandOff(w: World, wid: nat): World
    requires wid in w.workers
  {
    var x := w.workers[wid];
    w.(workers := w.workers[wid := x.(msg := x.msg.(chain := []), phase := HandedOff)],
       settled := w.settled + {x.msg.id})
  }

  function AdvanceWorker(w: World, wid: nat, at: int): World
    requires wid in w.workers && CanAdvance(w, w.workers[wid])
  {
    var x := w.workers[wid];
    var m := x.msg;
    match x.phase
    case Succeeded =>
      if m.chain == [] then
        Settle(SetPhase(ReportMember(w, m, at), wid, Phase.Reported), m.id)
      else if m.chain[0].group == [] then
        HandOff(CreateTask(w, NextMessage(m), m.chain[0].delay, at), wid)
      else
        var cb := Exists(w, m.chain[0].queue, Callback(StageId(m)));
        var v := w.(groups := CreateIfAbsent(w.groups, StageKey(m), StageSlots(m), cb));
        var found := Probe(w.groups, StageKey(m), cb);
        if found == StageDone then HandOff(v, wid)
        else SetPhase(v, wid, if found == StageExists then Listing else Staging(0, None))
    case Listing =>
      var ids := if StageKey(m) in w.groups.pending then w.groups.pending[StageKey(m)] else {};
      SetPhase(w, wid, Staging(0, Some(ids)))
    case Staging(j, listed) =>
      if j == |m.chain[0].group| then HandOff(w, wid)
      else if listed.Some? && Member(StageId(m), j) !in listed.value then SetPhase(w, wid, Staging(j + 1, listed))
      else
        var member := MemberMessage(m, j);
        SetPhase(CreateTask(w, member, m.chain[0].group[j].delay, at), wid,
                 if Exists(w, member.queue, member.id) then Draining(j, listed) else Staging(j + 1, listed))
    case Draining(j, listed) =>
      var member := MemberMessage(m, j);
      var q := QueueOf(w, member.queue);
      SetPhase(w, wid,
               if member.id in q.hash && q.hash[member.id].state == Completed then DrainReading(j, listed)
               else Staging(j + 1, listed))
    case DrainReading(j, listed) =>
      var member := MemberMessage(m, j);
      var q := QueueOf(w, member.queue);
      SetPhase(w, wid,
               if member.id in q.hash && q.hash[member.id].msg.Some?
               then DrainReporting(j, listed, q.hash[member.id].msg.value)
               else Staging(j + 1, listed))
    case DrainReporting(j, listed, stored) => SetPhase(ReportMember(w, stored, at), wid, Staging(j + 1, listed))
  }

  function Remove(w: World, wid: nat): World {
    w.(workers := w.workers - {wid})
  }

  /** The task leaves the stream for a ZSET, with the worker's message. */
  function MoveTask(w: World, wid: nat, m: TaskMessage, z: ZSet, at: int): World
    requires wid in w.workers
  {
    Remove(Run(w, m.queue, Move(w.workers[wid].entry, m, z, at)), wid)
  }

  /** The task leaves the store. */
  function DropTask(w: World, wid: nat): World
    requires wid in w.workers
  {
    var x := w.workers[wid];
    Remove(Run(w, x.msg.queue, Finish(x.entry, x.msg.id)), wid)
  }

  function Settle(w: World, id: Id): World {
    w.(settled := w.settled + {id})
  }

  function FinishWorker(w: World, wid: nat, at: int): World
    requires wid in w.workers
  {
    var m := w.workers[wid].msg;
    Settle(if m.retention > 0 then MoveTask(w, wid, m, ZCompleted, at + m.retention) else DropTask(w, wid), m.id)
  }

  function RetireWorker(w: World, wid: nat, at: int): World
    requires wid in w.workers && w.workers[wid].phase.Failed?
  {
    var m := w.workers[wid].msg;
    if !w.workers[wid].phase.skip && m.retried < m.maxRetry
    then MoveTask(w, wid, m.(retried := m.retried + 1), ZRetry, at)
    else if m.noArchive then Settle(DropTask(w, wid), m.id)
    else MoveTask(w, wid, m, ZArchived, at)
  }

  function ReclaimWorker(w: World, wid: nat, at: int): World
    requires wid in w.workers
  {
    var m := w.workers[wid].msg;
    if m.retried >= m.maxRetry then MoveTask(w, wid, m, ZArchived, at)
    else MoveTask(w, wid, m.(retried := m.retried + 1), ZRetry, at)
  }

  /** A handler without a result leaves the message's result field as it was. */
  function WithResult(m: TaskMessage, out: Bytes): TaskMessage {
    if out == [] then m else m.(result := out)
  }

  ghost function Step(p: Plan, w: World, e: Event): World
    requires Enabled(p, w, e)
  {
    match e
    case LaunchChain(u, op) => Run(w, op.msg.queue, op).(launched := w.launched + {op.msg.id})
    case LaunchGroup(u) =>
      w.(groups := Create(w.groups, FlowKey(u, p.flows[u]), FlowSlots(u, p.flows[u])), launched := w.launched + {Root(u)})
    case LaunchMember(u, j, op) => Run(w, op.msg.queue, op).(launched := w.launched + {op.msg.id})
    case Env(queue, op) => Run(w, queue, op)
    case TimePasses(t) => w.(groups := Pass(w.groups, t))
    case Fetch(wid, queue, id, entry) =>
      w.(workers := w.workers[wid := Worker(entry, QueueOf(w, queue).hash[id].msg.value, Running)])
    case HandlerOk(wid) =>
      var x := w.workers[wid];
      w.(workers := w.workers[wid := x.(msg := WithResult(x.msg, p.h(InputOf(x.msg))), phase := Succeeded)],
         log := w.log + {InputOf(x.msg)})
    case HandlerErr(wid, skip) => SetPhase(w, wid, Failed(skip)).(log := w.log + {InputOf(w.workers[wid].msg)})
    case Advance(wid, at) => AdvanceWorker(w, wid, at)
    case Again(wid) => SetPhase(w, wid, Succeeded)
    case Done(wid, at) => FinishWorker(w, wid, at)
    case Retire(wid, at) => RetireWorker(w, wid, at)
    case Reclaim(wid, at) => ReclaimWorker(w, wid, at)
    case Vanish(wid) => Remove(w, wid)
  }

  ghost predicate IsRun(p: Plan, ws: seq<World>, es: seq<Event>) {
    && |ws| == |es| + 1
    && ws[0] == START
    && forall k :: 0 <= k < |es| ==> Enabled(p, ws[k], es[k]) && ws[k + 1] == Step(p, ws[k], es[k])
  }

  // ----- what a step is, case by case -----

  lemma ReportMemberFrame(w: World, m: TaskMessage, at: int)
    requires CanReport(m)
    ensures ReportMember(w, m, at).workers == w.workers && ReportMember(w, m, at).log == w.log
  {
  }

  lemma RetireIs(w: World, wid: nat, at: int)
    requires wid in w.workers && w.workers[wid].phase.Failed?
    ensures var m := w.workers[wid].msg;
            || RetireWorker(w, wid, at) == MoveTask(w, wid, m.(retried := m.retried + 1), ZRetry, at)
            || (m.noArchive && RetireWorker(w, wid, at) == Settle(DropTask(w, wid), m.id))
            || RetireWorker(w, wid, at) == MoveTask(w, wid, m, ZArchived, at)
  {
  }

  lemma StageIs(w: World, wid: nat, at: int)
    requires wid in w.workers && CanAdvance(w, w.workers[wid])
    requires w.workers[wid].phase.Succeeded? && w.workers[wid].msg.chain != [] && w.workers[wid].msg.chain[0].group != []
    ensures var m := w.workers[wid].msg;
            var cb := Exists(w, m.chain[0].queue, Callback(StageId(m)));
            var v := w.(groups := CreateIfAbsent(w.groups, StageKey(m), StageSlots(m), cb));
            && wid in v.workers
            && (cb ==> AdvanceWorker(w, wid, at) == HandOff(v, wid))
            && (!cb ==> AdvanceWorker(w, wid, at) == SetPhase(v, wid, Listing) ||
                        AdvanceWorker(w, wid, at) == SetPhase(v, wid, Staging(0, None)))
  {
  }

  lemma MemberIs(w: World, wid: nat, at: int)
    requires wid in w.workers && CanAdvance(w, w.workers[wid]) && w.workers[wid].phase.Staging?
    ensures var m, j, listed := w.workers[wid].msg, w.workers[wid].phase.j, w.workers[wid].phase.listed;
            if j == |m.chain[0].group| then AdvanceWorker(w, wid, at) == HandOff(w, wid)
            else if listed.Some? && Member(StageId(m), j) !in listed.value then
              AdvanceWorker(w, wid, at) == SetPhase(w, wid, Staging(j + 1, listed))
            else
              var v := CreateTask(w, MemberMessage(m, j), m.chain[0].group[j].delay, at);
              && wid in v.workers
              && (AdvanceWorker(w, wid, at) == SetPhase(v, wid, Draining(j, listed)) ||
                  AdvanceWorker(w, wid, at) == SetPhase(v, wid, Staging(j + 1, listed)))
  {
  }

  lemma DrainReadIs(w: World, wid: nat, at: int)
    requires wid in w.workers && CanAdvance(w, w.workers[wid]) && w.workers[wid].phase.DrainReading?
    ensures var m, ph := w.workers[wid].msg, w.workers[wid].phase;
            var h := QueueOf(w, MemberMessage(m, ph.j).queue).hash;
            var id := MemberMessage(m, ph.j).id;
            AdvanceWorker(w, wid, at) ==
              if id in h && h[id].msg.Some? then SetPhase(w, wid, DrainReporting(ph.j, ph.listed, h[id].msg.value))
              else SetPhase(w, wid, Staging(ph.j + 1, ph.listed))
  {
  }

  lemma DrainReportIs(w: World, wid: nat, at: int)
    requires wid in w.workers && CanAdvance(w, w.workers[wid]) && w.workers[wid].phase.DrainReporting?
    ensures var ph := w.workers[wid].phase;
            && wid in ReportMember(w, ph.stored, at).workers
            && AdvanceWorker(w, wid, at) == SetPhase(ReportMember(w, ph.stored, at), wid, Staging(ph.j + 1, ph.listed))
  {
    ReportMemberFrame(w, w.workers[wid].phase.stored, at);
  }

  /** The same Redis state. */
  predicate SameKeys(w: World, v: World) {
    w.queues == v.queues && w.groups == v.groups
  }

  lemma SameCreate(w: World, u: World, msg: TaskMessage, delay: int, at: int)
    requires SameKeys(w, u)
    ensures SameKeys(CreateTask(w, msg, delay, at), CreateTask(u, msg, delay, at)) && CreateTask(u, msg, delay, at).groups == u.groups
  {
  }

  lemma SameReport(w: World, u: World, m: TaskMessage, at: int)
    requires CanReport(m) && SameKeys(w, u)
    ensures SameKeys(ReportMember(w, m, at), ReportMember(u, m, at))
  {
    var cb := Exists(w, m.groupCallback.value.queue, Callback(m.groupId.value));
    assert Exists(u, m.groupCallback.value.queue, Callback(m.groupId.value)) == cb;
    var o := Report(w.groups, GroupKeyOf(m), SlotOf(m), m.groupIndex, m.groupSize, m.result, cb);
    if o.fires {
      SameCreate(w.(groups := o.groups), u.(groups := o.groups), CallbackMessage(m, o.collected), m.groupCallback.value.delay, at);
    }
  }
}
