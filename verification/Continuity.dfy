/** Chain continuity: no crash point loses the rest of a chain. A task's message stays
    stored, with its whole tail, until its successor exists or its report was made. */
module Continuity {
  import opened Ids
  import opened Base
  import opened Store
  import opened GroupState
  import opened Flow
  import opened World
  import opened Shape

  ghost predicate Created(w: World, id: Id) {
    id in w.launched || w.born[id] > 0
  }

  /** Nothing unfinished is deleted or trimmed, state writes only touch tasks that were
      created, and no group record expires. */
  ghost predicate Lossless(p: Plan, w: World, e: Event) {
    match e
    case Env(name, op) =>
      && (forall id {:trigger Removes(op, id)} :: Birth(p, id).Some? && Removes(op, id) ==> id in w.settled)
      && (forall id {:trigger id in Apply(QueueOf(w, name), op).hash} ::
          Birth(p, id).Some? && id in Apply(QueueOf(w, name), op).hash && !Exists(w, name, id) ==> Created(w, id))
    case TimePasses(t) => forall key :: key in w.groups.pending ==> Alive(w.groups.setUntil, key, t)
    case _ => true
  }

  // ----- the invariant -----

  ghost predicate OnlyCreated(p: Plan, w: World) {
    forall name, id {:trigger id in w.queues[name].hash} ::
      name in w.queues && id in w.queues[name].hash && Birth(p, id).Some? ==> Created(w, id)
  }

  /** The store holds a message of this task whose tail is `tail`. */
  ghost predicate Holds(w: World, queue: string, id: Id, tail: seq<ChainLink>) {
    && Exists(w, queue, id)
    && QueueOf(w, queue).hash[id].msg.Some?
    && QueueOf(w, queue).hash[id].msg.value.chain == tail
  }

  /** The store holds the task born with message `b`, with its whole tail. */
  ghost predicate Stored(w: World, b: TaskMessage) {
    Holds(w, b.queue, b.id, b.chain)
  }

  ghost predicate KeptAt(p: Plan, w: World, id: Id) {
    Created(w, id) && id !in w.settled && Birth(p, id).Some? ==> Stored(w, Birth(p, id).value)
  }

  ghost predicate Kept(p: Plan, w: World) {
    forall id :: KeptAt(p, w, id)
  }

  /** A message without its tail belongs to a settled task. */
  ghost predicate TailOk(p: Plan, w: World, m: TaskMessage) {
    Birth(p, m.id).Some? ==> m.chain == Birth(p, m.id).value.chain || m.id in w.settled
  }

  ghost predicate TailsOk(p: Plan, w: World) {
    forall name, id :: name in w.queues && id in w.queues[name].hash && w.queues[name].hash[id].msg.Some? ==>
      TailOk(p, w, w.queues[name].hash[id].msg.value)
  }

  ghost predicate StageOpen(w: World, key: Key) {
    key in w.groups.pending || Created(w, Callback(key.1))
  }

  /** Member `j` of the stage exists, or the stage is over. */
  ghost predicate MemberThere(w: World, key: Key, j: nat) {
    Created(w, Member(key.1, j)) || Created(w, Callback(key.1))
  }

  /** The members before `j` exist, and so does every one that had left the listed SET. */
  ghost predicate SoFar(w: World, key: Key, n: nat, j: nat, listed: Option<set<Id>>) {
    && (forall i :: 0 <= i < j ==> MemberThere(w, key, i))
    && (listed.Some? ==> forall i :: 0 <= i < n && Member(key.1, i) !in listed.value ==> MemberThere(w, key, i))
  }

  ghost predicate HandingOffKept(w: World, m: TaskMessage, ph: Phase)
    requires HasNext(m)
  {
    var key, n := StageKey(m), |m.chain[0].group|;
    && (HandingOff(ph) ==> StageOpen(w, key))
    && (ph.Staging? ==> SoFar(w, key, n, ph.j, ph.listed))
    && (ph.Draining? || ph.DrainReading? || ph.DrainReporting? ==> SoFar(w, key, n, ph.j + 1, ph.listed))
    && (ph.DrainReporting? ==> Created(w, ph.stored.id))
  }

  ghost predicate WorkerKept(p: Plan, w: World, x: Worker) {
    && Created(w, x.msg.id)
    && TailOk(p, w, x.msg)
    && (x.phase.HandedOff? || x.phase.Reported? ==> x.msg.id in w.settled)
    && (HandingOff(x.phase) && HasNext(x.msg) ==> HandingOffKept(w, x.msg, x.phase))
  }

  ghost predicate WorkersKept(p: Plan, w: World) {
    forall i :: i in w.workers ==> WorkerKept(p, w, w.workers[i])
  }

  ghost function BirthKey(b: TaskMessage): Key
    requires b.groupId.Some?
  {
    (b.groupQueue, b.groupId.value)
  }

  ghost predicate LeftIsCreated(p: Plan, w: World, key: Key)
    requires key in w.groups.pending && StageSize(p, key).Some?
  {
    forall j :: 0 <= j < StageSize(p, key).value && Member(key.1, j) !in w.groups.pending[key] ==> Created(w, Member(key.1, j))
  }

  ghost predicate GroupOpen(p: Plan, w: World, id: Id) {
    Created(w, id) && Birth(p, id).Some? && Birth(p, id).value.groupId.Some? ==> StageOpen(w, BirthKey(Birth(p, id).value))
  }

  /** Members exist only once their group was registered, registered groups end only in their
      callback, and a slot leaves a stage's SET only after its member was created. */
  ghost predicate GroupsKept(p: Plan, w: World) {
    && (forall id :: GroupOpen(p, w, id))
    && (forall key :: key in w.groups.pending ==> w.groups.pending[key] != {})
    && (forall key {:trigger LeftIsCreated(p, w, key)} ::
          key in w.groups.pending && key.1.Indexed? && StageSize(p, key).Some? ==> LeftIsCreated(p, w, key))
    && (forall u {:trigger FlowKey(u, p.flows[u])} ::
          u in p.flows && p.flows[u].GroupFlow? && Root(u) in w.launched ==> StageOpen(w, FlowKey(u, p.flows[u])))
  }

  /** The next stage was handed everything: the next link, or all members of the group. */
  ghost predicate NextThere(w: World, b: TaskMessage)
    requires HasNext(b)
  {
    if b.chain[0].group == [] then Created(w, StageId(b))
    else StageOpen(w, StageKey(b)) && forall j :: 0 <= j < |b.chain[0].group| ==> MemberThere(w, StageKey(b), j)
  }

  ghost predicate ReportThere(w: World, b: TaskMessage)
    requires b.groupId.Some?
  {
    var key := BirthKey(b);
    Created(w, Callback(key.1)) || (key in w.groups.pending && SlotOf(b) !in w.groups.pending[key])
  }

  ghost predicate Handed(w: World, b: TaskMessage) {
    && (HasNext(b) ==> NextThere(w, b))
    && (b.chain == [] && b.groupId.Some? ==> ReportThere(w, b))
  }

  ghost predicate SettledHanded(p: Plan, w: World, id: Id) {
    id in w.settled && Birth(p, id).Some? ==> Handed(w, Birth(p, id).value)
  }

  ghost predicate SettledOk(p: Plan, w: World) {
    forall id :: SettledHanded(p, w, id)
  }

  ghost predicate Staged(p: Plan, m: TaskMessage) {
    Shaped(p, m) && m.chain != [] && m.chain[0].group != []
  }

  ghost predicate CInv(p: Plan, w: World) {
    OnlyCreated(p, w) && Kept(p, w) && TailsOk(p, w) && WorkersKept(p, w) && GroupsKept(p, w) && SettledOk(p, w)
  }

  // ----- what only grows -----

  /** Tasks stay created and settled; a pending SET only shrinks, or ends in its callback. */
  ghost predicate Grows(w: World, v: World) {
    && (forall id :: Created(w, id) ==> Created(v, id))
    && w.settled <= v.settled
    && (forall key {:trigger key in w.groups.pending} :: key in w.groups.pending ==>
          || Created(v, Callback(key.1))
          || (key in v.groups.pending && v.groups.pending[key] <= w.groups.pending[key]))
  }

  lemma GrowsStage(w: World, v: World, key: Key)
    requires Grows(w, v) && StageOpen(w, key)
    ensures StageOpen(v, key)
  {
  }

  lemma GrowsSoFar(w: World, v: World, key: Key, n: nat, j: nat, listed: Option<set<Id>>)
    requires Grows(w, v) && SoFar(w, key, n, j, listed)
    ensures SoFar(v, key, n, j, listed)
  {
    forall i | 0 <= i < j ensures MemberThere(v, key, i) { assert MemberThere(w, key, i); }
    if listed.Some? {
      forall i | 0 <= i < n && Member(key.1, i) !in listed.value ensures MemberThere(v, key, i) { assert MemberThere(w, key, i); }
    }
  }

  lemma GrowsHanded(w: World, v: World, b: TaskMessage)
    requires Grows(w, v) && Handed(w, b)
    ensures Handed(v, b)
  {
    if HasNext(b) && b.chain[0].group != [] {
      GrowsStage(w, v, StageKey(b));
      GrowsSoFar(w, v, StageKey(b), 0, |b.chain[0].group|, None);
    }
  }

  lemma GrowsWorker(p: Plan, w: World, v: World, x: Worker)
    requires Grows(w, v) && WorkerKept(p, w, x)
    ensures WorkerKept(p, v, x)
  {
    if HandingOff(x.phase) && HasNext(x.msg) {
      var key, n := StageKey(x.msg), |x.msg.chain[0].group|;
      GrowsStage(w, v, key);
      if x.phase.Staging? { GrowsSoFar(w, v, key, n, x.phase.j, x.phase.listed); }
      if x.phase.Draining? || x.phase.DrainReading? || x.phase.DrainReporting? {
        GrowsSoFar(w, v, key, n, x.phase.j + 1, x.phase.listed);
      }
    }
  }

  lemma GrowsSettled(p: Plan, w: World, v: World)
    requires Grows(w, v) && SettledOk(p, w)
    ensures forall id :: SettledHanded(p, v, id) || (id in v.settled && id !in w.settled)
  {
    forall id ensures SettledHanded(p, v, id) || (id in v.settled && id !in w.settled) {
      assert SettledHanded(p, w, id);
      if id in w.settled && Birth(p, id).Some? { GrowsHanded(w, v, Birth(p, id).value); }
    }
  }

  lemma GrowsWorkers(p: Plan, w: World, v: World)
    requires Grows(w, v) && WorkersKept(p, w)
    ensures forall i :: i in w.workers ==> WorkerKept(p, v, w.workers[i])
  {
    forall i | i in w.workers ensures WorkerKept(p, v, w.workers[i]) { GrowsWorker(p, w, v, w.workers[i]); }
  }

  lemma SameKept(p: Plan, w: World, v: World)
    requires Kept(p, w) && v.queues == w.queues && w.settled <= v.settled
    requires forall id :: Created(v, id) && Birth(p, id).Some? ==> Created(w, id)
    ensures Kept(p, v)
  {
    forall id ensures KeptAt(p, v, id) { assert KeptAt(p, w, id); }
  }

  // ----- queues -----

  /** The operation removes only settled tasks, brings in only created ones, and writes a
      message that has its tail or belongs to a settled task. */
  ghost predicate Harmless(p: Plan, w: World, name: string, op: Op) {
    && (forall id {:trigger Removes(op, id)} :: Birth(p, id).Some? && Removes(op, id) ==> id in w.settled)
    && (forall id {:trigger id in Apply(QueueOf(w, name), op).hash} ::
          Birth(p, id).Some? && id in Apply(QueueOf(w, name), op).hash && !Exists(w, name, id) ==> Created(w, id))
    && (Written(op).Some? ==> TailOk(p, w, op.msg))
  }

  lemma RunOnlyCreated(p: Plan, w: World, name: string, op: Op)
    requires OnlyCreated(p, w) && Harmless(p, w, name, op)
    ensures OnlyCreated(p, Run(w, name, op))
  {
    var q, v := QueueOf(w, name), Run(w, name, op);
    forall n, id | n in v.queues && id in v.queues[n].hash && Birth(p, id).Some? ensures Created(v, id) {
      if n == name && Exists(w, name, id) { assert n in w.queues && id in w.queues[n].hash; }
    }
  }

  lemma RunTails(p: Plan, w: World, name: string, op: Op)
    requires TailsOk(p, w) && Harmless(p, w, name, op)
    ensures TailsOk(p, Run(w, name, op))
  {
    var q, v := QueueOf(w, name), Run(w, name, op);
    ApplyBodies(q, op);
    forall n, id | n in v.queues && id in v.queues[n].hash && v.queues[n].hash[id].msg.Some?
      ensures TailOk(p, v, v.queues[n].hash[id].msg.value)
    {
      if n != name { assert TailOk(p, w, w.queues[n].hash[id].msg.value); }
      else if id in q.hash && q.hash[id].msg.Some? { assert TailOk(p, w, w.queues[n].hash[id].msg.value); }
    }
  }

  lemma RunStored(p: Plan, w: World, name: string, op: Op, id: Id)
    requires TailsOk(p, w) && QueuesShaped(p, w.queues) && Harmless(p, w, name, op)
    requires Birth(p, id).Some? && id !in w.settled && Stored(w, Birth(p, id).value)
    ensures Stored(Run(w, name, op), Birth(p, id).value)
  {
    var q, b := QueueOf(w, name), Birth(p, id).value;
    BirthId(p, id);
    if b.queue == name {
      ApplyKeeps(q, op, id);
      ApplyBodies(q, op);
    }
  }

  lemma RunKept(p: Plan, w: World, name: string, op: Op)
    requires Kept(p, w) && TailsOk(p, w) && QueuesShaped(p, w.queues) && Harmless(p, w, name, op)
    ensures Kept(p, Run(w, name, op))
  {
    var v := Run(w, name, op);
    forall id ensures KeptAt(p, v, id) {
      assert KeptAt(p, w, id);
      if Created(v, id) && id !in v.settled && Birth(p, id).Some? { RunStored(p, w, name, op, id); }
    }
  }

  lemma SameGroups(p: Plan, w: World, v: World)
    requires GroupsKept(p, w) && Grows(w, v) && v.groups.pending == w.groups.pending
    requires forall u :: Root(u) in v.launched ==> Root(u) in w.launched
    requires forall id :: Created(v, id) && !Created(w, id) && Birth(p, id).Some? && Birth(p, id).value.groupId.Some? ==>
               StageOpen(w, BirthKey(Birth(p, id).value))
    ensures GroupsKept(p, v)
  {
    forall id ensures GroupOpen(p, v, id) {
      assert GroupOpen(p, w, id);
      if Created(v, id) && Birth(p, id).Some? && Birth(p, id).value.groupId.Some? {
        GrowsStage(w, v, BirthKey(Birth(p, id).value));
      }
    }
    forall key | key in v.groups.pending && key.1.Indexed? && StageSize(p, key).Some? ensures LeftIsCreated(p, v, key) {
      assert LeftIsCreated(p, w, key);
    }
  }

  /** Any store operation that is harmless keeps the invariant. */
  lemma RunCInv(p: Plan, w: World, name: string, op: Op)
    requires QueuesShaped(p, w.queues) && CInv(p, w) && Harmless(p, w, name, op)
    ensures CInv(p, Run(w, name, op))
  {
    var v := Run(w, name, op);
    assert Grows(w, v);
    RunOnlyCreated(p, w, name, op);
    RunTails(p, w, name, op);
    RunKept(p, w, name, op);
    SameGroups(p, w, v);
    GrowsSettled(p, w, v);
    GrowsWorkers(p, w, v);
  }

  // ----- creating a task -----

  lemma LinkOpBodies(q: Queue, msg: TaskMessage, delay: int, at: int)
    requires msg.id !in q.hash
    ensures var h := Apply(q, if delay > 0 then ScheduleLink(msg, at + delay) else EnqueueLink(msg)).hash;
            && msg.id in h && h[msg.id].msg == Some(msg)
            && forall id :: id != msg.id ==> (id in h <==> id in q.hash) && (id in h ==> h[id] == q.hash[id])
  {
  }

  /** The queues of `v` hold the bodies of `w` and one new body. */
  ghost predicate OneMore(w: World, v: World, msg: TaskMessage) {
    && Exists(v, msg.queue, msg.id) && QueueOf(v, msg.queue).hash[msg.id].msg == Some(msg)
    && (forall n, id :: n in v.queues && id in v.queues[n].hash && (n != msg.queue || id != msg.id) ==>
          n in w.queues && id in w.queues[n].hash && w.queues[n].hash[id] == v.queues[n].hash[id])
    && (forall n, id :: n in w.queues && id in w.queues[n].hash ==>
          n in v.queues && id in v.queues[n].hash && (n != msg.queue || id != msg.id ==> v.queues[n].hash[id] == w.queues[n].hash[id]))
  }

  lemma CreateTaskBodies(w: World, msg: TaskMessage, delay: int, at: int)
    requires !Exists(w, msg.queue, msg.id)
    ensures OneMore(w, CreateTask(w, msg, delay, at), msg)
  {
    LinkOpBodies(QueueOf(w, msg.queue), msg, delay, at);
  }

  lemma OneMoreQueues(p: Plan, w: World, v: World, msg: TaskMessage)
    requires OneMore(w, v, msg) && Grows(w, v) && Created(v, msg.id) && OnlyCreated(p, w) && TailsOk(p, w)
    requires Newborn(p, msg)
    ensures OnlyCreated(p, v) && TailsOk(p, v)
  {
    forall n, id | n in v.queues && id in v.queues[n].hash && v.queues[n].hash[id].msg.Some?
      ensures TailOk(p, v, v.queues[n].hash[id].msg.value)
    {
      if id != msg.id || n != msg.queue { assert TailOk(p, w, w.queues[n].hash[id].msg.value); }
    }
  }

  lemma OneMoreKept(p: Plan, w: World, v: World, msg: TaskMessage)
    requires OneMore(w, v, msg) && Kept(p, w) && Newborn(p, msg) && v.settled == w.settled
    requires forall id :: Created(v, id) ==> Created(w, id) || id == msg.id
    ensures Kept(p, v)
  {
    forall id ensures KeptAt(p, v, id) {
      assert KeptAt(p, w, id);
      if Created(v, id) && id !in v.settled && Birth(p, id).Some? {
        BirthId(p, id);
        var queue := Birth(p, id).value.queue;
        if id != msg.id { assert queue in w.queues && id in w.queues[queue].hash; }
      }
    }
  }

  lemma CreateTaskCInv(p: Plan, w: World, msg: TaskMessage, delay: int, at: int)
    requires QueuesShaped(p, w.queues) && CInv(p, w) && Newborn(p, msg)
    requires msg.groupId.Some? ==> StageOpen(w, BirthKey(msg))
    ensures var v := CreateTask(w, msg, delay, at);
            CInv(p, v) && Created(v, msg.id) && Grows(w, v)
  {
    var v := CreateTask(w, msg, delay, at);
    var op := if delay > 0 then ScheduleLink(msg, at + delay) else EnqueueLink(msg);
    if Exists(w, msg.queue, msg.id) {
      assert Apply(QueueOf(w, msg.queue), op) == QueueOf(w, msg.queue);
      RunCInv(p, w, msg.queue, op);
      assert msg.queue in w.queues && msg.id in w.queues[msg.queue].hash;
    } else {
      CreateTaskBodies(w, msg, delay, at);
      assert Grows(w, v);
      OneMoreQueues(p, w, v, msg);
      OneMoreKept(p, w, v, msg);
      SameGroups(p, w, v);
      GrowsSettled(p, w, v);
      GrowsWorkers(p, w, v);
    }
  }

  // ----- group state -----

  lemma GroupsChange(p: Plan, w: World, g: Groups, launched: set<Id>)
    requires CInv(p, w) && Grows(w, w.(groups := g, launched := launched)) && w.launched <= launched
    requires forall id :: id in launched && id !in w.launched ==> Birth(p, id).None?
    requires forall u :: u in p.flows && p.flows[u].GroupFlow? && Root(u) in launched && Root(u) !in w.launched ==>
               FlowKey(u, p.flows[u]) in g.pending
    requires forall key :: key in g.pending ==> g.pending[key] != {}
    requires forall key :: key in g.pending && key.1.Indexed? && StageSize(p, key).Some? ==>
               LeftIsCreated(p, w.(groups := g, launched := launched), key)
    ensures CInv(p, w.(groups := g, launched := launched))
  {
    var v := w.(groups := g, launched := launched);
    SameKept(p, w, v);
    GrowsSettled(p, w, v);
    GrowsWorkers(p, w, v);
    forall id ensures GroupOpen(p, v, id) {
      assert GroupOpen(p, w, id);
      if Created(v, id) && Birth(p, id).Some? && Birth(p, id).value.groupId.Some? {
        GrowsStage(w, v, BirthKey(Birth(p, id).value));
      }
    }
    forall u | u in p.flows && p.flows[u].GroupFlow? && Root(u) in v.launched ensures StageOpen(v, FlowKey(u, p.flows[u])) {
      if Root(u) in w.launched { GrowsStage(w, v, FlowKey(u, p.flows[u])); }
    }
  }

  /** What one report does to the pending SETs. */
  lemma ReportPending(g: Groups, key: Key, slot: Id, index: nat, size: nat, result: Bytes, cb: bool)
    ensures var o := Report(g, key, slot, index, size, result, cb);
            && (forall k :: k != key ==> (k in o.groups.pending <==> k in g.pending))
            && (forall k :: k != key && k in g.pending ==> o.groups.pending[k] == g.pending[k])
            && (key !in g.pending ==> key !in o.groups.pending && !o.fires)
            && (key in o.groups.pending ==> o.groups.pending[key] == g.pending[key] - {slot} != {} && !o.fires)
            && (key in g.pending && key !in o.groups.pending ==> o.fires == !cb)
  {
  }

  lemma LeftStays(p: Plan, w: World, g: Groups, k: Key, slot: Id)
    requires k in w.groups.pending && k in g.pending && StageSize(p, k).Some? && LeftIsCreated(p, w, k)
    requires g.pending[k] == w.groups.pending[k] || (g.pending[k] == w.groups.pending[k] - {slot} && Created(w, slot))
    ensures LeftIsCreated(p, w.(groups := g), k)
  {
    var v := w.(groups := g);
    forall j | 0 <= j < StageSize(p, k).value && Member(k.1, j) !in g.pending[k] ensures Created(v, Member(k.1, j)) {
      assert Created(w, Member(k.1, j));
    }
  }

  /** Recording a report, its callback already being there when it was the last. */
  lemma ReportGroupsCInv(p: Plan, w: World, m: TaskMessage, cb: bool)
    requires ValidPlan(p) && CInv(p, w) && Shaped(p, m) && m.groupId.Some? && Created(w, m.id)
    ensures CanReport(m)
    ensures var o := Report(w.groups, GroupKeyOf(m), SlotOf(m), m.groupIndex, m.groupSize, m.result, cb);
            (o.fires || cb ==> Created(w, Callback(m.groupId.value))) ==>
              CInv(p, w.(groups := o.groups)) && Grows(w, w.(groups := o.groups)) &&
              ReportThere(w.(groups := o.groups), Birth(p, m.id).value)
  {
    GroupedKnows(p, m, []);
    BirthId(p, m.id);
    var key := GroupKeyOf(m);
    var o := Report(w.groups, key, SlotOf(m), m.groupIndex, m.groupSize, m.result, cb);
    ReportPending(w.groups, key, SlotOf(m), m.groupIndex, m.groupSize, m.result, cb);
    var v := w.(groups := o.groups);
    assert BirthKey(Birth(p, m.id).value) == key && GroupOpen(p, w, m.id);
    if o.fires || cb ==> Created(w, Callback(m.groupId.value)) {
      assert Grows(w, v);
      forall k | k in o.groups.pending && k.1.Indexed? && StageSize(p, k).Some? ensures LeftIsCreated(p, v, k) {
        LeftStays(p, w, o.groups, k, SlotOf(m));
      }
      assert v == w.(groups := o.groups, launched := w.launched);
      GroupsChange(p, w, o.groups, w.launched);
    }
  }

  lemma CreateThenReport(w: World, g: Groups, msg: TaskMessage, delay: int, at: int)
    ensures CreateTask(w.(groups := g), msg, delay, at) == CreateTask(w, msg, delay, at).(groups := g)
    ensures CreateTask(w, msg, delay, at).groups == w.groups
  {
  }

  lemma ReportMemberCInv(p: Plan, w: World, m: TaskMessage, at: int)
    requires ValidPlan(p) && QueuesShaped(p, w.queues) && RootsLaunched(w.groups.pending, w.launched)
    requires CInv(p, w) && Shaped(p, m) && m.groupId.Some? && Created(w, m.id)
    ensures CanReport(m)
    ensures var v := ReportMember(w, m, at);
            CInv(p, v) && Grows(w, v) && ReportThere(v, Birth(p, m.id).value)
  {
    GroupedKnows(p, m, []);
    var cb := Exists(w, m.groupCallback.value.queue, Callback(m.groupId.value));
    var o := Report(w.groups, GroupKeyOf(m), SlotOf(m), m.groupIndex, m.groupSize, m.result, cb);
    if o.fires {
      GroupedKnows(p, m, o.collected);
      var msg := CallbackMessage(m, o.collected);
      CreateThenReport(w, o.groups, msg, m.groupCallback.value.delay, at);
      CreateTaskCInv(p, w, msg, m.groupCallback.value.delay, at);
      ReportGroupsCInv(p, CreateTask(w, msg, m.groupCallback.value.delay, at), m, cb);
    } else {
      if cb { assert m.groupQueue in w.queues && Callback(m.groupId.value) in w.queues[m.groupQueue].hash; }
      ReportGroupsCInv(p, w, m, cb);
    }
  }

  // ----- worker state -----

  lemma SetPhaseCInv(p: Plan, w: World, wid: nat, ph: Phase)
    requires CInv(p, w) && wid in w.workers && WorkerKept(p, w, w.workers[wid].(phase := ph))
    ensures CInv(p, SetPhase(w, wid, ph))
  {
    var v := SetPhase(w, wid, ph);
    assert Grows(w, v);
    SameKept(p, w, v);
    SameGroups(p, w, v);
    GrowsSettled(p, w, v);
    GrowsWorkers(p, w, v);
    GrowsWorker(p, w, v, w.workers[wid].(phase := ph));
  }

  lemma RemoveCInv(p: Plan, w: World, wid: nat)
    requires CInv(p, w)
    ensures CInv(p, Remove(w, wid))
  {
    var v := Remove(w, wid);
    assert Grows(w, v);
    SameKept(p, w, v);
    SameGroups(p, w, v);
    GrowsSettled(p, w, v);
    GrowsWorkers(p, w, v);
  }

  lemma SettleCInv(p: Plan, w: World, id: Id)
    requires CInv(p, w) && (Birth(p, id).Some? ==> Handed(w, Birth(p, id).value))
    ensures CInv(p, Settle(w, id))
  {
    var v := Settle(w, id);
    assert Grows(w, v);
    SameKept(p, w, v);
    SameGroups(p, w, v);
    GrowsSettled(p, w, v);
    GrowsWorkers(p, w, v);
    if Birth(p, id).Some? { GrowsHanded(w, v, Birth(p, id).value); }
    assert TailsOk(p, v) by {
      forall n, i | n in v.queues && i in v.queues[n].hash && v.queues[n].hash[i].msg.Some?
        ensures TailOk(p, v, v.queues[n].hash[i].msg.value)
      {
        assert TailOk(p, w, w.queues[n].hash[i].msg.value);
      }
    }
  }

  /** The message at hand has its whole tail, and its next stage is the one of its birth. */
  lemma TailAtHand(p: Plan, m: TaskMessage)
    requires Shaped(p, m) && m.chain != []
    ensures Birth(p, m.id).value.chain == m.chain
    ensures HasNext(m) ==> HasNext(Birth(p, m.id).value) && StageKey(Birth(p, m.id).value) == StageKey(m)
  {
  }

  lemma HandOffCInv(p: Plan, w: World, wid: nat)
    requires CInv(p, w) && wid in w.workers && Shaped(p, w.workers[wid].msg) && HasNext(w.workers[wid].msg)
    requires NextThere(w, w.workers[wid].msg)
    ensures CInv(p, HandOff(w, wid))
  {
    var x := w.workers[wid];
    TailAtHand(p, x.msg);
    var u := Settle(w, x.msg.id);
    SettleCInv(p, w, x.msg.id);
    var v := HandOff(w, wid);
    assert Grows(u, v);
    SameKept(p, u, v);
    SameGroups(p, u, v);
    GrowsSettled(p, u, v);
    GrowsWorkers(p, u, v);
  }

  // ----- steps of a succeeded task -----

  lemma ReportStepCInv(p: Plan, w: World, wid: nat, at: int)
    requires wid in w.workers && ValidPlan(p) && QueuesShaped(p, w.queues) && RootsLaunched(w.groups.pending, w.launched) && WorkerShaped(p, w.workers[wid])
    requires CInv(p, w) && CanAdvance(w, w.workers[wid])
    requires w.workers[wid].phase.Succeeded? && w.workers[wid].msg.chain == []
    ensures CInv(p, AdvanceWorker(w, wid, at))
  {
    var m := w.workers[wid].msg;
    assert WorkerKept(p, w, w.workers[wid]);
    ReportMemberCInv(p, w, m, at);
    ReportMemberFrame(w, m, at);
    var v := ReportMember(w, m, at);
    assert SettledHanded(p, v, m.id);
    SettleCInv(p, v, m.id);
    SetPhaseCInv(p, Settle(v, m.id), wid, Phase.Reported);
    assert AdvanceWorker(w, wid, at) == SetPhase(Settle(v, m.id), wid, Phase.Reported);
  }

  lemma LinkStepCInv(p: Plan, w: World, wid: nat, at: int)
    requires wid in w.workers && ValidPlan(p) && QueuesShaped(p, w.queues) && RootsLaunched(w.groups.pending, w.launched) && WorkerShaped(p, w.workers[wid])
    requires CInv(p, w) && CanAdvance(w, w.workers[wid])
    requires w.workers[wid].phase.Succeeded? && w.workers[wid].msg.chain != [] && w.workers[wid].msg.chain[0].group == []
    ensures CInv(p, AdvanceWorker(w, wid, at))
  {
    var m := w.workers[wid].msg;
    assert WorkerKept(p, w, w.workers[wid]);
    NextNewborn(p, m);
    assert GroupOpen(p, w, m.id);
    CreateTaskCInv(p, w, NextMessage(m), m.chain[0].delay, at);
    HandOffCInv(p, CreateTask(w, NextMessage(m), m.chain[0].delay, at), wid);
  }

  lemma CreateStageCInv(p: Plan, w: World, m: TaskMessage, cb: bool)
    requires ValidPlan(p) && CInv(p, w) && Staged(p, m)
    ensures HasNext(m)
    ensures var v := w.(groups := CreateIfAbsent(w.groups, StageKey(m), StageSlots(m), cb));
            CInv(p, v) && Grows(w, v) && (!cb ==> StageKey(m) in v.groups.pending)
  {
    StageShape(p, m);
    var key, slots := StageKey(m), StageSlots(m);
    var g := CreateIfAbsent(w.groups, key, slots, cb);
    assert Member(StageId(m), 0) in slots;
    var v := w.(groups := g, launched := w.launched);
    forall k | k in g.pending && k.1.Indexed? && StageSize(p, k).Some? ensures LeftIsCreated(p, v, k) {
      if k in w.groups.pending { assert LeftIsCreated(p, w, k); }
    }
    GroupsChange(p, w, g, w.launched);
    assert v == w.(groups := g);
  }

  /** A callback hash fences a finished stage: everything of it was created. */
  lemma FencedStage(p: Plan, w: World, m: TaskMessage)
    requires ValidPlan(p) && OnlyCreated(p, w) && Staged(p, m) && HasNext(m)
    requires Exists(w, m.chain[0].queue, Callback(StageId(m)))
    ensures NextThere(w, m)
  {
    StageShape(p, m);
    assert m.chain[0].queue in w.queues && Callback(StageId(m)) in w.queues[m.chain[0].queue].hash;
  }

  lemma StageOpenedCInv(p: Plan, v: World, wid: nat, m: TaskMessage)
    requires CInv(p, v) && wid in v.workers && v.workers[wid].msg == m && HasNext(m) && StageKey(m) in v.groups.pending
    ensures CInv(p, SetPhase(v, wid, Listing)) && CInv(p, SetPhase(v, wid, Staging(0, None)))
  {
    assert HandingOffKept(v, m, Listing) && HandingOffKept(v, m, Staging(0, None));
    SetHandingOffCInv(p, v, wid, Listing);
    SetHandingOffCInv(p, v, wid, Staging(0, None));
  }

  lemma FencedStageCInv(p: Plan, w: World, wid: nat, m: TaskMessage)
    requires ValidPlan(p) && CInv(p, w) && wid in w.workers && w.workers[wid].msg == m && Staged(p, m) && HasNext(m)
    requires Exists(w, m.chain[0].queue, Callback(StageId(m)))
    ensures CInv(p, HandOff(w, wid))
  {
    FencedStage(p, w, m);
    HandOffCInv(p, w, wid);
  }

  lemma StageStepCInv(p: Plan, w: World, wid: nat, at: int)
    requires wid in w.workers && ValidPlan(p) && QueuesShaped(p, w.queues) && RootsLaunched(w.groups.pending, w.launched) && WorkerShaped(p, w.workers[wid])
    requires CInv(p, w) && CanAdvance(w, w.workers[wid])
    requires w.workers[wid].phase.Succeeded? && w.workers[wid].msg.chain != [] && w.workers[wid].msg.chain[0].group != []
    ensures CInv(p, AdvanceWorker(w, wid, at))
  {
    StageIs(w, wid, at);
    var m := w.workers[wid].msg;
    var cb := Exists(w, m.chain[0].queue, Callback(StageId(m)));
    CreateStageCInv(p, w, m, cb);
    var v := w.(groups := CreateIfAbsent(w.groups, StageKey(m), StageSlots(m), cb));
    if cb {
      FencedStageCInv(p, v, wid, m);
    } else {
      StageOpenedCInv(p, v, wid, m);
    }
  }

  lemma ListStepCInv(p: Plan, w: World, wid: nat, at: int)
    requires wid in w.workers && ValidPlan(p) && QueuesShaped(p, w.queues) && RootsLaunched(w.groups.pending, w.launched) && WorkerShaped(p, w.workers[wid])
    requires CInv(p, w) && CanAdvance(w, w.workers[wid])
    requires w.workers[wid].phase.Listing?
    ensures CInv(p, AdvanceWorker(w, wid, at))
  {
    var m := w.workers[wid].msg;
    assert WorkerKept(p, w, w.workers[wid]);
    StageShape(p, m);
    var key, n := StageKey(m), |m.chain[0].group|;
    var ids := if key in w.groups.pending then w.groups.pending[key] else {};
    if key in w.groups.pending { assert LeftIsCreated(p, w, key); }
    assert SoFar(w, key, n, 0, Some(ids));
    SetPhaseCInv(p, w, wid, Staging(0, Some(ids)));
  }

  lemma HandingOffAtHand(p: Plan, w: World, wid: nat)
    requires WorkersKept(p, w) && wid in w.workers && HandingOff(w.workers[wid].phase) && HasNext(w.workers[wid].msg)
    ensures HandingOffKept(w, w.workers[wid].msg, w.workers[wid].phase)
  {
    assert WorkerKept(p, w, w.workers[wid]);
  }

  lemma SetHandingOffCInv(p: Plan, w: World, wid: nat, ph: Phase)
    requires CInv(p, w) && wid in w.workers && HasNext(w.workers[wid].msg)
    requires HandingOff(ph) && HandingOffKept(w, w.workers[wid].msg, ph)
    ensures CInv(p, SetPhase(w, wid, ph))
  {
    assert WorkerKept(p, w, w.workers[wid]);
    SetPhaseCInv(p, w, wid, ph);
  }

  /** Once member `j` is there the hand-off can go on to the next. */
  lemma AfterMember(w: World, v: World, m: TaskMessage, j: nat, listed: Option<set<Id>>)
    requires HasNext(m) && Grows(w, v) && HandingOffKept(w, m, Staging(j, listed)) && MemberThere(v, StageKey(m), j)
    ensures HandingOffKept(v, m, Draining(j, listed)) && HandingOffKept(v, m, Staging(j + 1, listed))
  {
    GrowsStage(w, v, StageKey(m));
    GrowsSoFar(w, v, StageKey(m), |m.chain[0].group|, j, listed);
  }

  lemma AfterDrain(w: World, v: World, m: TaskMessage, j: nat, listed: Option<set<Id>>)
    requires HasNext(m) && Grows(w, v) && HandingOffKept(w, m, Draining(j, listed))
    ensures HandingOffKept(v, m, Staging(j + 1, listed))
  {
    GrowsStage(w, v, StageKey(m));
    GrowsSoFar(w, v, StageKey(m), |m.chain[0].group|, j + 1, listed);
  }

  lemma AllStaged(w: World, m: TaskMessage, listed: Option<set<Id>>)
    requires HasNext(m) && m.chain[0].group != [] && HandingOffKept(w, m, Staging(|m.chain[0].group|, listed))
    ensures NextThere(w, m)
  {
  }

  lemma AllStagedCInv(p: Plan, w: World, wid: nat, m: TaskMessage, listed: Option<set<Id>>)
    requires CInv(p, w) && wid in w.workers && w.workers[wid].msg == m && Shaped(p, m) && HasNext(m) && m.chain[0].group != []
    requires w.workers[wid].phase == Staging(|m.chain[0].group|, listed)
    ensures CInv(p, HandOff(w, wid))
  {
    HandingOffAtHand(p, w, wid);
    AllStaged(w, m, listed);
    HandOffCInv(p, w, wid);
  }

  lemma SkipMemberCInv(p: Plan, w: World, wid: nat, m: TaskMessage, j: nat, listed: Option<set<Id>>)
    requires CInv(p, w) && wid in w.workers && w.workers[wid].msg == m && HasNext(m)
    requires w.workers[wid].phase == Staging(j, listed) && j < |m.chain[0].group|
    requires listed.Some? && Member(StageId(m), j) !in listed.value
    ensures CInv(p, SetPhase(w, wid, Staging(j + 1, listed)))
  {
    HandingOffAtHand(p, w, wid);
    AfterMember(w, w, m, j, listed);
    SetHandingOffCInv(p, w, wid, Staging(j + 1, listed));
  }

  lemma MemberStepCInv(p: Plan, w: World, wid: nat, at: int)
    requires wid in w.workers && ValidPlan(p) && QueuesShaped(p, w.queues) && WorkerShaped(p, w.workers[wid])
    requires CInv(p, w) && CanAdvance(w, w.workers[wid])
    requires w.workers[wid].phase.Staging?
    ensures CInv(p, AdvanceWorker(w, wid, at))
  {
    var m, j, listed := w.workers[wid].msg, w.workers[wid].phase.j, w.workers[wid].phase.listed;
    MemberIs(w, wid, at);
    if j == |m.chain[0].group| {
      AllStagedCInv(p, w, wid, m, listed);
    } else if listed.Some? && Member(StageId(m), j) !in listed.value {
      SkipMemberCInv(p, w, wid, m, j, listed);
    } else {
      StageOneCInv(p, w, wid, at, Draining(j, listed));
      StageOneCInv(p, w, wid, at, Staging(j + 1, listed));
    }
  }

  lemma StageOneCInv(p: Plan, w: World, wid: nat, at: int, ph: Phase)
    requires wid in w.workers && ValidPlan(p) && QueuesShaped(p, w.queues) && CInv(p, w)
    requires Staged(p, w.workers[wid].msg) && HasNext(w.workers[wid].msg)
    requires w.workers[wid].phase.Staging? && w.workers[wid].phase.j < |w.workers[wid].msg.chain[0].group|
    requires ph == Draining(w.workers[wid].phase.j, w.workers[wid].phase.listed)
          || ph == Staging(w.workers[wid].phase.j + 1, w.workers[wid].phase.listed)
    ensures var m, j := w.workers[wid].msg, w.workers[wid].phase.j;
            var v := CreateTask(w, MemberMessage(m, j), m.chain[0].group[j].delay, at);
            wid in v.workers && CInv(p, SetPhase(v, wid, ph))
  {
    var m, j, listed := w.workers[wid].msg, w.workers[wid].phase.j, w.workers[wid].phase.listed;
    HandingOffAtHand(p, w, wid);
    NextNewborn(p, m);
    var msg, delay := MemberMessage(m, j), m.chain[0].group[j].delay;
    assert Newborn(p, msg);
    CreateTaskCInv(p, w, msg, delay, at);
    AfterMember(w, CreateTask(w, msg, delay, at), m, j, listed);
    SetHandingOffCInv(p, CreateTask(w, msg, delay, at), wid, ph);
  }

  lemma StoredMember(p: Plan, w: World, m: TaskMessage, j: nat)
    requires ValidPlan(p) && QueuesShaped(p, w.queues) && OnlyCreated(p, w) && Staged(p, m) && HasNext(m) && j < |m.chain[0].group|
    requires var member := MemberMessage(m, j); Exists(w, member.queue, member.id) && QueueOf(w, member.queue).hash[member.id].msg.Some?
    ensures var member := MemberMessage(m, j); Created(w, QueueOf(w, member.queue).hash[member.id].msg.value.id)
  {
    NextNewborn(p, m);
    var member := MemberMessage(m, j);
    assert Newborn(p, member);
    BirthRoot(p, member.id);
    assert member.queue in w.queues && member.id in w.queues[member.queue].hash;
    assert BodyShaped(p, member.queue, member.id, w.queues[member.queue].hash[member.id]);
  }

  lemma DrainingAtHand(p: Plan, w: World, wid: nat)
    requires wid in w.workers && ValidPlan(p) && WorkerShaped(p, w.workers[wid]) && WorkersKept(p, w)
    requires var ph := w.workers[wid].phase; ph.Draining? || ph.DrainReading? || ph.DrainReporting?
    ensures HasNext(w.workers[wid].msg) && Staged(p, w.workers[wid].msg)
    ensures HandingOffKept(w, w.workers[wid].msg, Draining(w.workers[wid].phase.j, w.workers[wid].phase.listed))
    ensures w.workers[wid].phase.DrainReporting? ==> Created(w, w.workers[wid].phase.stored.id)
  {
    NextNewborn(p, w.workers[wid].msg);
    HandingOffAtHand(p, w, wid);
  }

  lemma DrainStepCInv(p: Plan, w: World, wid: nat, at: int)
    requires wid in w.workers && ValidPlan(p) && QueuesShaped(p, w.queues) && RootsLaunched(w.groups.pending, w.launched) && WorkerShaped(p, w.workers[wid])
    requires CInv(p, w) && CanAdvance(w, w.workers[wid])
    requires w.workers[wid].phase.Draining?
    ensures CInv(p, AdvanceWorker(w, wid, at))
  {
    var m, j, listed := w.workers[wid].msg, w.workers[wid].phase.j, w.workers[wid].phase.listed;
    DrainingAtHand(p, w, wid);
    AfterDrain(w, w, m, j, listed);
    SetHandingOffCInv(p, w, wid, Staging(j + 1, listed));
    SetHandingOffCInv(p, w, wid, DrainReading(j, listed));
  }

  lemma DrainReadCInv(p: Plan, w: World, wid: nat, m: TaskMessage, j: nat, listed: Option<set<Id>>, v: World)
    requires ValidPlan(p) && QueuesShaped(p, w.queues) && CInv(p, w) && wid in w.workers && w.workers[wid].msg == m
    requires HasNext(m) && Staged(p, m) && j < |m.chain[0].group| && HandingOffKept(w, m, Draining(j, listed))
    requires var h, id := QueueOf(w, MemberMessage(m, j).queue).hash, MemberMessage(m, j).id;
             v == if id in h && h[id].msg.Some? then SetPhase(w, wid, DrainReporting(j, listed, h[id].msg.value))
                  else SetPhase(w, wid, Staging(j + 1, listed))
    ensures CInv(p, v)
  {
    var h, id := QueueOf(w, MemberMessage(m, j).queue).hash, MemberMessage(m, j).id;
    if id in h && h[id].msg.Some? {
      StoredMember(p, w, m, j);
      SetHandingOffCInv(p, w, wid, DrainReporting(j, listed, h[id].msg.value));
    } else {
      AfterDrain(w, w, m, j, listed);
      SetHandingOffCInv(p, w, wid, Staging(j + 1, listed));
    }
  }

  lemma DrainReadStepCInv(p: Plan, w: World, wid: nat, at: int)
    requires wid in w.workers && ValidPlan(p) && QueuesShaped(p, w.queues) && RootsLaunched(w.groups.pending, w.launched) && WorkerShaped(p, w.workers[wid])
    requires CInv(p, w) && CanAdvance(w, w.workers[wid])
    requires w.workers[wid].phase.DrainReading?
    ensures CInv(p, AdvanceWorker(w, wid, at))
  {
    DrainReadIs(w, wid, at);
    DrainingAtHand(p, w, wid);
    DrainReadCInv(p, w, wid, w.workers[wid].msg, w.workers[wid].phase.j, w.workers[wid].phase.listed, AdvanceWorker(w, wid, at));
  }

  lemma StoredAtHand(p: Plan, w: World, wid: nat)
    requires wid in w.workers && WorkerShaped(p, w.workers[wid]) && w.workers[wid].phase.DrainReporting?
    ensures var stored := w.workers[wid].phase.stored;
            Shaped(p, stored)  && stored.groupId.Some?
  {
  }

  /** The drained report itself. */
  lemma DrainReported(p: Plan, w: World, wid: nat, stored: TaskMessage, at: int)
    requires wid in w.workers && ValidPlan(p) && QueuesShaped(p, w.queues) && RootsLaunched(w.groups.pending, w.launched) && WorkerShaped(p, w.workers[wid]) && CInv(p, w)
    requires w.workers[wid].phase.DrainReporting? && w.workers[wid].phase.stored == stored
    ensures CanReport(stored) && ReportMember(w, stored, at).workers == w.workers
    ensures CInv(p, ReportMember(w, stored, at)) && Grows(w, ReportMember(w, stored, at))
  {
    StoredAtHand(p, w, wid);
    DrainingAtHand(p, w, wid);
    ReportMemberCInv(p, w, stored, at);
    ReportMemberFrame(w, stored, at);
  }

  lemma DrainedKept(p: Plan, w: World, wid: nat, r: World)
    requires wid in w.workers && ValidPlan(p) && WorkerShaped(p, w.workers[wid]) && WorkersKept(p, w) && w.workers[wid].phase.DrainReporting?
    requires Grows(w, r)
    ensures HasNext(w.workers[wid].msg)
    ensures HandingOffKept(r, w.workers[wid].msg, Staging(w.workers[wid].phase.j + 1, w.workers[wid].phase.listed))
  {
    DrainingAtHand(p, w, wid);
    AfterDrain(w, r, w.workers[wid].msg, w.workers[wid].phase.j, w.workers[wid].phase.listed);
  }

  lemma DrainReportTo(p: Plan, x: Worker, wid: nat, r: World, v: World)
    requires CInv(p, r) && wid in r.workers && r.workers[wid] == x && x.phase.DrainReporting? && HasNext(x.msg)
    requires HandingOffKept(r, x.msg, Staging(x.phase.j + 1, x.phase.listed))
    requires v == SetPhase(r, wid, Staging(x.phase.j + 1, x.phase.listed))
    ensures CInv(p, v)
  {
    SetHandingOffCInv(p, r, wid, Staging(x.phase.j + 1, x.phase.listed));
  }

  lemma DrainReportKept(p: Plan, w: World, wid: nat, x: Worker, at: int)
    requires wid in w.workers && ValidPlan(p) && QueuesShaped(p, w.queues) && RootsLaunched(w.groups.pending, w.launched) && WorkerShaped(p, x)
    requires CInv(p, w) && w.workers[wid] == x && x.phase.DrainReporting?
    ensures CanReport(x.phase.stored) && ReportMember(w, x.phase.stored, at).workers == w.workers
    ensures CInv(p, ReportMember(w, x.phase.stored, at))
    ensures HasNext(x.msg) && HandingOffKept(ReportMember(w, x.phase.stored, at), x.msg, Staging(x.phase.j + 1, x.phase.listed))
  {
    DrainReported(p, w, wid, x.phase.stored, at);
    DrainedKept(p, w, wid, ReportMember(w, x.phase.stored, at));
  }

  lemma DrainReportStepCInv(p: Plan, w: World, wid: nat, at: int)
    requires wid in w.workers && ValidPlan(p) && QueuesShaped(p, w.queues) && RootsLaunched(w.groups.pending, w.launched) && WorkerShaped(p, w.workers[wid])
    requires CInv(p, w) && CanAdvance(w, w.workers[wid])
    requires w.workers[wid].phase.DrainReporting?
    ensures CInv(p, AdvanceWorker(w, wid, at))
  {
    var x := w.workers[wid];
    DrainReportKept(p, w, wid, x, at);
    DrainReportIs(w, wid, at);
    DrainReportTo(p, x, wid, ReportMember(w, x.phase.stored, at), AdvanceWorker(w, wid, at));
  }

  lemma AdvanceCInv(p: Plan, w: World, wid: nat, at: int)
    requires wid in w.workers && ValidPlan(p) && QueuesShaped(p, w.queues) && RootsLaunched(w.groups.pending, w.launched) && WorkerShaped(p, w.workers[wid])
    requires CInv(p, w) && CanAdvance(w, w.workers[wid])
    ensures CInv(p, AdvanceWorker(w, wid, at))
  {
    var x := w.workers[wid];
    match x.phase {
      case Succeeded =>
        if x.msg.chain == [] { ReportStepCInv(p, w, wid, at); }
        else if x.msg.chain[0].group == [] { LinkStepCInv(p, w, wid, at); }
        else { StageStepCInv(p, w, wid, at); }
      case Listing => ListStepCInv(p, w, wid, at);
      case Staging(_, _) => MemberStepCInv(p, w, wid, at);
      case Draining(_, _) => DrainStepCInv(p, w, wid, at);
      case DrainReading(_, _) => DrainReadStepCInv(p, w, wid, at);
      case DrainReporting(_, _, _) => DrainReportStepCInv(p, w, wid, at);
    }
  }

  // ----- every other step -----

  lemma MoveTaskCInv(p: Plan, w: World, wid: nat, m: TaskMessage, z: ZSet, at: int)
    requires QueuesShaped(p, w.queues) && CInv(p, w) && wid in w.workers && TailOk(p, w, m) && Created(w, m.id)
    ensures CInv(p, MoveTask(w, wid, m, z, at))
  {
    var op := Move(w.workers[wid].entry, m, z, at);
    RunCInv(p, w, m.queue, op);
    RemoveCInv(p, Run(w, m.queue, op), wid);
  }

  lemma DropTaskCInv(p: Plan, w: World, wid: nat)
    requires QueuesShaped(p, w.queues) && CInv(p, w) && wid in w.workers && w.workers[wid].msg.id in w.settled
    ensures CInv(p, DropTask(w, wid))
  {
    var x := w.workers[wid];
    RunCInv(p, w, x.msg.queue, Finish(x.entry, x.msg.id));
    RemoveCInv(p, Run(w, x.msg.queue, Finish(x.entry, x.msg.id)), wid);
  }

  lemma SettleCommutes(w: World, wid: nat, m: TaskMessage, z: ZSet, at: int, id: Id)
    requires wid in w.workers
    ensures Settle(MoveTask(w, wid, m, z, at), id) == MoveTask(Settle(w, id), wid, m, z, at)
    ensures Settle(DropTask(w, wid), id) == DropTask(Settle(w, id), wid)
  {
  }

  /** A task that may finish has handed on or reported, or has nothing to hand on. */
  lemma FinishedIsHanded(p: Plan, w: World, x: Worker)
    requires WorkerShaped(p, x) && WorkerKept(p, w, x) && SettledOk(p, w) && CanFinish(x)
    ensures Birth(p, x.msg.id).Some? && Handed(w, Birth(p, x.msg.id).value)
  {
    assert SettledHanded(p, w, x.msg.id);
  }

  /** A settled task leaves its worker for the completed set, or for good. */
  lemma SettledLeaves(p: Plan, w: World, wid: nat, score: int)
    requires wid in w.workers && QueuesShaped(p, w.queues) && CInv(p, w) && w.workers[wid].msg.id in w.settled
    ensures CInv(p, MoveTask(w, wid, w.workers[wid].msg, ZCompleted, score)) && CInv(p, DropTask(w, wid))
  {
    assert WorkerKept(p, w, w.workers[wid]);
    MoveTaskCInv(p, w, wid, w.workers[wid].msg, ZCompleted, score);
    DropTaskCInv(p, w, wid);
  }

  lemma FinishIs(w: World, wid: nat, at: int)
    requires wid in w.workers
    ensures var m, u := w.workers[wid].msg, Settle(w, w.workers[wid].msg.id);
            FinishWorker(w, wid, at) == if m.retention > 0 then MoveTask(u, wid, m, ZCompleted, at + m.retention) else DropTask(u, wid)
  {
    SettleCommutes(w, wid, w.workers[wid].msg, ZCompleted, at + w.workers[wid].msg.retention, w.workers[wid].msg.id);
  }

  lemma SettledAtHand(p: Plan, w: World, wid: nat, m: TaskMessage)
    requires wid in w.workers && WorkerShaped(p, w.workers[wid]) && CInv(p, w) && CanFinish(w.workers[wid]) && w.workers[wid].msg == m
    ensures CInv(p, Settle(w, m.id))
  {
    assert WorkerKept(p, w, w.workers[wid]);
    FinishedIsHanded(p, w, w.workers[wid]);
    SettleCInv(p, w, m.id);
  }

  lemma FinishTo(p: Plan, w: World, wid: nat, m: TaskMessage, score: int, v: World)
    requires wid in w.workers && w.workers[wid].msg == m && QueuesShaped(p, w.queues) && CInv(p, w) && m.id in w.settled
    requires v == MoveTask(w, wid, m, ZCompleted, score) || v == DropTask(w, wid)
    ensures CInv(p, v)
  {
    SettledLeaves(p, w, wid, score);
  }

  lemma FinishCInv(p: Plan, w: World, wid: nat, at: int, v: World)
    requires wid in w.workers && QueuesShaped(p, w.queues) && WorkerShaped(p, w.workers[wid]) && CInv(p, w) && CanFinish(w.workers[wid])
    requires v == FinishWorker(w, wid, at)
    ensures CInv(p, v)
  {
    var m := w.workers[wid].msg;
    SettledAtHand(p, w, wid, m);
    FinishIs(w, wid, at);
    FinishTo(p, Settle(w, m.id), wid, m, at + m.retention, v);
  }

  /** Only a task without successor and without group may be discarded. */
  lemma DiscardIsLast(p: Plan, id: Id)
    requires ValidPlan(p) && Birth(p, id).Some?
    ensures Birth(p, id).value.noArchive ==> Birth(p, id).value.chain == [] && Birth(p, id).value.groupId.None?
  {
    match id {
      case Indexed(Root(u), k) => RootOfDerived(u, k, 0);
      case Callback(Indexed(Root(u), k)) => RootOfDerived(u, k, 0);
      case Member(Indexed(Root(u), k), j) => RootOfDerived(u, k, j);
      case Member(Root(u), j) => RootOfDerived(u, 0, j);
      case Indexed(Member(Root(u), j), i) =>
        RootOfDerived(u, i, j);
        assert ValidMember(p.flows[u].members[j]);
      case Callback(Root(u)) => RootOfDerived(u, 0, 0);
      case _ =>
    }
  }

  lemma DiscardCInv(p: Plan, w: World, wid: nat)
    requires wid in w.workers && ValidPlan(p) && QueuesShaped(p, w.queues) && CInv(p, w) && Shaped(p, w.workers[wid].msg)
    requires w.workers[wid].msg.noArchive
    ensures CInv(p, Settle(DropTask(w, wid), w.workers[wid].msg.id))
  {
    var m := w.workers[wid].msg;
    DiscardIsLast(p, m.id);
    SettleCInv(p, w, m.id);
    SettleCommutes(w, wid, m, ZCompleted, 0, m.id);
    DropTaskCInv(p, Settle(w, m.id), wid);
  }

  lemma PutAwayCInv(p: Plan, w: World, wid: nat, z: ZSet, at: int)
    requires wid in w.workers && QueuesShaped(p, w.queues) && CInv(p, w)
    ensures var m := w.workers[wid].msg;
            CInv(p, MoveTask(w, wid, m, z, at)) && CInv(p, MoveTask(w, wid, m.(retried := m.retried + 1), z, at))
  {
    var m := w.workers[wid].msg;
    assert WorkerKept(p, w, w.workers[wid]);
    MoveTaskCInv(p, w, wid, m, z, at);
    MoveTaskCInv(p, w, wid, m.(retried := m.retried + 1), z, at);
  }

  lemma RetireCInv(p: Plan, w: World, wid: nat, at: int)
    requires wid in w.workers && ValidPlan(p) && QueuesShaped(p, w.queues) && WorkerShaped(p, w.workers[wid]) && CInv(p, w)
    requires w.workers[wid].phase.Failed?
    ensures CInv(p, RetireWorker(w, wid, at))
  {
    RetireIs(w, wid, at);
    PutAwayCInv(p, w, wid, ZRetry, at);
    PutAwayCInv(p, w, wid, ZArchived, at);
    if w.workers[wid].msg.noArchive { DiscardCInv(p, w, wid); }
  }

  lemma ReclaimCInv(p: Plan, w: World, wid: nat, at: int)
    requires wid in w.workers && QueuesShaped(p, w.queues) && CInv(p, w)
    ensures CInv(p, ReclaimWorker(w, wid, at))
  {
    if w.workers[wid].msg.retried >= w.workers[wid].msg.maxRetry {
      PutAwayCInv(p, w, wid, ZArchived, at);
    } else {
      PutAwayCInv(p, w, wid, ZRetry, at);
    }
  }

  lemma EnqueueBodies(q: Queue, op: Op)
    requires op.Enqueue? || op.Schedule?
    ensures var h := Apply(q, op).hash;
            && op.msg.id in h && h[op.msg.id].msg == Some(op.msg)
            && forall id :: id != op.msg.id ==> (id in h <==> id in q.hash) && (id in h ==> h[id] == q.hash[id])
  {
  }

  lemma LaunchCInv(p: Plan, w: World, op: Op)
    requires QueuesShaped(p, w.queues) && CInv(p, w) && (op.Enqueue? || op.Schedule?) && Birth(p, op.msg.id) == Some(op.msg)
    requires op.msg.groupId.Some? ==> StageOpen(w, BirthKey(op.msg))
    ensures CInv(p, Run(w, op.msg.queue, op).(launched := w.launched + {op.msg.id}))
  {
    var msg := op.msg;
    var v := Run(w, msg.queue, op).(launched := w.launched + {msg.id});
    EnqueueBodies(QueueOf(w, msg.queue), op);
    NotRoot(p, msg.id);
    assert Grows(w, v);
    if Exists(w, msg.queue, msg.id) {
      assert msg.queue in w.queues && msg.id in w.queues[msg.queue].hash;
      RunCInv(p, w, msg.queue, op);
      AlreadyLaunched(p, Run(w, msg.queue, op), msg.id);
    } else {
      assert OneMore(w, v, msg);
      OneMoreQueues(p, w, v, msg);
      OneMoreKept(p, w, v, msg);
      SameGroups(p, w, v);
      GrowsSettled(p, w, v);
      GrowsWorkers(p, w, v);
    }
  }

  lemma NotRoot(p: Plan, id: Id)
    requires Birth(p, id).Some?
    ensures !id.Root?
  {
  }

  lemma AlreadyLaunched(p: Plan, w: World, id: Id)
    requires CInv(p, w) && Created(w, id) && !id.Root?
    ensures CInv(p, w.(launched := w.launched + {id}))
  {
    var v := w.(launched := w.launched + {id});
    assert Grows(w, v);
    SameKept(p, w, v);
    SameGroups(p, w, v);
    GrowsSettled(p, w, v);
    GrowsWorkers(p, w, v);
  }

  lemma LaunchGroupCInv(p: Plan, w: World, u: string)
    requires ValidPlan(p) && RootsLaunched(w.groups.pending, w.launched) && CInv(p, w) && u in p.flows && p.flows[u].GroupFlow? && Root(u) !in w.launched
    ensures CInv(p, w.(groups := Create(w.groups, FlowKey(u, p.flows[u]), FlowSlots(u, p.flows[u])),
                       launched := w.launched + {Root(u)}))
  {
    var key, slots := FlowKey(u, p.flows[u]), FlowSlots(u, p.flows[u]);
    assert Member(Root(u), 0) in slots;
    assert key !in w.groups.pending;
    var g := Create(w.groups, key, slots);
    assert Birth(p, Root(u)).None?;
    forall k | k in g.pending && k.1.Indexed? && StageSize(p, k).Some?
      ensures LeftIsCreated(p, w.(groups := g, launched := w.launched + {Root(u)}), k)
    {
      assert LeftIsCreated(p, w, k);
    }
    GroupsChange(p, w, g, w.launched + {Root(u)});
  }

  lemma TimePassesCInv(p: Plan, w: World, t: int)
    requires CInv(p, w) && Lossless(p, w, TimePasses(t))
    ensures CInv(p, w.(groups := Pass(w.groups, t)))
  {
    var v := w.(groups := Pass(w.groups, t));
    assert v.groups.pending == w.groups.pending;
    assert Grows(w, v);
    SameKept(p, w, v);
    SameGroups(p, w, v);
    GrowsSettled(p, w, v);
    GrowsWorkers(p, w, v);
  }

  lemma NewWorkerCInv(p: Plan, w: World, wid: nat, x: Worker)
    requires CInv(p, w) && WorkerKept(p, w, x)
    ensures CInv(p, w.(workers := w.workers[wid := x]))
  {
    var v := w.(workers := w.workers[wid := x]);
    assert Grows(w, v);
    SameKept(p, w, v);
    SameGroups(p, w, v);
    GrowsSettled(p, w, v);
    GrowsWorkers(p, w, v);
    GrowsWorker(p, w, v, x);
  }

  lemma LogCInv(p: Plan, w: World, log: set<Input>)
    requires CInv(p, w)
    ensures CInv(p, w.(log := log))
  {
    var v := w.(log := log);
    assert Grows(w, v);
    SameKept(p, w, v);
    SameGroups(p, w, v);
    GrowsSettled(p, w, v);
    GrowsWorkers(p, w, v);
  }

  lemma FetchCInv(p: Plan, w: World, e: Event)
    requires QueuesShaped(p, w.queues) && CInv(p, w) && e.Fetch? && Enabled(p, w, e)
    ensures CInv(p, Step(p, w, e))
  {
    assert e.queue in w.queues && e.id in w.queues[e.queue].hash;
    var body := w.queues[e.queue].hash[e.id];
    assert BodyShaped(p, e.queue, e.id, body) && TailOk(p, w, body.msg.value);
    NewWorkerCInv(p, w, e.wid, Worker(e.entry, body.msg.value, Running));
  }

  lemma HandlerOkCInv(p: Plan, w: World, wid: nat)
    requires CInv(p, w) && Enabled(p, w, HandlerOk(wid))
    ensures CInv(p, Step(p, w, HandlerOk(wid)))
  {
    var x := w.workers[wid];
    assert WorkerKept(p, w, x);
    var y := x.(msg := WithResult(x.msg, p.h(InputOf(x.msg))), phase := Succeeded);
    NewWorkerCInv(p, w, wid, y);
    LogCInv(p, w.(workers := w.workers[wid := y]), w.log + {InputOf(x.msg)});
  }

  lemma SetIdleCInv(p: Plan, w: World, wid: nat, ph: Phase)
    requires CInv(p, w) && wid in w.workers && (ph.Failed? || ph.Succeeded?)
    ensures CInv(p, SetPhase(w, wid, ph))
  {
    assert WorkerKept(p, w, w.workers[wid]);
    SetPhaseCInv(p, w, wid, ph);
  }

  lemma LaunchChainCInv(p: Plan, w: World, e: Event)
    requires QueuesShaped(p, w.queues) && CInv(p, w) && e.LaunchChain? && Enabled(p, w, e)
    ensures CInv(p, Step(p, w, e))
  {
    BirthId(p, ChainStart(e.u));
    RootOfDerived(e.u, 0, 0);
    LaunchCInv(p, w, e.op);
  }

  lemma LaunchMemberCInv(p: Plan, w: World, e: Event)
    requires QueuesShaped(p, w.queues) && CInv(p, w) && e.LaunchMember? && Enabled(p, w, e)
    ensures CInv(p, Step(p, w, e))
  {
    var f := p.flows[e.u];
    BirthId(p, MemberStart(f, e.u, e.j));
    RootOfDerived(e.u, 0, e.j);
    assert BirthKey(e.op.msg) == FlowKey(e.u, f);
    LaunchCInv(p, w, e.op);
  }

  lemma EnvCInv(p: Plan, w: World, e: Event)
    requires QueuesShaped(p, w.queues) && CInv(p, w) && e.Env? && Enabled(p, w, e) && Lossless(p, w, e)
    ensures CInv(p, Step(p, w, e))
  {
    RunCInv(p, w, e.queue, e.op);
  }

  lemma WorkerStepCInv(p: Plan, w: World, e: Event)
    requires ValidPlan(p) && SInv(p, w) && CInv(p, w) && Enabled(p, w, e)
    requires e.Advance? || e.Again? || e.Done? || e.Retire? || e.Reclaim?
    ensures CInv(p, Step(p, w, e))
  {
    assert WorkerShaped(p, w.workers[e.wid]);
    match e {
      case Advance(wid, at) => AdvanceCInv(p, w, wid, at);
      case Again(wid) => SetIdleCInv(p, w, wid, Succeeded);
      case Done(wid, at) => FinishCInv(p, w, wid, at, FinishWorker(w, wid, at));
      case Retire(wid, at) => RetireCInv(p, w, wid, at);
      case Reclaim(wid, at) => ReclaimCInv(p, w, wid, at);
    }
  }

  lemma StepCInv(p: Plan, w: World, e: Event)
    requires ValidPlan(p) && SInv(p, w) && CInv(p, w) && Enabled(p, w, e) && Lossless(p, w, e)
    ensures CInv(p, Step(p, w, e))
  {
    match e {
      case LaunchChain(_, _) => LaunchChainCInv(p, w, e);
      case LaunchGroup(u) => LaunchGroupCInv(p, w, u);
      case LaunchMember(_, _, _) => LaunchMemberCInv(p, w, e);
      case Env(_, _) => EnvCInv(p, w, e);
      case TimePasses(t) => TimePassesCInv(p, w, t);
      case Fetch(_, _, _, _) => FetchCInv(p, w, e);
      case HandlerOk(wid) => HandlerOkCInv(p, w, wid);
      case HandlerErr(wid, skip) =>
        SetIdleCInv(p, w, wid, Failed(skip));
        LogCInv(p, SetPhase(w, wid, Failed(skip)), w.log + {InputOf(w.workers[wid].msg)});
      case Vanish(wid) => RemoveCInv(p, w, wid);
      case _ => WorkerStepCInv(p, w, e);
    }
  }

  ghost predicate LosslessRun(p: Plan, ws: seq<World>, es: seq<Event>) {
    IsRun(p, ws, es) && forall k :: 0 <= k < |es| ==> Lossless(p, ws[k], es[k])
  }

  lemma {:induction false} AlwaysCInv(p: Plan, ws: seq<World>, es: seq<Event>, k: nat)
    requires ValidPlan(p) && LosslessRun(p, ws, es) && k < |ws|
    ensures CInv(p, ws[k])
  {
    if k > 0 {
      AlwaysCInv(p, ws, es, k - 1);
      AlwaysShaped(p, ws, es, k - 1);
      StepCInv(p, ws[k - 1], es[k - 1]);
    }
  }

  // ----- what it means for a workflow -----

  /** The store holds a message of this group member which hands `tail` to the callback. */
  ghost predicate HoldsForCallback(w: World, queue: string, id: Id, tail: seq<ChainLink>) {
    && Exists(w, queue, id)
    && QueueOf(w, queue).hash[id].msg.Some?
    && QueueOf(w, queue).hash[id].msg.value.groupCallbackChain == tail
    && QueueOf(w, queue).hash[id].msg.value.chain == []
  }

  /** Stage `k` is open: some members have not reported, and each of those is stored. */
  ghost predicate StagePending(w: World, u: string, stages: seq<ChainLink>, k: nat)
    requires k < |stages|
  {
    var gid := Indexed(Root(u), k);
    var key := (stages[k].queue, gid);
    && key in w.groups.pending && w.groups.pending[key] != {}
    && forall j :: 0 <= j < |stages[k].group| && Member(gid, j) in w.groups.pending[key] ==>
         HoldsForCallback(w, stages[k].group[j].queue, Member(gid, j), stages[k + 1..])
  }

  /** The rest of the chain from stage `k` on is stored with stage `k`. */
  ghost predicate StageAlive(w: World, u: string, stages: seq<ChainLink>, k: nat)
    requires k < |stages|
  {
    if stages[k].group == [] then Holds(w, stages[k].queue, Indexed(Root(u), k), stages[k + 1..])
    else StagePending(w, u, stages, k) || Holds(w, stages[k].queue, Callback(Indexed(Root(u), k)), stages[k + 1..])
  }

  function CarrierId(u: string, stages: seq<ChainLink>, k: nat): Id
    requires k < |stages|
  {
    if stages[k].group == [] then Indexed(Root(u), k) else Callback(Indexed(Root(u), k))
  }

  lemma CarrierBirth(p: Plan, u: string, k: nat)
    requires u in p.flows && p.flows[u].ChainFlow? && k < |p.flows[u].stages|
    ensures var stages := p.flows[u].stages;
            Birth(p, CarrierId(u, stages, k)) == Some(Carrier(p.h, Root(u), stages, k))
  {
    RootOfDerived(u, k, 0);
  }

  lemma CarrierStored(p: Plan, w: World, u: string, k: nat)
    requires CInv(p, w) && u in p.flows && p.flows[u].ChainFlow? && k < |p.flows[u].stages|
    requires var id := CarrierId(u, p.flows[u].stages, k); Created(w, id) && id !in w.settled
    ensures StageAlive(w, u, p.flows[u].stages, k)
  {
    CarrierBirth(p, u, k);
    assert KeptAt(p, w, CarrierId(u, p.flows[u].stages, k));
  }

  /** A stage that was opened and whose callback was not created holds all it needs. */
  lemma PendingStored(p: Plan, w: World, u: string, k: nat)
    requires QueuesShaped(p, w.queues) && CInv(p, w) && u in p.flows && p.flows[u].ChainFlow? && k < |p.flows[u].stages|
    requires var gid := Indexed(Root(u), k);
             var key := (p.flows[u].stages[k].queue, gid);
             && !Created(w, Callback(gid)) && StageOpen(w, key)
             && forall j :: 0 <= j < |p.flows[u].stages[k].group| ==> MemberThere(w, key, j)
    ensures StagePending(w, u, p.flows[u].stages, k)
  {
    var stages, gid := p.flows[u].stages, Indexed(Root(u), k);
    var key := (stages[k].queue, gid);
    forall j | 0 <= j < |stages[k].group| && Member(gid, j) in w.groups.pending[key]
      ensures HoldsForCallback(w, stages[k].group[j].queue, Member(gid, j), stages[k + 1..])
    {
      assert MemberThere(w, key, j);
      MemberStored(p, w, u, k, j);
    }
  }

  lemma MemberStored(p: Plan, w: World, u: string, k: nat, j: nat)
    requires QueuesShaped(p, w.queues) && CInv(p, w) && u in p.flows && p.flows[u].ChainFlow? && k < |p.flows[u].stages|
    requires j < |p.flows[u].stages[k].group| && Created(w, Member(Indexed(Root(u), k), j))
    requires !Created(w, Callback(Indexed(Root(u), k)))
    requires var key := (p.flows[u].stages[k].queue, Indexed(Root(u), k));
             key in w.groups.pending && Member(Indexed(Root(u), k), j) in w.groups.pending[key]
    ensures HoldsForCallback(w, p.flows[u].stages[k].group[j].queue, Member(Indexed(Root(u), k), j), p.flows[u].stages[k + 1..])
    ensures Member(Indexed(Root(u), k), j) !in w.settled
  {
    var id := Member(Indexed(Root(u), k), j);
    RootOfDerived(u, k, j);
    assert SettledHanded(p, w, id) && KeptAt(p, w, id);
    var queue := p.flows[u].stages[k].group[j].queue;
    assert BodyShaped(p, queue, id, QueueOf(w, queue).hash[id]);
  }

  /** The chain was carried past stage `k - 1`: it ended, or stage `k` or a later one is
      stored together with every stage after it. */
  ghost predicate CarriedOn(w: World, u: string, stages: seq<ChainLink>, k: nat) {
    stages != [] &&
    (CarrierId(u, stages, |stages| - 1) in w.settled || exists i :: k <= i < |stages| && StageAlive(w, u, stages, i))
  }

  lemma {:induction false} TailStored(p: Plan, w: World, u: string, k: nat)
    requires QueuesShaped(p, w.queues) && CInv(p, w) && u in p.flows && p.flows[u].ChainFlow? && k < |p.flows[u].stages|
    requires Created(w, CarrierId(u, p.flows[u].stages, k))
    ensures var stages := p.flows[u].stages;
            CarriedOn(w, u, stages, if CarrierId(u, stages, k) in w.settled then k + 1 else k)
    decreases |p.flows[u].stages| - k
  {
    var stages := p.flows[u].stages;
    var id := CarrierId(u, stages, k);
    if id !in w.settled {
      CarrierStored(p, w, u, k);
    } else if k + 1 < |stages| {
      CarrierBirth(p, u, k);
      assert SettledHanded(p, w, id);
      var gid := Indexed(Root(u), k + 1);
      if stages[k + 1].group != [] && !Created(w, Callback(gid)) {
        PendingStored(p, w, u, k + 1);
        assert StageAlive(w, u, stages, k + 1);
      } else {
        TailStored(p, w, u, k + 1);
      }
    }
  }

  /** Chain continuity: in every lossless run, whatever crashes in between, an enqueued chain
      is never lost behind the furthest task it has reached. For every stage whose task was
      created, the chain has come to the end of its last stage, or that stage or a later one
      is stored with all the stages after it; and once the stage is settled, a later one is. */
  lemma ChainContinuity(p: Plan, ws: seq<World>, es: seq<Event>, n: nat, u: string, k: nat)
    requires ValidPlan(p) && LosslessRun(p, ws, es) && n < |ws|
    requires u in p.flows && p.flows[u].ChainFlow? && k < |p.flows[u].stages|
    requires Created(ws[n], CarrierId(u, p.flows[u].stages, k))
    ensures var stages := p.flows[u].stages;
            CarriedOn(ws[n], u, stages, if CarrierId(u, stages, k) in ws[n].settled then k + 1 else k)
  {
    AlwaysShaped(p, ws, es, n);
    AlwaysCInv(p, ws, es, n);
    TailStored(p, ws[n], u, k);
  }

  /** Link `i` of member `j` or a later one is stored with the links after it. */
  ghost predicate LinkAlive(w: World, u: string, links: seq<ChainLink>, j: nat, from: nat) {
    exists i :: from <= i < |links| && Holds(w, links[i].queue, Indexed(Member(Root(u), j), i), links[i + 1..])
  }

  ghost predicate SlotOpen(w: World, u: string, f: Workflow, j: nat)
    requires f.GroupFlow?
  {
    FlowKey(u, f) in w.groups.pending && Member(Root(u), j) in w.groups.pending[FlowKey(u, f)] && !Created(w, Callback(Root(u)))
  }

  lemma {:induction false} LinksStored(p: Plan, w: World, u: string, j: nat, i: nat)
    requires ValidPlan(p) && CInv(p, w) && u in p.flows && p.flows[u].GroupFlow? && j < |p.flows[u].members|
    requires p.flows[u].members[j].Seq? && i < |p.flows[u].members[j].links|
    requires Created(w, Indexed(Member(Root(u), j), i)) && SlotOpen(w, u, p.flows[u], j)
    ensures LinkAlive(w, u, p.flows[u].members[j].links, j, if Indexed(Member(Root(u), j), i) in w.settled then i + 1 else i)
    decreases |p.flows[u].members[j].links| - i
  {
    var id, links := Indexed(Member(Root(u), j), i), p.flows[u].members[j].links;
    RootOfDerived(u, i, j);
    assert ValidMember(p.flows[u].members[j]);
    if id !in w.settled {
      assert KeptAt(p, w, id);
      assert Holds(w, links[i].queue, id, links[i + 1..]);
    } else {
      assert SettledHanded(p, w, id);
      if i + 1 < |links| { LinksStored(p, w, u, j, i + 1); }
    }
  }

  lemma FlatStored(p: Plan, w: World, u: string, j: nat)
    requires CInv(p, w) && u in p.flows && p.flows[u].GroupFlow? && j < |p.flows[u].members|
    requires p.flows[u].members[j].Flat?
    requires Created(w, Member(Root(u), j)) && SlotOpen(w, u, p.flows[u], j)
    ensures Holds(w, p.flows[u].members[j].link.queue, Member(Root(u), j), [])
  {
    var id := Member(Root(u), j);
    RootOfDerived(u, 0, j);
    assert SettledHanded(p, w, id) && KeptAt(p, w, id);
  }

  /** Every task of member `j` that was created is stored, or a later link is. */
  ghost predicate MemberAlive(w: World, u: string, f: Workflow, j: nat)
    requires f.GroupFlow? && j < |f.members|
  {
    var id := Member(Root(u), j);
    match f.members[j]
    case Flat(link) => Created(w, id) ==> Holds(w, link.queue, id, [])
    case Seq(links) => forall i {:trigger Indexed(id, i)} :: 0 <= i < |links| && Created(w, Indexed(id, i)) ==>
      LinkAlive(w, u, links, j, if Indexed(id, i) in w.settled then i + 1 else i)
  }

  lemma MemberKept(p: Plan, w: World, u: string, j: nat)
    requires ValidPlan(p) && CInv(p, w) && u in p.flows && p.flows[u].GroupFlow? && j < |p.flows[u].members|
    requires SlotOpen(w, u, p.flows[u], j)
    ensures MemberAlive(w, u, p.flows[u], j)
  {
    var f := p.flows[u];
    if f.members[j].Flat? {
      if Created(w, Member(Root(u), j)) { FlatStored(p, w, u, j); }
    } else {
      var links := f.members[j].links;
      forall i | 0 <= i < |links| && Created(w, Indexed(Member(Root(u), j), i))
        ensures LinkAlive(w, u, links, j, if Indexed(Member(Root(u), j), i) in w.settled then i + 1 else i)
      {
        LinksStored(p, w, u, j, i);
      }
    }
  }

  /** Group continuity: in every lossless run a registered group has its callback stored or
      done with, or its SET is not empty, and for every member still in it each task of the
      member that was created is stored with the rest of its chain, or a later one is. */
  lemma GroupContinuity(p: Plan, ws: seq<World>, es: seq<Event>, n: nat, u: string)
    requires ValidPlan(p) && LosslessRun(p, ws, es) && n < |ws|
    requires u in p.flows && p.flows[u].GroupFlow? && Root(u) in ws[n].launched
    ensures var w, f := ws[n], p.flows[u];
            || Callback(Root(u)) in w.settled || Holds(w, f.callback.queue, Callback(Root(u)), [])
            || (&& FlowKey(u, f) in w.groups.pending && w.groups.pending[FlowKey(u, f)] != {}
                && forall j :: 0 <= j < |f.members| && Member(Root(u), j) in w.groups.pending[FlowKey(u, f)] ==>
                     MemberAlive(w, u, f, j))
  {
    AlwaysCInv(p, ws, es, n);
    var w, f := ws[n], p.flows[u];
    assert StageOpen(w, FlowKey(u, f));
    if Created(w, Callback(Root(u))) {
      RootOfDerived(u, 0, 0);
      assert KeptAt(p, w, Callback(Root(u)));
    } else {
      forall j | 0 <= j < |f.members| && Member(Root(u), j) in w.groups.pending[FlowKey(u, f)]
        ensures MemberAlive(w, u, f, j)
      {
        MemberKept(p, w, u, j);
      }
    }
  }
}
