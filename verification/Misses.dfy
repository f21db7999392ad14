/** What each of the conditions on meaning is for: whenever one is broken, for any plan and
    at any moment, a group keeps a wrong result for a member, or its callback is created with
    inputs the direct evaluation does not give it. */
module Misses {
  import opened Ids
  import opened Base
  import opened Store
  import opened GroupState
  import opened Flow
  import opened World
  import opened Shape
  import opened Meaning

  /** What the group has for member `j`, nothing recorded being the empty result. */
  function RecordedFor(g: Groups, key: Key, j: nat): Bytes {
    if j in ResultsOf(g, key) then ResultsOf(g, key)[j] else []
  }

  /** The slot of member `j` has left the SET and what it left behind is not its result. */
  ghost predicate WrongSlot(p: Plan, w: World, key: Key, j: nat) {
    && SpecOf(p, key).Some? && j < |SpecOf(p, key).value.outs|
    && key in w.groups.pending && Member(key.1, j) !in w.groups.pending[key]
    && RecordedFor(w.groups, key, j) != SpecOf(p, key).value.outs[j]
  }

  /** The callback is stored with inputs that are not those of its call. */
  ghost predicate WrongCallback(p: Plan, w: World, key: Key) {
    && Birth(p, Callback(key.1)).Some? && Exists(w, key.0, Callback(key.1))
    && var m := QueueOf(w, key.0).hash[Callback(key.1)].msg;
       m.Some? && InputOf(m.value) != InputOf(Birth(p, Callback(key.1)).value)
  }

  /** Every grouped message, of a last link or not, agrees with its group. */
  lemma GroupSpec(p: Plan, m: TaskMessage)
    requires ValidPlan(p) && Shaped(p, m) && m.groupId.Some?
    ensures CanReport(m) && SpecOf(p, GroupKeyOf(m)).Some?
    ensures var s := SpecOf(p, GroupKeyOf(m)).value;
            && SpecSound(p, GroupKeyOf(m), s) && s.gid == m.groupId.value
            && m.groupIndex < |s.outs| == m.groupSize && SlotOf(m) == Member(s.gid, m.groupIndex)
  {
    GroupedKnows(p, m, []);
    match m.id {
      case Member(Indexed(Root(u), k), j) => RootOfDerived(u, k, j);
      case Member(Root(u), j) => RootOfDerived(u, 0, j);
      case Indexed(Member(Root(u), j), i) => RootOfDerived(u, i, j);
      case _ =>
    }
    SpecIsSound(p, GroupKeyOf(m));
  }

  /** Results that are wrong for one member never assemble to what the callback must receive. */
  lemma WrongAssembly(outs: seq<Bytes>, r: map<nat, Bytes>, j: nat)
    requires j < |outs| && (if j in r then r[j] else []) != outs[j]
    ensures (if r != map[] && |outs| > 0 then Assemble(r, |outs|) else []) != Collect(outs)
  {
    if r != map[] {
      assert Assemble(r, |outs|)[j] != outs[j];
    } else {
      assert outs[j] != [];
    }
  }

  lemma CallbackStored(w: World, cb: TaskMessage, delay: int, at: int)
    requires !Exists(w, cb.queue, cb.id)
    ensures var v := CreateTask(w, cb, delay, at);
            Exists(v, cb.queue, cb.id) && QueueOf(v, cb.queue).hash[cb.id].msg == Some(cb)
  {
  }

  /** What a report records for its member. */
  function Recorded(g: Groups, key: Key, j: nat, result: Bytes): Bytes {
    if result != [] then result else RecordedFor(g, key, j)
  }

  lemma WrongReportGroups(g: Groups, key: Key, gid: Id, j: nat, outs: seq<Bytes>, result: Bytes)
    requires key in g.pending && j < |outs| && Recorded(g, key, j, result) != outs[j]
    ensures var o := Report(g, key, Member(gid, j), j, |outs|, result, false);
            if key in o.groups.pending
            then !o.fires && Member(gid, j) !in o.groups.pending[key] && RecordedFor(o.groups, key, j) != outs[j]
            else o.fires && o.collected != Collect(outs)
  {
    var r := if result != [] then ResultsOf(g, key)[j := result] else ResultsOf(g, key);
    assert (if j in r then r[j] else []) != outs[j];
    if g.pending[key] - {Member(gid, j)} == {} { WrongAssembly(outs, r, j); }
  }

  /** A report that leaves a wrong result behind, while the callback does not exist. */
  lemma WrongReport(p: Plan, w: World, m: TaskMessage, at: int)
    requires ValidPlan(p) && Shaped(p, m) && m.groupId.Some?
    requires CanReport(m) && GroupKeyOf(m) in w.groups.pending && !Exists(w, m.groupQueue, Callback(m.groupId.value))
    requires SpecOf(p, GroupKeyOf(m)).Some? && m.groupIndex < |SpecOf(p, GroupKeyOf(m)).value.outs|
    requires Recorded(w.groups, GroupKeyOf(m), m.groupIndex, m.result) != SpecOf(p, GroupKeyOf(m)).value.outs[m.groupIndex]
    ensures var v := ReportMember(w, m, at);
            WrongSlot(p, v, GroupKeyOf(m), m.groupIndex) || WrongCallback(p, v, GroupKeyOf(m))
  {
    GroupSpec(p, m);
    var key := GroupKeyOf(m);
    var s := SpecOf(p, key).value;
    WrongReportGroups(w.groups, key, s.gid, m.groupIndex, s.outs, m.result);
    var o := Report(w.groups, key, SlotOf(m), m.groupIndex, m.groupSize, m.result, false);
    if o.fires {
      GroupedKnows(p, m, o.collected);
      CallbackStored(w.(groups := o.groups), CallbackMessage(m, o.collected), m.groupCallback.value.delay, at);
    }
  }

  // ----- a drain that reads a message without its result -----

  /** The two calls with which a drain goes on, once it has found its member completed. */
  function Drained(w: World, wid: nat, at: int): World
    requires wid in w.workers && w.workers[wid].phase.DrainReading? && CanAdvance(w, w.workers[wid])
    requires ReadBy(w, w.workers[wid]).Some? && CanReport(ReadBy(w, w.workers[wid]).value)
  {
    AdvanceWorker(AdvanceWorker(w, wid, at), wid, at)
  }

  lemma DrainedIs(w: World, wid: nat, m: TaskMessage, at: int)
    requires wid in w.workers && w.workers[wid].phase.DrainReading? && CanAdvance(w, w.workers[wid])
    requires ReadBy(w, w.workers[wid]) == Some(m) && CanReport(m)
    ensures Drained(w, wid, at).groups == ReportMember(w, m, at).groups && Drained(w, wid, at).queues == ReportMember(w, m, at).queues
  {
    DrainReadIs(w, wid, at);
    var u := AdvanceWorker(w, wid, at);
    assert u == SetPhase(w, wid, DrainReporting(w.workers[wid].phase.j, w.workers[wid].phase.listed, m));
    DrainReportIs(u, wid, at);
    SameReport(w, u, m, at);
  }

  /** The group waits for the result of this message's task: the SET is there, nothing was
      recorded for the member, whose result is not empty, and the callback does not exist. */
  ghost predicate Owed(p: Plan, w: World, m: TaskMessage) {
    && CanReport(m) && SpecOf(p, GroupKeyOf(m)).Some? && m.groupIndex < |SpecOf(p, GroupKeyOf(m)).value.outs|
    && SpecOf(p, GroupKeyOf(m)).value.outs[m.groupIndex] != []
    && GroupKeyOf(m) in w.groups.pending && m.groupIndex !in ResultsOf(w.groups, GroupKeyOf(m))
    && !Exists(w, m.groupQueue, Callback(m.groupId.value))
  }

  ghost predicate ResultMissed(p: Plan, w: World, m: TaskMessage)
    requires CanReport(m)
  {
    WrongSlot(p, w, GroupKeyOf(m), m.groupIndex) || WrongCallback(p, w, GroupKeyOf(m))
  }

  /** Whenever a drain reads a message without the result the group waits for, its report
      leaves the group or the callback without that result. */
  lemma DrainMisses(p: Plan, w: World, wid: nat, m: TaskMessage, at: int)
    requires ValidPlan(p) && SInv(p, w) && wid in w.workers && w.workers[wid].phase.DrainReading? && CanAdvance(w, w.workers[wid])
    requires ReadBy(w, w.workers[wid]) == Some(m) && m.result == [] && Owed(p, w, m)
    ensures ResultMissed(p, Drained(w, wid, at), m)
  {
    assert WorkerShaped(p, w.workers[wid]);
    ReadShaped(p, w, w.workers[wid].msg, w.workers[wid].phase.j);
    DrainMissesAt(p, w, wid, m, at);
  }

  lemma DrainMissesAt(p: Plan, w: World, wid: nat, m: TaskMessage, at: int)
    requires ValidPlan(p) && wid in w.workers && w.workers[wid].phase.DrainReading? && CanAdvance(w, w.workers[wid])
    requires ReadBy(w, w.workers[wid]) == Some(m) && m.result == [] && Shaped(p, m) && Owed(p, w, m)
    ensures ResultMissed(p, Drained(w, wid, at), m)
  {
    DrainedIs(w, wid, m, at);
    WrongReport(p, w, m, at);
    SameWrong(p, ReportMember(w, m, at), Drained(w, wid, at), GroupKeyOf(m), m.groupIndex);
  }

  lemma SameWrong(p: Plan, w: World, v: World, key: Key, j: nat)
    requires v.groups == w.groups && v.queues == w.queues
    ensures WrongSlot(p, v, key, j) == WrongSlot(p, w, key, j) && WrongCallback(p, v, key) == WrongCallback(p, w, key)
  {
  }

  /** A second holder of the member writes its own copy back, for a retry or to the archive, itself
      or through the recoverer, and the drain reads that copy. */
  lemma StaleCopyIsRead(p: Plan, w: World, x: Worker, other: nat, m: TaskMessage, z: ZSet, at: int, v: World)
    requires ValidPlan(p) && WorkerShaped(p, x) && x.phase.DrainReading? && CanAdvance(w, x) && other in w.workers
    requires Shaped(p, m) && m.id == Member(StageId(x.msg), x.phase.j) && v == MoveTask(w, other, m, z, at)
    ensures v.groups == w.groups && v.workers == w.workers - {other} && ReadBy(v, x) == Some(m)
  {
    MovedIsStored(w, other, m, z, at);
    SameQueue(p, x, m);
  }

  lemma MovedIsStored(w: World, other: nat, m: TaskMessage, z: ZSet, at: int)
    requires other in w.workers
    ensures var v := MoveTask(w, other, m, z, at);
            && v.groups == w.groups && v.workers == w.workers - {other}
            && Exists(v, m.queue, m.id) && QueueOf(v, m.queue).hash[m.id].msg == Some(m)
  {
  }

  lemma SameQueue(p: Plan, x: Worker, m: TaskMessage)
    requires ValidPlan(p) && WorkerShaped(p, x) && x.phase.DrainReading? && HasNext(x.msg) && x.phase.j < |x.msg.chain[0].group|
    requires Shaped(p, m) && m.id == Member(StageId(x.msg), x.phase.j)
    ensures MemberMessage(x.msg, x.phase.j).queue == m.queue
  {
    NextNewborn(p, x.msg);
    var member := MemberMessage(x.msg, x.phase.j);
    assert Newborn(p, member);
    SameBirth(p, member);
    SameBirth(p, m);
  }

  /** Whenever a second holder without the result writes its copy back between the two reads
      of a drain, the drain's report misses the result. */
  lemma StaleCopyMisses(p: Plan, w: World, wid: nat, x: Worker, other: nat, y: Worker, m: TaskMessage, z: ZSet, at: int, v: World)
    requires ValidPlan(p) && wid != other && wid in w.workers && x == w.workers[wid] && x.phase.DrainReading? && CanAdvance(w, x)
    requires other in w.workers && y == w.workers[other] && WorkerShaped(p, x) && WorkerShaped(p, y)
    requires y.msg.id == Member(StageId(x.msg), x.phase.j) && y.msg.result == []
    requires m == y.msg.(retried := m.retried) && v == MoveTask(w, other, m, z, at) && Owed(p, v, m)
    ensures wid in v.workers && v.workers[wid] == x && ReadBy(v, x) == Some(m)
    ensures ResultMissed(p, Drained(v, wid, at), m)
  {
    StaleCopyIsRead(p, w, x, other, m, z, at, v);
    DrainMissesAt(p, v, wid, m, at);
  }

  // ----- a HASH that expires before its SET -----

  /** Whenever the HASH of a group expires while the SET lives, every result recorded for a
      member that has left is lost. */
  lemma ExpiryLoses(p: Plan, w: World, t: int, key: Key, j: nat)
    requires key in w.groups.pending && j in ResultsOf(w.groups, key) && Member(key.1, j) !in w.groups.pending[key]
    requires SpecOf(p, key).Some? && j < |SpecOf(p, key).value.outs| && SpecOf(p, key).value.outs[j] != []
    requires Alive(w.groups.setUntil, key, t) && !Alive(w.groups.hashUntil, key, t)
    ensures WrongSlot(p, w.(groups := Pass(w.groups, t)), key, j)
  {
  }

  // ----- a wrong result stays -----

  /** What a group has lost for one member does not come back with the reports of others: each
      leaves it wrong, and the last of them creates the callback with wrong inputs. */
  lemma WrongStays(p: Plan, w: World, m: TaskMessage, at: int, j: nat)
    requires ValidPlan(p) && Shaped(p, m) && m.groupId.Some? && CanReport(m) && m.groupIndex != j
    requires WrongSlot(p, w, GroupKeyOf(m), j) && !Exists(w, m.groupQueue, Callback(m.groupId.value))
    ensures var v := ReportMember(w, m, at);
            WrongSlot(p, v, GroupKeyOf(m), j) || WrongCallback(p, v, GroupKeyOf(m))
  {
    GroupSpec(p, m);
    var key := GroupKeyOf(m);
    var s := SpecOf(p, key).value;
    WrongStaysGroups(w.groups, key, s.gid, m.groupIndex, s.outs, m.result, j);
    var o := Report(w.groups, key, SlotOf(m), m.groupIndex, m.groupSize, m.result, false);
    if o.fires {
      GroupedKnows(p, m, o.collected);
      CallbackStored(w.(groups := o.groups), CallbackMessage(m, o.collected), m.groupCallback.value.delay, at);
    }
  }

  lemma WrongStaysGroups(g: Groups, key: Key, gid: Id, i: nat, outs: seq<Bytes>, result: Bytes, j: nat)
    requires key in g.pending && i != j && j < |outs| && Member(gid, j) !in g.pending[key] && RecordedFor(g, key, j) != outs[j]
    ensures var o := Report(g, key, Member(gid, i), i, |outs|, result, false);
            if key in o.groups.pending
            then !o.fires && Member(gid, j) !in o.groups.pending[key] && RecordedFor(o.groups, key, j) != outs[j]
            else o.fires && o.collected != Collect(outs)
  {
    var r := if result != [] then ResultsOf(g, key)[i := result] else ResultsOf(g, key);
    assert (if j in r then r[j] else []) != outs[j];
    if g.pending[key] - {Member(gid, i)} == {} { WrongAssembly(outs, r, j); }
  }

  // ----- a wrong callback is called -----

  /** Whenever a callback is stored with wrong inputs and delivered, its handler is called with
      inputs the direct evaluation does not give it. */
  lemma WrongCallIsMade(p: Plan, w: World, key: Key, wid: nat, entry: nat)
    requires ValidPlan(p) && SInv(p, w) && WrongCallback(p, w, key) && wid !in w.workers
    ensures var e := Fetch(wid, key.0, Callback(key.1), entry);
            Enabled(p, w, e) && Enabled(p, Step(p, w, e), HandlerOk(wid))
    ensures var call := InputOf(QueueOf(w, key.0).hash[Callback(key.1)].msg.value);
            && RootOf(call.id) in p.flows && !CalledBy(p.h, RootOf(call.id), p.flows[RootOf(call.id)], call)
            && call in Step(p, Step(p, w, Fetch(wid, key.0, Callback(key.1), entry)), HandlerOk(wid)).log
  {
    BirthRoot(p, Callback(key.1));
    var body := w.queues[key.0].hash[Callback(key.1)];
    assert BodyShaped(p, key.0, Callback(key.1), body);
    CalledExactly(p, InputOf(body.msg.value));
  }
}
