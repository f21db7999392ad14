/** Why member-chain links before the last must not be retained: the retained record has lost
    its tail, so a re-run reports to the group, too early and with its own result. */
module RetainedLink {
  import opened Ids
  import opened Base
  import opened Store
  import opened GroupState
  import opened Flow
  import opened World
  import opened Shape
  import opened Meaning
  import opened Misses
  import opened Runs

  /** Whatever the plan and the result: a worker that re-runs a link whose tail was dropped takes
      the member's slot out of the pending SET, creating the callback when it was the last, and
      unless the group then has the chain's own result for the member, that result is missed. */
  lemma MidLinkMisreports(p: Plan, w: World, wid: nat, m: TaskMessage, at: int, v: World)
    requires ValidPlan(p) && wid in w.workers && w.workers[wid].phase.Succeeded? && w.workers[wid].msg == m
    requires Shaped(p, m) && m.groupId.Some? && m.chain == []
    requires CanReport(m) ==> GroupKeyOf(m) in w.groups.pending && !Exists(w, m.groupQueue, Callback(m.groupId.value))
    requires CanAdvance(w, w.workers[wid]) ==> v == AdvanceWorker(w, wid, at)
    ensures CanAdvance(w, w.workers[wid]) && CanReport(m) && SpecOf(p, GroupKeyOf(m)).Some?
    ensures m.groupIndex < |SpecOf(p, GroupKeyOf(m)).value.outs|
    ensures if w.groups.pending[GroupKeyOf(m)] - {SlotOf(m)} == {}
            then GroupKeyOf(m) !in v.groups.pending && Exists(v, m.groupQueue, Callback(m.groupId.value))
            else GroupKeyOf(m) in v.groups.pending && SlotOf(m) !in v.groups.pending[GroupKeyOf(m)]
    ensures Recorded(w.groups, GroupKeyOf(m), m.groupIndex, m.result) != SpecOf(p, GroupKeyOf(m)).value.outs[m.groupIndex] ==>
              ResultMissed(p, v, m)
  {
    GroupSpec(p, m);
    var u := ReportMember(w, m, at);
    assert v.groups == u.groups && v.queues == u.queues;
    ReportEffect(w, m, at, u);
    if Recorded(w.groups, GroupKeyOf(m), m.groupIndex, m.result) != SpecOf(p, GroupKeyOf(m)).value.outs[m.groupIndex] {
      WrongReport(p, w, m, at);
      SameWrong(p, u, v, GroupKeyOf(m), m.groupIndex);
    }
  }

  lemma ReportEffect(w: World, m: TaskMessage, at: int, u: World)
    requires CanReport(m) && GroupKeyOf(m) in w.groups.pending && !Exists(w, m.groupQueue, Callback(m.groupId.value))
    requires u == ReportMember(w, m, at)
    ensures if w.groups.pending[GroupKeyOf(m)] - {SlotOf(m)} == {}
            then GroupKeyOf(m) !in u.groups.pending && Exists(u, m.groupQueue, Callback(m.groupId.value))
            else GroupKeyOf(m) in u.groups.pending && SlotOf(m) !in u.groups.pending[GroupKeyOf(m)]
  {
    var o := Report(w.groups, GroupKeyOf(m), SlotOf(m), m.groupIndex, m.groupSize, m.result, false);
    if o.fires {
      CallbackStored(w.(groups := o.groups), CallbackMessage(m, o.collected), m.groupCallback.value.delay, at);
    }
  }

  // ----- a whole run -----

  const FIRST: ChainLink := ChainLink("a", [], "q", 0, false, 1, 0, [])      // retained
  const SECOND: ChainLink := ChainLink("b", [], "q", 0, false, 0, 0, [])
  const FAN_IN: ChainLink := ChainLink("c", [], "q", 0, false, 0, 0, [])

  function Group(): Workflow { GroupFlow([Seq([FIRST, SECOND])], FAN_IN) }

  function Handle(i: Input): Bytes { if i.kind == "b" then [2] else [1] }

  ghost function Sample(): Plan { Plan(map["g" := Group()], i => Handle(i)) }

  const SLOT: Id := Member(Root("g"), 0)
  const GROUP_KEY: Key := ("q", Root("g"))

  /** The first link's message as enqueued, and as retained. */
  function Start(): TaskMessage {
    Plain(Indexed(SLOT, 0), "a", [], "q", 0, false, 1)
      .(chain := [SECOND], chainId := Some(SLOT), chainIndex := 0, groupId := Some(Root("g")), groupQueue := "q",
        groupCallback := Some(FAN_IN), groupIndex := 0, groupSize := 1, groupMemberId := Some(SLOT))
  }

  function Retained(): TaskMessage { Start().(chain := [], result := [1]) }

  function TooEarly(): TaskMessage {
    Plain(Callback(Root("g")), "c", [], "q", 0, false, 0).(groupResults := [[1]])
  }

  lemma SampleIsValid()
    ensures ValidPlan(Sample())
    ensures Birth(Sample(), Indexed(SLOT, 0)) == Some(Start())
    ensures RootOf(Indexed(SLOT, 0)) == "g" && RootOf(Callback(Root("g"))) == "g"
  {
    RootOfDerived("g", 0, 0);
    assert ValidMember(Group().members[0]);
    assert [FIRST, SECOND][1..] == [SECOND];
  }

  const CARE: Care := Care(true, true, true, false, true)

  /** The group waits for its one member, and its callback does not exist. */
  ghost predicate Waiting(w: World) {
    w.groups.pending == map[GROUP_KEY := {SLOT}] && w.groups.results == map[] && BodyOf(w, "q", Callback(Root("g"))) == None
  }

  ghost predicate Stands(w: World, n: nat, entry: nat, m: TaskMessage) {
    && w.workers == map[] && NextEntry(w, "q") == n && EntryAt(w, "q", entry) == Some(m.id)
    && BodyOf(w, "q", m.id) == Some(Body(Some(m), Pending))
  }

  lemma Launch() returns (ws: seq<World>, es: seq<Event>, w: World)
    ensures RunTo(Sample(), CARE, ws, es, w) && Waiting(w) && Stands(w, 1, 0, Start()) && BodyOf(w, "q", Indexed(SLOT, 1)) == None
  {
    SampleIsValid();
    ws, es, w := [START], [], START;
    ws, es, w := Extend(Sample(), CARE, ws, es, w, LaunchGroup("g"));
    assert FlowSlots("g", Group()) == {SLOT} by {
      forall x | x in FlowSlots("g", Group()) ensures x == SLOT {}
      assert Member(Root("g"), 0) in FlowSlots("g", Group());
    }
    assert FlowKey("g", Group()) == GROUP_KEY && {SLOT} + {} == {SLOT};
    assert w.groups.pending == map[GROUP_KEY := {SLOT}];
    ws, es, w := Extend(Sample(), CARE, ws, es, w, LaunchMember("g", 0, Enqueue(Start())));
  }

  /** The first link succeeds, creates the second, and is kept without its tail. */
  lemma Retain(ws: seq<World>, es: seq<Event>, w: World) returns (ws': seq<World>, es': seq<Event>, w': World)
    requires RunTo(Sample(), CARE, ws, es, w) && Waiting(w) && NextEntry(w, "q") == 1 && BodyOf(w, "q", Indexed(SLOT, 1)) == None
    requires w.workers == map[0 := Worker(0, Start().(result := [1]), Succeeded)]
    ensures RunTo(Sample(), CARE, ws', es', w') && Waiting(w') && w'.workers == map[] && NextEntry(w', "q") == 2
    ensures BodyOf(w', "q", Indexed(SLOT, 0)) == Some(Body(Some(Retained()), Completed)) && Waits(w', "q", ZCompleted, Indexed(SLOT, 0))
  {
    var v: World;
    ws', es', v := Extend(Sample(), CARE, ws, es, w, Advance(0, 0));
    HandOffFacts(w, v);
    ws', es', w' := Extend(Sample(), CARE, ws', es', v, Done(0, 0));
    KeepFacts(v, w');
  }

  lemma HandOffFacts(w: World, v: World)
    requires Waiting(w) && w.workers == map[0 := Worker(0, Start().(result := [1]), Succeeded)] && NextEntry(w, "q") == 1
    requires BodyOf(w, "q", Indexed(SLOT, 1)) == None && v == AdvanceWorker(w, 0, 0)
    ensures v.workers == map[0 := Worker(0, Retained(), HandedOff)] && Waiting(v) && NextEntry(v, "q") == 2
  {
    var m := Start().(result := [1]);
    CreateFacts(w, NextMessage(m), 0, CreateTask(w, NextMessage(m), 0, 0));
  }

  lemma KeepFacts(w: World, v: World)
    requires Waiting(w) && w.workers == map[0 := Worker(0, Retained(), HandedOff)] && NextEntry(w, "q") == 2 && v == FinishWorker(w, 0, 0)
    ensures v.workers == map[] && Waiting(v) && NextEntry(v, "q") == 2
    ensures BodyOf(v, "q", Indexed(SLOT, 0)) == Some(Body(Some(Retained()), Completed)) && Waits(v, "q", ZCompleted, Indexed(SLOT, 0))
  {
    MoveFacts(w, 0, Retained(), ZCompleted, 1, MoveTask(w, 0, Retained(), ZCompleted, 1));
    assert w.workers - {0} == map[];
  }

  /** The re-run reports for the whole chain, and the callback is created too early. */
  lemma Misreport(ws: seq<World>, es: seq<Event>, w: World) returns (ws': seq<World>, es': seq<Event>, w': World)
    requires RunTo(Sample(), CARE, ws, es, w) && Waiting(w) && NextEntry(w, "q") == 3
    requires w.workers == map[0 := Worker(2, Retained(), Succeeded)]
    ensures RunTo(Sample(), CARE, ws', es', w') && Stands(w', 4, 3, TooEarly())
  {
    var v: World;
    ws', es', v := Extend(Sample(), CARE, ws, es, w, Advance(0, 0));
    ReportFacts(w, v);
    ws', es', w' := Extend(Sample(), CARE, ws', es', v, Vanish(0));
    assert w'.workers == map[];
  }

  lemma ReportFacts(w: World, v: World)
    requires Waiting(w) && w.workers == map[0 := Worker(2, Retained(), Succeeded)] && NextEntry(w, "q") == 3 && v == AdvanceWorker(w, 0, 0)
    ensures v.workers.Keys == {0} && NextEntry(v, "q") == 4 && EntryAt(v, "q", 3) == Some(TooEarly().id)
    ensures BodyOf(v, "q", TooEarly().id) == Some(Body(Some(TooEarly()), Pending))
  {
    assert {SLOT} - {SLOT} == {};
    assert 0 in map[][0 := [1]];
    assert Assemble(map[][0 := [1]], 1) == [[1]];
    var o := Report(w.groups, GROUP_KEY, SLOT, 0, 1, [1], false);
    assert o.fires && o.collected == [[1]];
    var u := w.(groups := o.groups);
    CreateFacts(u, TooEarly(), 0, CreateTask(u, TooEarly(), 0, 0));
  }

  lemma NotCalled()
    ensures !CalledBy(Sample().h, "g", Group(), InputOf(TooEarly()))
  {
    var h, call := Sample().h, InputOf(TooEarly());
    var runs := GroupCalls(h, "g", Group());
    var a, b := Input(Indexed(SLOT, 0), "a", [], "q", [], []), Input(Indexed(SLOT, 1), "b", [], "q", [1], []);
    assert [FIRST, SECOND][1..] == [SECOND] && [SECOND][1..] == [];
    assert ChainCalls(h, SLOT, 2, [], [2]) == [];
    assert ChainCalls(h, SLOT, 1, [SECOND], [1]) == [b];
    assert ChainCalls(h, SLOT, 0, [FIRST, SECOND], []) == [a, b];
    assert runs == [[a, b]];
    assert [[2]][0] != [];
    assert Collect([[2]]) == [[2]];
    assert seq(|runs|, j requires 0 <= j < |runs| => LastResult(h, runs[j])) == [[2]];
  }

  /** The run: with a retained first link, an operator's re-run of the finished link makes the
      callback see the first link's result instead of the chain's, though every lease holds,
      every drain reads results and no HASH expires before its SET. */
  lemma RetainedMidLinkBreaksMeaning() returns (ws: seq<World>, es: seq<Event>, call: Input)
    ensures ValidPlan(Sample()) && CodeRun(Sample(), Care(true, true, true, false, true), ws, es)
    ensures call in ws[|es|].log && RootOf(call.id) == "g" && !CalledBy(Sample().h, "g", Group(), call)
  {
    var w: World;
    var first := Indexed(SLOT, 0);
    SampleIsValid();
    ws, es, w := Launch();
    ws, es, w := DeliverAndRun(Sample(), CARE, ws, es, w, 0, Start(), 0);
    assert w.workers == map[0 := Worker(0, Start().(result := [1]), Succeeded)];
    ws, es, w := Retain(ws, es, w);
    var v: World;
    ws, es, v := Extend(Sample(), CARE, ws, es, w, Env("q", RunTask(first)));
    RerunFacts(w, "q", ZCompleted, first, v);
    ws, es, w := DeliverAndRun(Sample(), CARE, ws, es, v, 0, Retained(), 2);
    assert w.workers == map[0 := Worker(2, Retained(), Succeeded)];
    ws, es, w := Misreport(ws, es, w);
    ws, es, w := DeliverAndRun(Sample(), CARE, ws, es, w, 0, TooEarly(), 3);
    call := InputOf(TooEarly());
    NotCalled();
  }
}
