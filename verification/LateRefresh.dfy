/** Why a result HASH must not expire before its SET: a re-attempt of the stage refreshes the SET
    alone. In the run below every lease holds and nothing is deleted; a predecessor redelivered
    just before the first member's result runs out keeps the SET alive without it. */
module LateRefresh {
  import opened Ids
  import opened Base
  import opened Store
  import opened GroupState
  import opened Flow
  import opened World
  import opened Meaning
  import opened Runs

  const A: Id := Indexed(Root("u"), 0)
  const STAGE: Id := Indexed(Root("u"), 1)
  const B: Id := Member(STAGE, 0)
  const D: Id := Member(STAGE, 1)
  const C: Id := Callback(STAGE)
  const KEY: Key := ("q", STAGE)

  /** One task, then a stage of two members with a callback. */
  const LINK_A: ChainLink := ChainLink("a", [], "q", 1, false, 0, 0, [])
  const LINK_C: ChainLink :=
    ChainLink("c", [], "q", 1, false, 0, 0, [GroupMemberLink("b", [], "q", 1, 0, 0), GroupMemberLink("d", [], "q", 1, 0, 0)])

  function Chain(): Workflow { ChainFlow([LINK_A, LINK_C]) }

  ghost function Sample(): Plan { Plan(map["u" := Chain()], i => [1]) }

  function MsgA(): TaskMessage {
    Plain(A, "a", [], "q", 1, false, 0).(chain := [LINK_C], chainId := Some(Root("u")), chainIndex := 0)
  }

  function MsgOf(j: nat): TaskMessage {
    Plain(Member(STAGE, j), if j == 0 then "b" else "d", [], "q", 1, false, 0)
      .(groupId := Some(STAGE), groupQueue := "q", groupCallback := Some(LINK_C.(group := [])), groupIndex := j, groupSize := 2,
        chainId := Some(Root("u")), chainIndex := 1, prevResult := [1])
  }

  function MsgC(results: seq<Bytes>): TaskMessage {
    Plain(C, "c", [], "q", 1, false, 0).(groupResults := results)
  }

  lemma SampleIsValid()
    ensures ValidPlan(Sample()) && NoRetainedMidLinks(Sample()) && Birth(Sample(), A) == Some(MsgA())
    ensures RootOf(A) == "u" && RootOf(B) == "u" && RootOf(D) == "u" && RootOf(C) == "u"
  {
    RootOfDerived("u", 0, 0);
    RootOfDerived("u", 1, 0);
    RootOfDerived("u", 1, 1);
    assert [LINK_A, LINK_C][1..] == [LINK_C];
  }

  /** The members a succeeded A creates, at whichever attempt. */
  lemma MembersOfA(m: TaskMessage)
    requires m == MsgA().(result := [1], retried := m.retried)
    ensures HasNext(m) && StageId(m) == STAGE && StageKey(m) == KEY && StageSlots(m) == {B, D}
    ensures MemberMessage(m, 0) == MsgOf(0) && MemberMessage(m, 1) == MsgOf(1)
  {
    assert StageSlots(m) == {B, D} by {
      forall x | x in StageSlots(m) ensures x == B || x == D {}
      assert Member(StageId(m), 0) in StageSlots(m) && Member(StageId(m), 1) in StageSlots(m);
    }
    assert m.chain[1..] == [];
  }

  /** What the run looks at: the bodies, the group state, and the next entry. */
  ghost predicate Is(w: World, a: Option<Body>, b: Option<Body>, d: Option<Body>, c: Option<Body>, g: Groups, n: nat) {
    && BodyOf(w, "q", A) == a && BodyOf(w, "q", B) == b && BodyOf(w, "q", D) == d && BodyOf(w, "q", C) == c
    && NextEntry(w, "q") == n && w.groups == g
  }

  function Stored(m: TaskMessage, state: TaskState): Option<Body> { Some(Body(Some(m), state)) }

  /** Everything but the deadlines is in order. */
  const CARE: Care := Care(true, true, false, true, false)

  ghost predicate To(ws: seq<World>, es: seq<Event>, w: World) { RunTo(Sample(), CARE, ws, es, w) }

  lemma Go(ws: seq<World>, es: seq<Event>, w: World, e: Event) returns (ws': seq<World>, es': seq<Event>, v: World)
    requires To(ws, es, w) && Enabled(Sample(), w, e) && !e.Fetch? && !e.Env?
    requires e.Advance? ==> !w.workers[e.wid].phase.DrainReading?
    ensures v == Step(Sample(), w, e) && To(ws', es', v)
  {
    ws', es', v := Extend(Sample(), CARE, ws, es, w, e);
  }

  // ----- the group state along the run -----

  function Opened(): Groups { Groups(map[KEY := {B, D}], map[], map[KEY := GROUP_TTL], map[], 0) }

  function ToldOnce(t: int): Groups {
    Groups(map[KEY := {D}], map[KEY := map[0 := [1]]], map[KEY := GROUP_TTL], map[KEY := GROUP_TTL], t)
  }

  function Refreshed(): Groups { ToldOnce(GROUP_TTL - 1).(setUntil := map[KEY := 2 * GROUP_TTL - 1]) }

  function ResultLost(): Groups { Refreshed().(results := map[], clock := GROUP_TTL) }

  lemma GroupSteps()
    ensures CreateIfAbsent(NO_GROUPS, KEY, {B, D}, false) == Opened()
    ensures Report(Opened(), KEY, B, 0, 2, [1], false) == ReportResult(ToldOnce(0), false, [])
    ensures Pass(ToldOnce(0), GROUP_TTL - 1) == ToldOnce(GROUP_TTL - 1)
    ensures CreateIfAbsent(ToldOnce(GROUP_TTL - 1), KEY, {B, D}, false) == Refreshed()
    ensures Pass(Refreshed(), GROUP_TTL) == ResultLost()
  {
    assert {B, D} - {B} == {D};
    assert map[][0 := [1]] == map[0 := [1]] && 0 in map[0 := [1]];
    assert map[KEY := {B, D}][KEY := {D}] == map[KEY := {D}];
    assert CreateIfAbsent(NO_GROUPS, KEY, {B, D}, false).results == map[];
    assert Pass(ToldOnce(0), GROUP_TTL - 1).pending == map[KEY := {D}];
    assert Pass(ToldOnce(0), GROUP_TTL - 1).results == map[KEY := map[0 := [1]]];
    assert Pass(Refreshed(), GROUP_TTL).pending == map[KEY := {D}];
    assert Pass(Refreshed(), GROUP_TTL).results == map[];
  }

  lemma LastReport()
    ensures var o := Report(ResultLost(), KEY, D, 1, 2, [1], false); o.fires && o.collected == [[], [1]]
  {
    assert {D} - {D} == {};
    assert map[][1 := [1]] == map[1 := [1]] && 1 in map[1 := [1]];
    assert Assemble(map[1 := [1]], 2) == [[], [1]];
  }

  // ----- what single calls do -----

  lemma OpenFacts(w: World, v: World, n: nat)
    requires w.workers == map[1 := Worker(0, MsgA().(result := [1]), Succeeded)]
    requires Is(w, Stored(MsgA(), Active), None, None, None, NO_GROUPS, n) && v == AdvanceWorker(w, 1, 0)
    ensures Is(v, Stored(MsgA(), Active), None, None, None, Opened(), n) && SameStore(w, v, "q")
    ensures v.workers == map[1 := Worker(0, MsgA().(result := [1]), Staging(0, None))]
  {
    MembersOfA(MsgA().(result := [1]));
    GroupSteps();
  }

  lemma StageFacts(w: World, v: World, j: nat, b: Option<Body>, n: nat)
    requires j < 2 && w.workers == map[1 := Worker(0, MsgA().(result := [1]), Staging(j, None))]
    requires Is(w, Stored(MsgA(), Active), b, None, None, Opened(), n) && (j == 0 ==> b.None?) && v == AdvanceWorker(w, 1, 0)
    ensures Is(v, Stored(MsgA(), Active), if j == 0 then Stored(MsgOf(0), Pending) else b, if j == 1 then Stored(MsgOf(1), Pending) else None,
               None, Opened(), n + 1)
    ensures NewEntry(w, v, "q", Member(STAGE, j)) && v.workers == map[1 := Worker(0, MsgA().(result := [1]), Staging(j + 1, None))]
  {
    MembersOfA(MsgA().(result := [1]));
    var u := CreateTask(w, MsgOf(j), 0, 0);
    CreateFacts(w, MsgOf(j), 0, u);
    assert v == SetPhase(u, 1, Staging(j + 1, None)) && SameStore(u, v, "q");
    assert u.workers == w.workers;
  }

  // ----- the run -----

  lemma Launch() returns (ws: seq<World>, es: seq<Event>, w: World)
    ensures To(ws, es, w) && w.workers == map[] && Is(w, Stored(MsgA(), Pending), None, None, None, NO_GROUPS, 1) && EntryAt(w, "q", 0) == Some(A)
  {
    SampleIsValid();
    ws, es, w := [START], [], START;
    ws, es, w := Go(ws, es, w, LaunchChain("u", Enqueue(MsgA())));
  }

  /** A is enqueued and its handler succeeds. */
  lemma RunA() returns (ws: seq<World>, es: seq<Event>, w: World)
    ensures To(ws, es, w) && w.workers == map[1 := Worker(0, MsgA().(result := [1]), Succeeded)]
    ensures Is(w, Stored(MsgA(), Active), None, None, None, NO_GROUPS, 1) && EntryAt(w, "q", 0) == Some(A)
  {
    SampleIsValid();
    ws, es, w := Launch();
    ws, es, w := DeliverAndRun(Sample(), CARE, ws, es, w, 1, MsgA(), 0);
  }

  /** A opens the stage and creates its members; its worker is lost before the hand-off. */
  lemma OpenStage(ws: seq<World>, es: seq<Event>, w: World) returns (ws': seq<World>, es': seq<Event>, v: World)
    requires To(ws, es, w) && w.workers == map[1 := Worker(0, MsgA().(result := [1]), Succeeded)]
    requires Is(w, Stored(MsgA(), Active), None, None, None, NO_GROUPS, 1) && EntryAt(w, "q", 0) == Some(A)
    ensures To(ws', es', v) && v.workers == map[1 := Worker(0, MsgA().(result := [1]), Staging(1, None))]
    ensures Is(v, Stored(MsgA(), Active), Stored(MsgOf(0), Pending), None, None, Opened(), 2)
    ensures EntryAt(v, "q", 0) == Some(A) && EntryAt(v, "q", 1) == Some(B)
  {
    MembersOfA(MsgA().(result := [1]));
    var u: World;
    ws', es', u := Go(ws, es, w, Advance(1, 0));
    OpenFacts(w, u, 1);
    ws', es', v := Go(ws', es', u, Advance(1, 0));
    StageFacts(u, v, 0, None, 1);
  }

  lemma StageSecond(ws: seq<World>, es: seq<Event>, w: World) returns (ws': seq<World>, es': seq<Event>, v: World)
    requires To(ws, es, w) && w.workers == map[1 := Worker(0, MsgA().(result := [1]), Staging(1, None))]
    requires Is(w, Stored(MsgA(), Active), Stored(MsgOf(0), Pending), None, None, Opened(), 2)
    requires EntryAt(w, "q", 0) == Some(A) && EntryAt(w, "q", 1) == Some(B)
    ensures To(ws', es', v) && v.workers == map[]
    ensures Is(v, Stored(MsgA(), Active), Stored(MsgOf(0), Pending), Stored(MsgOf(1), Pending), None, Opened(), 3)
    ensures EntryAt(v, "q", 0) == Some(A) && EntryAt(v, "q", 1) == Some(B) && EntryAt(v, "q", 2) == Some(D)
  {
    MembersOfA(MsgA().(result := [1]));
    var u: World;
    ws', es', u := Go(ws, es, w, Advance(1, 0));
    StageFacts(w, u, 1, Stored(MsgOf(0), Pending), 2);
    ws', es', v := Go(ws', es', u, Vanish(1));
    VanishFacts(u, v, "q");
  }

  lemma FirstReportFacts(w: World, v: World)
    requires w.workers == map[1 := Worker(1, MsgOf(0).(result := [1]), Succeeded)]
    requires Is(w, Stored(MsgA(), Active), Stored(MsgOf(0), Active), Stored(MsgOf(1), Pending), None, Opened(), 3)
    requires v == AdvanceWorker(w, 1, 0)
    ensures SameStore(w, v, "q") && v.groups == ToldOnce(0) && v.workers == map[1 := Worker(1, MsgOf(0).(result := [1]), Phase.Reported)]
  {
    GroupSteps();
    var m := MsgOf(0).(result := [1]);
    assert GroupKeyOf(m) == KEY && SlotOf(m) == B;
    assert ReportMember(w, m, 0) == w.(groups := ToldOnce(0));
  }

  lemma FirstDoneFacts(w: World, v: World)
    requires w.workers == map[1 := Worker(1, MsgOf(0).(result := [1]), Phase.Reported)] && v == FinishWorker(w, 1, 0)
    requires Is(w, Stored(MsgA(), Active), Stored(MsgOf(0), Active), Stored(MsgOf(1), Pending), None, ToldOnce(0), 3)
    requires EntryAt(w, "q", 0) == Some(A) && EntryAt(w, "q", 2) == Some(D)
    ensures v.workers == map[] && Is(v, Stored(MsgA(), Active), None, Stored(MsgOf(1), Pending), None, ToldOnce(0), 3)
    ensures EntryAt(v, "q", 0) == Some(A) && EntryAt(v, "q", 2) == Some(D)
  {
    var u := DropTask(w, 1);
    DropFacts(w, 1, u);
    assert v == Settle(u, B) && SameStore(u, v, "q");
    assert w.workers - {1} == map[];
  }

  /** The first member reports and is done. */
  lemma FirstMember(ws: seq<World>, es: seq<Event>, w: World) returns (ws': seq<World>, es': seq<Event>, v: World)
    requires To(ws, es, w) && w.workers == map[]
    requires Is(w, Stored(MsgA(), Active), Stored(MsgOf(0), Pending), Stored(MsgOf(1), Pending), None, Opened(), 3)
    requires EntryAt(w, "q", 0) == Some(A) && EntryAt(w, "q", 1) == Some(B) && EntryAt(w, "q", 2) == Some(D)
    ensures To(ws', es', v) && v.workers == map[]
    ensures Is(v, Stored(MsgA(), Active), None, Stored(MsgOf(1), Pending), None, ToldOnce(0), 3)
    ensures EntryAt(v, "q", 0) == Some(A) && EntryAt(v, "q", 2) == Some(D)
  {
    SampleIsValid();
    var u, x: World;
    ws', es', u := DeliverAndRun(Sample(), CARE, ws, es, w, 1, MsgOf(0), 1);
    ws', es', x := Go(ws', es', u, Advance(1, 0));
    FirstReportFacts(u, x);
    ws', es', v := Go(ws', es', x, Done(1, 0));
    FirstDoneFacts(x, v);
  }

  const MSG_A1: TaskMessage := MsgA().(retried := 1)

  /** Just before the deadline A is put up for retry and delivered again. */
  lemma RedeliverA(ws: seq<World>, es: seq<Event>, w: World) returns (ws': seq<World>, es': seq<Event>, v: World)
    requires To(ws, es, w) && w.workers == map[]
    requires Is(w, Stored(MsgA(), Active), None, Stored(MsgOf(1), Pending), None, ToldOnce(0), 3)
    requires EntryAt(w, "q", 0) == Some(A) && EntryAt(w, "q", 2) == Some(D)
    ensures To(ws', es', v) && v.workers == map[1 := Worker(3, MSG_A1.(result := [1]), Succeeded)]
    ensures Is(v, Stored(MSG_A1, Active), None, Stored(MsgOf(1), Pending), None, ToldOnce(GROUP_TTL - 1), 4) && EntryAt(v, "q", 2) == Some(D)
  {
    SampleIsValid();
    GroupSteps();
    ws', es', v := Go(ws, es, w, TimePasses(GROUP_TTL - 1));
    assert SameStore(w, v, "q");
    ws', es', v := Recover(Sample(), CARE, ws', es', v, 1, MsgA(), 0, Active);
    ws', es', v := Retried(Sample(), CARE, ws', es', v, "q", A);
    ws', es', v := DeliverAndRun(Sample(), CARE, ws', es', v, 1, MSG_A1, 3);
  }

  lemma RefreshFacts(w: World, v: World)
    requires w.workers == map[1 := Worker(3, MSG_A1.(result := [1]), Succeeded)] && w.groups == ToldOnce(GROUP_TTL - 1)
    requires BodyOf(w, "q", C) == None && v == AdvanceWorker(w, 1, 0)
    ensures v.groups == Refreshed() && v.workers.Keys == {1} && SameStore(w, v, "q")
  {
    MembersOfA(MSG_A1.(result := [1]));
    GroupSteps();
  }

  /** A finds the stage in flight and refreshes its SET; its worker is lost. */
  lemma Refresh(ws: seq<World>, es: seq<Event>, w: World) returns (ws': seq<World>, es': seq<Event>, v: World)
    requires To(ws, es, w) && w.workers == map[1 := Worker(3, MSG_A1.(result := [1]), Succeeded)]
    requires Is(w, Stored(MSG_A1, Active), None, Stored(MsgOf(1), Pending), None, ToldOnce(GROUP_TTL - 1), 4) && EntryAt(w, "q", 2) == Some(D)
    ensures To(ws', es', v) && v.workers == map[]
    ensures Is(v, Stored(MSG_A1, Active), None, Stored(MsgOf(1), Pending), None, Refreshed(), 4) && EntryAt(v, "q", 2) == Some(D)
  {
    MembersOfA(MSG_A1.(result := [1]));
    var u: World;
    ws', es', u := Go(ws, es, w, Advance(1, 0));
    RefreshFacts(w, u);
    ws', es', v := Go(ws', es', u, Vanish(1));
    VanishFacts(u, v, "q");
  }

  /** The HASH expires. */
  lemma Expire(ws: seq<World>, es: seq<Event>, w: World) returns (ws': seq<World>, es': seq<Event>, v: World)
    requires To(ws, es, w) && w.workers == map[]
    requires Is(w, Stored(MSG_A1, Active), None, Stored(MsgOf(1), Pending), None, Refreshed(), 4) && EntryAt(w, "q", 2) == Some(D)
    ensures To(ws', es', v) && v.workers == map[]
    ensures Is(v, Stored(MSG_A1, Active), None, Stored(MsgOf(1), Pending), None, ResultLost(), 4) && EntryAt(v, "q", 2) == Some(D)
  {
    GroupSteps();
    ws', es', v := Go(ws, es, w, TimePasses(GROUP_TTL));
    assert SameStore(w, v, "q");
  }

  lemma SecondReportFacts(w: World, v: World)
    requires w.workers == map[1 := Worker(2, MsgOf(1).(result := [1]), Succeeded)] && w.groups == ResultLost()
    requires BodyOf(w, "q", C) == None && NextEntry(w, "q") == 4 && v == AdvanceWorker(w, 1, 0)
    ensures v.workers.Keys == {1} && BodyOf(v, "q", C) == Stored(MsgC([[], [1]]), Pending) && EntryAt(v, "q", 4) == Some(C)
  {
    LastReport();
    var m := MsgOf(1).(result := [1]);
    assert GroupKeyOf(m) == KEY && SlotOf(m) == D;
    var o := Report(w.groups, KEY, D, 1, 2, [1], false);
    var u := w.(groups := o.groups);
    var x := CreateTask(u, MsgC([[], [1]]), 0, 0);
    CreateFacts(u, MsgC([[], [1]]), 0, x);
    assert v == Settle(SetPhase(x, 1, Phase.Reported), m.id) && SameStore(x, v, "q");
  }

  /** The second member's report fires the callback without the first one's result. */
  lemma SecondMember(ws: seq<World>, es: seq<Event>, w: World) returns (ws': seq<World>, es': seq<Event>, v: World)
    requires To(ws, es, w) && w.workers == map[]
    requires Is(w, Stored(MSG_A1, Active), None, Stored(MsgOf(1), Pending), None, ResultLost(), 4) && EntryAt(w, "q", 2) == Some(D)
    ensures To(ws', es', v) && v.workers == map[]
    ensures BodyOf(v, "q", C) == Stored(MsgC([[], [1]]), Pending) && EntryAt(v, "q", 4) == Some(C)
  {
    SampleIsValid();
    var u, x: World;
    ws', es', u := DeliverAndRun(Sample(), CARE, ws, es, w, 1, MsgOf(1), 2);
    ws', es', x := Go(ws', es', u, Advance(1, 0));
    SecondReportFacts(u, x);
    ws', es', v := Go(ws', es', x, Vanish(1));
    VanishFacts(x, v, "q");
  }

  lemma NotCalled()
    ensures !CalledBy(Sample().h, "u", Chain(), InputOf(MsgC([[], [1]])))
  {
    var h, call := Sample().h, InputOf(MsgC([[], [1]]));
    var a, b, d := Input(A, "a", [], "q", [], []), Input(B, "b", [], "q", [1], []), Input(D, "d", [], "q", [1], []);
    var c := Input(C, "c", [], "q", [], [[1], [1]]);
    assert [LINK_A, LINK_C][1..] == [LINK_C] && [LINK_C][1..] == [];
    assert MemberCalls(LINK_C, STAGE, [1]) == [b, d];
    assert Results(h, [b, d]) == [[1], [1]];
    assert [[1], [1]][0] != [];
    assert Collect([[1], [1]]) == [[1], [1]];
    assert [[], [1]][0] != [[1], [1]][0];
    assert ChainCalls(h, Root("u"), 2, [], [1]) == [];
    assert ChainCalls(h, Root("u"), 1, [LINK_C], [1]) == [b, d] + [c] + [];
    assert ChainCalls(h, Root("u"), 0, [LINK_A, LINK_C], []) == [a] + ([b, d] + [c] + []);
  }

  /** With every lease held, every drain reading results and nothing deleted, a callback can be
      called without a result that its member reported. */
  lemma LateRefreshBreaksMeaning() returns (ws: seq<World>, es: seq<Event>, call: Input)
    ensures ValidPlan(Sample()) && NoRetainedMidLinks(Sample()) && CodeRun(Sample(), Care(true, true, false, true, false), ws, es)
    ensures call in ws[|es|].log && RootOf(call.id) == "u" && !CalledBy(Sample().h, "u", Chain(), call)
  {
    var w: World;
    SampleIsValid();
    ws, es, w := RunA();
    ws, es, w := OpenStage(ws, es, w);
    ws, es, w := StageSecond(ws, es, w);
    ws, es, w := FirstMember(ws, es, w);
    ws, es, w := RedeliverA(ws, es, w);
    ws, es, w := Refresh(ws, es, w);
    ws, es, w := Expire(ws, es, w);
    ws, es, w := SecondMember(ws, es, w);
    ws, es, w := DeliverAndRun(Sample(), CARE, ws, es, w, 1, MsgC([[], [1]]), 4);
    call := InputOf(MsgC([[], [1]]));
    NotCalled();
  }
}
