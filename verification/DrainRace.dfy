/** Why leases must hold: a drain reads a member's state and then its message in two calls, and
    a slow worker of the same member, whose lease lapsed, can fail in between. The run below
    uses retries and redeliveries only, deletes nothing, lets nothing expire, and its callback
    still misses a result. */
module DrainRace {
  import opened Ids
  import opened Base
  import opened Store
  import opened GroupState
  import opened Flow
  import opened World
  import opened Meaning
  import opened Runs

  const A: Id := Indexed(Root("u"), 0)
  const STAGE: Id := Indexed(Root("u"), 1)
  const B: Id := Member(STAGE, 0)
  const C: Id := Callback(STAGE)
  const KEY: Key := ("q", STAGE)

  /** One task, then a stage of one retained member with a callback; each may be retried. */
  const LINK_A: ChainLink := ChainLink("a", [], "q", 1, false, 0, 0, [])
  const LINK_C: ChainLink := ChainLink("c", [], "q", 1, false, 0, 0, [GroupMemberLink("b", [], "q", 1, 1, 0)])

  function Chain(): Workflow { ChainFlow([LINK_A, LINK_C]) }

  ghost function Sample(): Plan { Plan(map["u" := Chain()], i => [1]) }

  function MsgA(): TaskMessage {
    Plain(A, "a", [], "q", 1, false, 0).(chain := [LINK_C], chainId := Some(Root("u")), chainIndex := 0)
  }

  function MsgB(): TaskMessage {
    Plain(B, "b", [], "q", 1, false, 1)
      .(groupId := Some(STAGE), groupQueue := "q", groupCallback := Some(LINK_C.(group := [])), groupIndex := 0, groupSize := 1,
        chainId := Some(Root("u")), chainIndex := 1, prevResult := [1])
  }

  function MsgC(results: seq<Bytes>): TaskMessage {
    Plain(C, "c", [], "q", 1, false, 0).(groupResults := results)
  }

  lemma SampleIsValid()
    ensures ValidPlan(Sample()) && NoRetainedMidLinks(Sample()) && Birth(Sample(), A) == Some(MsgA())
    ensures RootOf(A) == "u" && RootOf(B) == "u" && RootOf(C) == "u"
  {
    RootOfDerived("u", 0, 0);
    RootOfDerived("u", 1, 0);
    assert [LINK_A, LINK_C][1..] == [LINK_C];
  }

  /** The member a succeeded A creates, at whichever attempt. */
  lemma MemberOfA(m: TaskMessage)
    requires m == MsgA().(result := [1], retried := m.retried)
    ensures HasNext(m) && StageId(m) == STAGE && StageKey(m) == KEY && StageSlots(m) == {B} && MemberMessage(m, 0) == MsgB()
  {
    assert StageSlots(m) == {B} by {
      forall x | x in StageSlots(m) ensures x == B {}
      assert Member(StageId(m), 0) in StageSlots(m);
    }
    assert m.chain[1..] == [];
  }

  /** What the run looks at: the three bodies, whether the SET is there, and the next entry. */
  ghost predicate Is(w: World, a: Option<Body>, b: Option<Body>, c: Option<Body>, open: bool, n: nat) {
    && BodyOf(w, "q", A) == a && BodyOf(w, "q", B) == b && BodyOf(w, "q", C) == c && NextEntry(w, "q") == n
    && w.groups.pending == (if open then map[KEY := {B}] else map[]) && w.groups.results == map[]
  }

  function Stored(m: TaskMessage, state: TaskState): Option<Body> { Some(Body(Some(m), state)) }

  /** Leases lapse; nothing expires. */
  const CARE: Care := Care(false, false, true, true, true)

  ghost predicate To(ws: seq<World>, es: seq<Event>, w: World) { RunTo(Sample(), CARE, ws, es, w) }

  lemma Go(ws: seq<World>, es: seq<Event>, w: World, e: Event) returns (ws': seq<World>, es': seq<Event>, v: World)
    requires To(ws, es, w) && Enabled(Sample(), w, e) && !e.Fetch? && !e.Env? && !e.TimePasses?
    ensures v == Step(Sample(), w, e) && To(ws', es', v)
  {
    ws', es', v := Extend(Sample(), CARE, ws, es, w, e);
  }

  // ----- what single calls do -----

  lemma OpenFacts(w: World, v: World, m: TaskMessage, entry: nat, a: Option<Body>, b: Option<Body>, n: nat)
    requires 1 in w.workers && w.workers[1] == Worker(entry, m, Succeeded) && m == MsgA().(result := [1], retried := m.retried)
    requires Is(w, a, b, None, false, n) && CanAdvance(w, w.workers[1]) && v == AdvanceWorker(w, 1, 0)
    ensures Is(v, a, b, None, true, n) && v.workers == w.workers[1 := w.workers[1].(phase := Staging(0, None))]
    ensures v.queues == w.queues
  {
    MemberOfA(m);
  }

  lemma CreateMemberFacts(w: World, v: World, m: TaskMessage, entry: nat, a: Option<Body>, n: nat)
    requires 1 in w.workers && w.workers[1] == Worker(entry, m, Staging(0, None)) && m == MsgA().(result := [1], retried := m.retried)
    requires Is(w, a, None, None, true, n) && CanAdvance(w, w.workers[1]) && v == AdvanceWorker(w, 1, 0)
    ensures Is(v, a, Stored(MsgB(), Pending), None, true, n + 1) && NewEntry(w, v, "q", B)
    ensures v.workers == w.workers[1 := w.workers[1].(phase := Staging(1, None))]
  {
    MemberOfA(m);
    var u := CreateTask(w, MsgB(), 0, 0);
    CreateFacts(w, MsgB(), 0, u);
    assert v == SetPhase(u, 1, Staging(1, None));
    assert SameStore(u, v, "q");
  }

  lemma FoundMemberFacts(w: World, v: World, m: TaskMessage, entry: nat, a: Option<Body>, b: Option<Body>, n: nat)
    requires 1 in w.workers && w.workers[1] == Worker(entry, m, Staging(0, None)) && m == MsgA().(result := [1], retried := m.retried)
    requires Is(w, a, b, None, true, n) && b.Some? && CanAdvance(w, w.workers[1]) && v == AdvanceWorker(w, 1, 0)
    ensures Is(v, a, b, None, true, n) && v.workers == w.workers[1 := w.workers[1].(phase := Draining(0, None))]
  {
    MemberOfA(m);
    var u := CreateTask(w, MsgB(), 0, 0);
    CreateAgainFacts(w, MsgB(), 0, u);
    assert v == SetPhase(u, 1, Draining(0, None));
    assert SameStore(u, v, "q");
  }

  /** A report by the one member fires the callback with what it carries. */
  lemma ReportFacts(w: World, v: World, m: TaskMessage, a: Option<Body>, b: Option<Body>, n: nat)
    requires Is(w, a, b, None, true, n) && m == MsgB().(result := m.result, retried := m.retried) && CanReport(m)
    requires v == ReportMember(w, m, 0)
    ensures Is(v, a, b, Stored(MsgC(if m.result == [] then [] else [m.result]), Pending), false, n + 1)
    ensures NewEntry(w, v, "q", C) && SameWaits(w, v, "q") && v.workers == w.workers && v.log == w.log
  {
    assert {B} - {B} == {};
    assert GroupKeyOf(m) == KEY && SlotOf(m) == B;
    var out := Report(w.groups, KEY, B, 0, 1, m.result, false);
    if m.result != [] {
      assert 0 in map[][0 := m.result];
      assert Assemble(map[][0 := m.result], 1) == [m.result];
    }
    assert out.fires && out.groups.pending == map[] && out.groups.results == map[];
    var u := w.(groups := out.groups);
    assert SameStore(w, u, "q");
    var msg := CallbackMessage(m, out.collected);
    assert msg == MsgC(if m.result == [] then [] else [m.result]);
    CreateFacts(u, msg, 0, v);
  }

  // ----- the run -----

  lemma Launch() returns (ws: seq<World>, es: seq<Event>, w: World)
    ensures To(ws, es, w) && w.workers == map[] && Is(w, Stored(MsgA(), Pending), None, None, false, 1) && EntryAt(w, "q", 0) == Some(A)
  {
    SampleIsValid();
    ws, es, w := [START], [], START;
    ws, es, w := Go(ws, es, w, LaunchChain("u", Enqueue(MsgA())));
  }

  /** A is enqueued and its handler succeeds. */
  lemma RunA() returns (ws: seq<World>, es: seq<Event>, w: World)
    ensures To(ws, es, w) && w.workers == map[1 := Worker(0, MsgA().(result := [1]), Succeeded)]
    ensures Is(w, Stored(MsgA(), Active), None, None, false, 1) && EntryAt(w, "q", 0) == Some(A)
  {
    SampleIsValid();
    ws, es, w := Launch();
    ws, es, w := DeliverAndRun(Sample(), CARE, ws, es, w, 1, MsgA(), 0);
  }

  /** A opens the stage and creates B; its worker is lost before the hand-off. */
  lemma OpenStage(ws: seq<World>, es: seq<Event>, w: World) returns (ws': seq<World>, es': seq<Event>, v: World)
    requires To(ws, es, w) && w.workers == map[1 := Worker(0, MsgA().(result := [1]), Succeeded)]
    requires Is(w, Stored(MsgA(), Active), None, None, false, 1) && EntryAt(w, "q", 0) == Some(A)
    ensures To(ws', es', v) && v.workers == map[] && Is(v, Stored(MsgA(), Active), Stored(MsgB(), Pending), None, true, 2)
    ensures EntryAt(v, "q", 0) == Some(A) && EntryAt(v, "q", 1) == Some(B)
  {
    var m := MsgA().(result := [1]);
    MemberOfA(m);
    var u, x: World;
    ws', es', u := Go(ws, es, w, Advance(1, 0));
    OpenFacts(w, u, m, 0, Stored(MsgA(), Active), None, 1);
    ws', es', x := Go(ws', es', u, Advance(1, 0));
    CreateMemberFacts(u, x, m, 0, Stored(MsgA(), Active), 1);
    ws', es', v := Go(ws', es', x, Vanish(1));
    VanishFacts(x, v, "q");
  }

  const MSG_A1: TaskMessage := MsgA().(retried := 1)
  const MSG_B1: TaskMessage := MsgB().(retried := 1)

  /** The slow copy: B was delivered before it completed. */
  function Slow(): map<nat, Worker> { map[0 := Worker(1, MsgB(), Running)] }

  /** The recoverer puts A up for retry; a slow worker takes B, its lease lapses, and B is put
      up for retry and delivered again. */
  lemma TakeTwice(ws: seq<World>, es: seq<Event>, w: World) returns (ws': seq<World>, es': seq<Event>, v: World)
    requires To(ws, es, w) && w.workers == map[] && Is(w, Stored(MsgA(), Active), Stored(MsgB(), Pending), None, true, 2)
    requires EntryAt(w, "q", 0) == Some(A) && EntryAt(w, "q", 1) == Some(B)
    ensures To(ws', es', v) && Is(v, Stored(MSG_A1, Retry), Stored(MSG_B1, Active), None, true, 3) && Waits(v, "q", ZRetry, A)
    ensures v.workers == Slow()[1 := Worker(2, MSG_B1.(result := [1]), Succeeded)]
  {
    SampleIsValid();
    ws', es', v := Recover(Sample(), CARE, ws, es, w, 1, MsgA(), 0, Active);
    ws', es', v := Deliver(Sample(), CARE, ws', es', v, 0, MsgB(), 1);
    assert v.workers == Slow();
    ws', es', v := Recover(Sample(), CARE, ws', es', v, 1, MsgB(), 1, Active);
    ws', es', v := Retried(Sample(), CARE, ws', es', v, "q", B);
    ws', es', v := DeliverAndRun(Sample(), CARE, ws', es', v, 1, MSG_B1, 2);
  }

  lemma ReportBFacts(w: World, v: World)
    requires Is(w, Stored(MSG_A1, Retry), Stored(MSG_B1, Active), None, true, 3) && Waits(w, "q", ZRetry, A)
    requires w.workers == Slow()[1 := Worker(2, MSG_B1.(result := [1]), Succeeded)] && v == AdvanceWorker(w, 1, 0)
    ensures Is(v, Stored(MSG_A1, Retry), Stored(MSG_B1, Active), Stored(MsgC([[1]]), Pending), false, 4) && Waits(v, "q", ZRetry, A)
    ensures EntryAt(v, "q", 3) == Some(C) && v.workers == Slow()[1 := Worker(2, MSG_B1.(result := [1]), Phase.Reported)]
  {
    var m := MSG_B1.(result := [1]);
    var r := ReportMember(w, m, 0);
    ReportFacts(w, r, m, Stored(MSG_A1, Retry), Stored(MSG_B1, Active), 3);
    assert v == Settle(SetPhase(r, 1, Phase.Reported), m.id);
    assert SameStore(r, v, "q");
  }

  lemma FinishBFacts(w: World, v: World)
    requires Is(w, Stored(MSG_A1, Retry), Stored(MSG_B1, Active), Stored(MsgC([[1]]), Pending), false, 4) && Waits(w, "q", ZRetry, A)
    requires EntryAt(w, "q", 3) == Some(C) && w.workers == Slow()[1 := Worker(2, MSG_B1.(result := [1]), Phase.Reported)]
    requires v == FinishWorker(w, 1, 0)
    ensures v.workers == Slow() && Waits(v, "q", ZRetry, A) && EntryAt(v, "q", 3) == Some(C)
    ensures Is(v, Stored(MSG_A1, Retry), Stored(MSG_B1.(result := [1]), Completed), Stored(MsgC([[1]]), Pending), false, 4)
  {
    var m := MSG_B1.(result := [1]);
    var moved := MoveTask(w, 1, m, ZCompleted, 1);
    MoveFacts(w, 1, m, ZCompleted, 1, moved);
    assert v == Settle(moved, m.id) && SameStore(moved, v, "q");
    assert w.workers - {1} == Slow();
  }

  /** The second delivery reports, and completes B while the first still runs. */
  lemma CompleteB(ws: seq<World>, es: seq<Event>, w: World) returns (ws': seq<World>, es': seq<Event>, v: World)
    requires To(ws, es, w) && Is(w, Stored(MSG_A1, Retry), Stored(MSG_B1, Active), None, true, 3) && Waits(w, "q", ZRetry, A)
    requires w.workers == Slow()[1 := Worker(2, MSG_B1.(result := [1]), Succeeded)]
    ensures To(ws', es', v) && v.workers == Slow() && Waits(v, "q", ZRetry, A) && EntryAt(v, "q", 3) == Some(C)
    ensures Is(v, Stored(MSG_A1, Retry), Stored(MSG_B1.(result := [1]), Completed), Stored(MsgC([[1]]), Pending), false, 4)
  {
    var u: World;
    ws', es', u := Go(ws, es, w, Advance(1, 0));
    ReportBFacts(w, u);
    ws', es', v := Go(ws', es', u, Done(1, 0));
    FinishBFacts(u, v);
  }

  lemma FinishCFacts(w: World, v: World)
    requires w.workers == Slow()[1 := Worker(3, MsgC([[1]]).(result := [1]), Succeeded)] && Waits(w, "q", ZRetry, A)
    requires Is(w, Stored(MSG_A1, Retry), Stored(MSG_B1.(result := [1]), Completed), Stored(MsgC([[1]]), Active), false, 4)
    requires v == FinishWorker(w, 1, 0)
    ensures v.workers == Slow() && Waits(v, "q", ZRetry, A)
    ensures Is(v, Stored(MSG_A1, Retry), Stored(MSG_B1.(result := [1]), Completed), None, false, 4)
  {
    var dropped := DropTask(w, 1);
    DropFacts(w, 1, dropped);
    assert v == Settle(dropped, C) && SameStore(dropped, v, "q");
    assert w.workers - {1} == Slow();
  }

  /** The callback runs and is done with, so the stage is no longer fenced. */
  lemma CompleteC(ws: seq<World>, es: seq<Event>, w: World) returns (ws': seq<World>, es': seq<Event>, v: World)
    requires To(ws, es, w) && w.workers == Slow() && Waits(w, "q", ZRetry, A) && EntryAt(w, "q", 3) == Some(C)
    requires Is(w, Stored(MSG_A1, Retry), Stored(MSG_B1.(result := [1]), Completed), Stored(MsgC([[1]]), Pending), false, 4)
    ensures To(ws', es', v) && v.workers == Slow() && Waits(v, "q", ZRetry, A)
    ensures Is(v, Stored(MSG_A1, Retry), Stored(MSG_B1.(result := [1]), Completed), None, false, 4)
  {
    SampleIsValid();
    var u: World;
    ws', es', u := DeliverAndRun(Sample(), CARE, ws, es, w, 1, MsgC([[1]]), 3);
    ws', es', v := Go(ws', es', u, Done(1, 0));
    FinishCFacts(u, v);
  }

  /** The worker that holds A's second attempt. */
  function Retrying(ph: Phase): map<nat, Worker> { map[1 := Worker(4, MSG_A1.(result := [1]), ph)] }

  lemma RedeliverA(ws: seq<World>, es: seq<Event>, w: World) returns (ws': seq<World>, es': seq<Event>, v: World)
    requires To(ws, es, w) && w.workers == Slow() && Waits(w, "q", ZRetry, A)
    requires Is(w, Stored(MSG_A1, Retry), Stored(MSG_B1.(result := [1]), Completed), None, false, 4)
    ensures To(ws', es', v) && v.workers == Slow() + Retrying(Succeeded)
    ensures Is(v, Stored(MSG_A1, Active), Stored(MSG_B1.(result := [1]), Completed), None, false, 5)
  {
    SampleIsValid();
    ws', es', v := Retried(Sample(), CARE, ws, es, w, "q", A);
    ws', es', v := DeliverAndRun(Sample(), CARE, ws', es', v, 1, MSG_A1, 4);
    assert v.workers == Slow() + Retrying(Succeeded);
  }

  /** A is redelivered and opens the stage again. */
  lemma OpenAgain(ws: seq<World>, es: seq<Event>, w: World) returns (ws': seq<World>, es': seq<Event>, v: World)
    requires To(ws, es, w) && w.workers == Slow() + Retrying(Succeeded)
    requires Is(w, Stored(MSG_A1, Active), Stored(MSG_B1.(result := [1]), Completed), None, false, 5)
    ensures To(ws', es', v) && v.workers == Slow() + Retrying(Staging(0, None))
    ensures Is(v, Stored(MSG_A1, Active), Stored(MSG_B1.(result := [1]), Completed), None, true, 5)
  {
    var m := MSG_A1.(result := [1]);
    MemberOfA(m);
    ws', es', v := Go(ws, es, w, Advance(1, 0));
    OpenFacts(w, v, m, 4, Stored(MSG_A1, Active), Stored(MSG_B1.(result := [1]), Completed), 5);
    assert v.workers == Slow() + Retrying(Staging(0, None));
  }

  /** It finds B stored. */
  lemma FindStored(ws: seq<World>, es: seq<Event>, w: World) returns (ws': seq<World>, es': seq<Event>, v: World)
    requires To(ws, es, w) && w.workers == Slow() + Retrying(Staging(0, None))
    requires Is(w, Stored(MSG_A1, Active), Stored(MSG_B1.(result := [1]), Completed), None, true, 5)
    ensures To(ws', es', v) && v.workers == Slow() + Retrying(Draining(0, None))
    ensures Is(v, Stored(MSG_A1, Active), Stored(MSG_B1.(result := [1]), Completed), None, true, 5)
  {
    MemberOfA(MSG_A1.(result := [1]));
    ws', es', v := Go(ws, es, w, Advance(1, 0));
    FoundMemberFacts(w, v, MSG_A1.(result := [1]), 4, Stored(MSG_A1, Active), Stored(MSG_B1.(result := [1]), Completed), 5);
    assert v.workers == Slow() + Retrying(Draining(0, None));
  }

  /** It finds B completed, and is about to read it. */
  lemma FindCompleted(ws: seq<World>, es: seq<Event>, w: World) returns (ws': seq<World>, es': seq<Event>, v: World)
    requires To(ws, es, w) && w.workers == Slow() + Retrying(Draining(0, None))
    requires Is(w, Stored(MSG_A1, Active), Stored(MSG_B1.(result := [1]), Completed), None, true, 5)
    ensures To(ws', es', v) && v.workers == Slow() + Retrying(DrainReading(0, None))
    ensures Is(v, Stored(MSG_A1, Active), Stored(MSG_B1.(result := [1]), Completed), None, true, 5)
  {
    MemberOfA(MSG_A1.(result := [1]));
    ws', es', v := Go(ws, es, w, Advance(1, 0));
    assert v == SetPhase(w, 1, DrainReading(0, None));
    assert v.workers == Slow() + Retrying(DrainReading(0, None));
    assert SameStore(w, v, "q");
  }

  lemma OverwriteFacts(w: World, v: World)
    requires w.workers == map[0 := Worker(1, MsgB(), Failed(false))] + Retrying(DrainReading(0, None))
    requires Is(w, Stored(MSG_A1, Active), Stored(MSG_B1.(result := [1]), Completed), None, true, 5) && v == RetireWorker(w, 0, 0)
    ensures v.workers == Retrying(DrainReading(0, None)) && Is(v, Stored(MSG_A1, Active), Stored(MSG_B1, Retry), None, true, 5)
  {
    assert v == MoveTask(w, 0, MSG_B1, ZRetry, 0);
    MoveFacts(w, 0, MSG_B1, ZRetry, 0, v);
    assert v.workers == Retrying(DrainReading(0, None));
  }

  /** The slow worker fails and writes its copy back, without a result. */
  lemma Overwrite(ws: seq<World>, es: seq<Event>, w: World) returns (ws': seq<World>, es': seq<Event>, v: World)
    requires To(ws, es, w) && w.workers == Slow() + Retrying(DrainReading(0, None))
    requires Is(w, Stored(MSG_A1, Active), Stored(MSG_B1.(result := [1]), Completed), None, true, 5)
    ensures To(ws', es', v) && v.workers == Retrying(DrainReading(0, None))
    ensures Is(v, Stored(MSG_A1, Active), Stored(MSG_B1, Retry), None, true, 5)
  {
    var u: World;
    ws', es', u := Go(ws, es, w, HandlerErr(0, false));
    assert u.workers == map[0 := Worker(1, MsgB(), Failed(false))] + Retrying(DrainReading(0, None));
    assert SameStore(w, u, "q");
    ws', es', v := Go(ws', es', u, Retire(0, 0));
    OverwriteFacts(u, v);
  }

  lemma DrainedFacts(w: World, v: World)
    requires w.workers == Retrying(DrainReporting(0, None, MSG_B1)) && CanAdvance(w, w.workers[1]) && v == AdvanceWorker(w, 1, 0)
    requires Is(w, Stored(MSG_A1, Active), Stored(MSG_B1, Retry), None, true, 5)
    ensures v.workers == Retrying(Staging(1, None)) && EntryAt(v, "q", 5) == Some(C) && BodyOf(v, "q", C) == Stored(MsgC([]), Pending)
  {
    var r := ReportMember(w, MSG_B1, 0);
    ReportFacts(w, r, MSG_B1, Stored(MSG_A1, Active), Stored(MSG_B1, Retry), 5);
    assert v == SetPhase(r, 1, Staging(1, None)) && SameStore(r, v, "q");
  }

  lemma ReadFacts(w: World, v: World)
    requires w.workers == Retrying(DrainReading(0, None)) && Is(w, Stored(MSG_A1, Active), Stored(MSG_B1, Retry), None, true, 5)
    requires CanAdvance(w, w.workers[1]) && v == AdvanceWorker(w, 1, 0)
    ensures v.workers == Retrying(DrainReporting(0, None, MSG_B1)) && Is(v, Stored(MSG_A1, Active), Stored(MSG_B1, Retry), None, true, 5)
  {
    MemberOfA(MSG_A1.(result := [1]));
    assert v == SetPhase(w, 1, DrainReporting(0, None, MSG_B1)) && SameStore(w, v, "q");
  }

  /** The drain reads B without its result. */
  lemma DrainReads(ws: seq<World>, es: seq<Event>, w: World) returns (ws': seq<World>, es': seq<Event>, v: World)
    requires To(ws, es, w) && w.workers == Retrying(DrainReading(0, None))
    requires Is(w, Stored(MSG_A1, Active), Stored(MSG_B1, Retry), None, true, 5)
    ensures To(ws', es', v) && v.workers == Retrying(DrainReporting(0, None, MSG_B1))
    ensures Is(v, Stored(MSG_A1, Active), Stored(MSG_B1, Retry), None, true, 5)
  {
    ws', es', v := Go(ws, es, w, Advance(1, 0));
    ReadFacts(w, v);
  }

  /** It reports for B without its result. */
  lemma DrainWrong(ws: seq<World>, es: seq<Event>, w: World) returns (ws': seq<World>, es': seq<Event>, v: World)
    requires To(ws, es, w) && w.workers == Retrying(DrainReporting(0, None, MSG_B1))
    requires Is(w, Stored(MSG_A1, Active), Stored(MSG_B1, Retry), None, true, 5)
    ensures To(ws', es', v) && v.workers == map[] && EntryAt(v, "q", 5) == Some(C)
    ensures BodyOf(v, "q", C) == Stored(MsgC([]), Pending)
  {
    var u: World;
    ws', es', u := Go(ws, es, w, Advance(1, 0));
    DrainedFacts(w, u);
    ws', es', v := Go(ws', es', u, Vanish(1));
    VanishFacts(u, v, "q");
  }

  lemma NotCalled()
    ensures !CalledBy(Sample().h, "u", Chain(), InputOf(MsgC([])))
  {
    var h, call := Sample().h, InputOf(MsgC([]));
    var a, b := Input(A, "a", [], "q", [], []), Input(B, "b", [], "q", [1], []);
    var c := Input(C, "c", [], "q", [], [[1]]);
    assert [LINK_A, LINK_C][1..] == [LINK_C] && [LINK_C][1..] == [];
    assert MemberCalls(LINK_C, STAGE, [1]) == [b];
    assert Results(h, [b]) == [[1]];
    assert [[1]][0] != [];
    assert Collect([[1]]) == [[1]];
    assert ChainCalls(h, Root("u"), 2, [], [1]) == [];
    assert ChainCalls(h, Root("u"), 1, [LINK_C], [1]) == [b] + [c] + [];
    assert ChainCalls(h, Root("u"), 0, [LINK_A, LINK_C], []) == [a] + ([b] + [c] + []);
  }

  /** With retries and redeliveries only, nothing deleted or expired, no retained mid-link and a
      deterministic handler, a callback can be called without a result its member produced. */
  lemma DrainRaceBreaksMeaning() returns (ws: seq<World>, es: seq<Event>, call: Input)
    ensures ValidPlan(Sample()) && NoRetainedMidLinks(Sample()) && CodeRun(Sample(), Care(false, false, true, true, true), ws, es)
    ensures call in ws[|es|].log && RootOf(call.id) == "u" && !CalledBy(Sample().h, "u", Chain(), call)
  {
    var w: World;
    SampleIsValid();
    ws, es, w := RunA();
    ws, es, w := OpenStage(ws, es, w);
    ws, es, w := TakeTwice(ws, es, w);
    ws, es, w := CompleteB(ws, es, w);
    ws, es, w := CompleteC(ws, es, w);
    ws, es, w := RedeliverA(ws, es, w);
    ws, es, w := OpenAgain(ws, es, w);
    ws, es, w := FindStored(ws, es, w);
    ws, es, w := FindCompleted(ws, es, w);
    ws, es, w := Overwrite(ws, es, w);
    ws, es, w := DrainReads(ws, es, w);
    ws, es, w := DrainWrong(ws, es, w);
    ws, es, w := DeliverAndRun(Sample(), CARE, ws, es, w, 1, MsgC([]), 5);
    call := InputOf(MsgC([]));
    NotCalled();
  }
}
