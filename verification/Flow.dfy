/** Workflows as built by the client, what they mean, and the message every task of a
    workflow is created with.

    `ChainCalls` and `GroupCalls` evaluate a workflow directly, stage after stage. `Birth`
    gives the message of the task with a given ID; the lemmas at the end show that the
    inputs in those messages are exactly the calls of the direct evaluation. */
module Flow {
  import opened Ids
  import opened Base

  /** What a handler sees of its task. */
  datatype Input = Input(id: Id, kind: string, payload: Bytes, queue: string, prev: Bytes, groups: seq<Bytes>)

  /** A deterministic handler: its result when it succeeds, [] for a handler without one. */
  type Handler = Input -> Bytes

  datatype MemberPlan = Flat(link: ChainLink) | Seq(links: seq<ChainLink>)

  datatype Workflow =
    | ChainFlow(stages: seq<ChainLink>)
    | GroupFlow(members: seq<MemberPlan>, callback: ChainLink)

  /** All workflows of a deployment, by the UUID chosen at enqueue time. */
  datatype Plan = Plan(flows: map<string, Workflow>, h: Handler)

  // ----- what the builders guarantee -----

  predicate SingleLinks(links: seq<ChainLink>) {
    forall i :: 0 <= i < |links| ==> links[i].group == [] && !links[i].noArchive
  }

  predicate ValidMember(m: MemberPlan) {
    match m
    case Flat(link) => link.group == [] && !link.noArchive
    case Seq(links) => links != [] && SingleLinks(links)
  }

  predicate ValidFlow(f: Workflow) {
    match f
    case ChainFlow(stages) =>
      && stages != [] && stages[0].group == []
      && forall i :: 0 <= i < |stages| - 1 ==> !stages[i].noArchive
    case GroupFlow(members, callback) =>
      && members != [] && callback.group == []
      && forall j :: 0 <= j < |members| ==> ValidMember(members[j])
  }

  ghost predicate ValidPlan(p: Plan) {
    forall u :: u in p.flows ==> ValidFlow(p.flows[u])
  }

  /** No link of a member chain except the last keeps its record after success. */
  predicate NoRetainedMidLink(m: MemberPlan) {
    m.Seq? ==> forall i :: 0 <= i < |m.links| - 1 ==> m.links[i].retention <= 0
  }

  ghost predicate NoRetainedMidLinks(p: Plan) {
    forall u, j :: u in p.flows && p.flows[u].GroupFlow? && 0 <= j < |p.flows[u].members| ==>
      NoRetainedMidLink(p.flows[u].members[j])
  }

  // ----- messages -----

  function InputOf(m: TaskMessage): Input {
    Input(m.id, m.kind, m.payload, m.queue, m.prevResult, m.groupResults)
  }

  /** The results a callback receives: absent when nobody produced one. */
  function Collect(outs: seq<Bytes>): seq<Bytes> {
    if forall i :: 0 <= i < |outs| ==> outs[i] == [] then [] else outs
  }

  /** The result of the stage before stage `k`. */
  function Prev(h: Handler, c: Id, stages: seq<ChainLink>, k: nat): Bytes
    requires k <= |stages|
    decreases k, 0
  {
    if k == 0 then [] else StageOut(h, c, stages, k - 1)
  }

  function LinkBirth(h: Handler, c: Id, stages: seq<ChainLink>, k: nat): TaskMessage
    requires k < |stages|
    decreases k, 1
  {
    var s := stages[k];
    Plain(Indexed(c, k), s.kind, s.payload, s.queue, s.maxRetry, s.noArchive, s.retention)
      .(chain := stages[k + 1..], chainId := Some(c), chainIndex := k, prevResult := Prev(h, c, stages, k))
  }

  function StageMember(h: Handler, c: Id, stages: seq<ChainLink>, k: nat, j: nat): TaskMessage
    requires k < |stages| && j < |stages[k].group|
    decreases k, 1
  {
    var s, m := stages[k], stages[k].group[j];
    Plain(Member(Indexed(c, k), j), m.kind, m.payload, m.queue, m.maxRetry, false, m.retention)
      .(chainId := Some(c), chainIndex := k, prevResult := Prev(h, c, stages, k),
        groupId := Some(Indexed(c, k)), groupQueue := s.queue, groupCallback := Some(s.(group := [])),
        groupIndex := j, groupSize := |s.group|, groupCallbackChain := stages[k + 1..])
  }

  function StageMemberOuts(h: Handler, c: Id, stages: seq<ChainLink>, k: nat): (outs: seq<Bytes>)
    requires k < |stages|
    ensures |outs| == |stages[k].group|
    decreases k, 2
  {
    seq(|stages[k].group|, j requires 0 <= j < |stages[k].group| => h(InputOf(StageMember(h, c, stages, k, j))))
  }

  function StageCallback(h: Handler, c: Id, stages: seq<ChainLink>, k: nat): TaskMessage
    requires k < |stages|
    decreases k, 3
  {
    var s, last := stages[k], k + 1 == |stages|;
    Plain(Callback(Indexed(c, k)), s.kind, s.payload, s.queue, s.maxRetry, s.noArchive, s.retention)
      .(chain := stages[k + 1..], chainId := if last then None else Some(c), chainIndex := if last then 0 else k,
        groupResults := Collect(StageMemberOuts(h, c, stages, k)))
  }

  /** The task whose result is the stage's result: the link itself, or the callback. */
  function Carrier(h: Handler, c: Id, stages: seq<ChainLink>, k: nat): TaskMessage
    requires k < |stages|
    decreases k, 4
  {
    if stages[k].group == [] then LinkBirth(h, c, stages, k) else StageCallback(h, c, stages, k)
  }

  function StageOut(h: Handler, c: Id, stages: seq<ChainLink>, k: nat): Bytes
    requires k < |stages|
    decreases k, 5
  {
    h(InputOf(Carrier(h, c, stages, k)))
  }

  /** The reporting fields of member `j` of the group flow `u`. */
  function Tagged(m: TaskMessage, u: string, f: Workflow, j: nat, slot: Option<Id>): TaskMessage
    requires f.GroupFlow?
  {
    m.(groupId := Some(Root(u)), groupQueue := f.callback.queue, groupCallback := Some(f.callback),
       groupIndex := j, groupSize := |f.members|, groupMemberId := slot)
  }

  function FlatMember(u: string, f: Workflow, j: nat): TaskMessage
    requires f.GroupFlow? && j < |f.members| && f.members[j].Flat?
  {
    var l := f.members[j].link;
    Tagged(Plain(Member(Root(u), j), l.kind, l.payload, l.queue, l.maxRetry, false, l.retention), u, f, j, None)
  }

  function ChainMember(h: Handler, u: string, f: Workflow, j: nat, i: nat): TaskMessage
    requires f.GroupFlow? && j < |f.members| && f.members[j].Seq? && i < |f.members[j].links|
  {
    Tagged(LinkBirth(h, Member(Root(u), j), f.members[j].links, i), u, f, j, Some(Member(Root(u), j)))
  }

  /** The result member `j` reports: its own, or that of its chain's last link. */
  function MemberOut(h: Handler, u: string, f: Workflow, j: nat): Bytes
    requires f.GroupFlow? && j < |f.members|
  {
    if f.members[j].Flat? then h(InputOf(FlatMember(u, f, j)))
    else if f.members[j].links == [] then []
    else StageOut(h, Member(Root(u), j), f.members[j].links, |f.members[j].links| - 1)
  }

  function MemberOuts(h: Handler, u: string, f: Workflow): (outs: seq<Bytes>)
    requires f.GroupFlow?
    ensures |outs| == |f.members|
  {
    seq(|f.members|, j requires 0 <= j < |f.members| => MemberOut(h, u, f, j))
  }

  function FlowCallback(h: Handler, u: string, f: Workflow): TaskMessage
    requires f.GroupFlow?
  {
    var s := f.callback;
    Plain(Callback(Root(u)), s.kind, s.payload, s.queue, s.maxRetry, s.noArchive, s.retention)
      .(groupResults := Collect(MemberOuts(h, u, f)))
  }

  function ChainBirth(h: Handler, u: string, stages: seq<ChainLink>, id: Id): Option<TaskMessage> {
    match id
    case Indexed(Root(_), k) =>
      if k < |stages| && stages[k].group == [] then Some(LinkBirth(h, Root(u), stages, k)) else None
    case Member(Indexed(Root(_), k), j) =>
      if k < |stages| && j < |stages[k].group| then Some(StageMember(h, Root(u), stages, k, j)) else None
    case Callback(Indexed(Root(_), k)) =>
      if k < |stages| && stages[k].group != [] then Some(StageCallback(h, Root(u), stages, k)) else None
    case _ => None
  }

  function GroupBirth(h: Handler, u: string, f: Workflow, id: Id): Option<TaskMessage>
    requires f.GroupFlow?
  {
    match id
    case Member(Root(_), j) =>
      if j < |f.members| && f.members[j].Flat? then Some(FlatMember(u, f, j)) else None
    case Indexed(Member(Root(_), j), i) =>
      if j < |f.members| && f.members[j].Seq? && i < |f.members[j].links| then Some(ChainMember(h, u, f, j, i)) else None
    case Callback(Root(_)) => Some(FlowCallback(h, u, f))
    case _ => None
  }

  /** The message the task with this ID is created with, if the plan has such a task. */
  function Birth(p: Plan, id: Id): Option<TaskMessage> {
    var u := RootOf(id);
    if u !in p.flows then None
    else if p.flows[u].ChainFlow? then ChainBirth(p.h, u, p.flows[u].stages, id)
    else GroupBirth(p.h, u, p.flows[u], id)
  }

  lemma {:induction false} BirthId(p: Plan, id: Id)
    requires Birth(p, id).Some?
    ensures Birth(p, id).value.id == id && Birth(p, id).value.retried == 0 && Birth(p, id).value.result == []
  {
    match id {
      case Indexed(Root(u), _) => assert RootOf(Root(u)) == u;
      case Member(Indexed(Root(u), k), _) => assert RootOf(Indexed(Root(u), k)) == u;
      case Callback(Indexed(Root(u), k)) => assert RootOf(Indexed(Root(u), k)) == u;
      case Member(Root(u), _) => assert RootOf(Root(u)) == u;
      case Indexed(Member(Root(u), j), _) => assert RootOf(Member(Root(u), j)) == u;
      case Callback(Root(u)) => assert RootOf(Root(u)) == u;
      case _ =>
    }
  }

  // ----- direct evaluation -----

  /** The handler calls of the members of a parallel stage. */
  function MemberCalls(stage: ChainLink, gid: Id, prev: Bytes): (r: seq<Input>)
    ensures |r| == |stage.group|
  {
    seq(|stage.group|, j requires 0 <= j < |stage.group| =>
      var m := stage.group[j]; Input(Member(gid, j), m.kind, m.payload, m.queue, prev, []))
  }

  function Results(h: Handler, calls: seq<Input>): seq<Bytes> {
    seq(|calls|, j requires 0 <= j < |calls| => h(calls[j]))
  }

  /** Evaluate the stages from number `k` on, the stage before having returned `prev`. */
  function ChainCalls(h: Handler, c: Id, k: nat, stages: seq<ChainLink>, prev: Bytes): seq<Input>
    decreases |stages|
  {
    if stages == [] then []
    else
      var s := stages[0];
      if s.group == [] then
        var call := Input(Indexed(c, k), s.kind, s.payload, s.queue, prev, []);
        [call] + ChainCalls(h, c, k + 1, stages[1..], h(call))
      else
        var members := MemberCalls(s, Indexed(c, k), prev);
        var call := Input(Callback(Indexed(c, k)), s.kind, s.payload, s.queue, [], Collect(Results(h, members)));
        members + [call] + ChainCalls(h, c, k + 1, stages[1..], h(call))
  }

  function PlanCalls(h: Handler, u: string, m: MemberPlan, j: nat): seq<Input> {
    match m
    case Flat(l) => [Input(Member(Root(u), j), l.kind, l.payload, l.queue, [], [])]
    case Seq(links) => ChainCalls(h, Member(Root(u), j), 0, links, [])
  }

  /** Evaluate a group: every member on its own, then the callback on their last results. */
  function GroupCalls(h: Handler, u: string, f: Workflow): seq<seq<Input>>
    requires f.GroupFlow?
  {
    seq(|f.members|, j requires 0 <= j < |f.members| => PlanCalls(h, u, f.members[j], j))
  }

  function LastResult(h: Handler, calls: seq<Input>): Bytes {
    if calls == [] then [] else h(calls[|calls| - 1])
  }

  /** The calls a direct evaluation of the whole workflow makes. */
  ghost predicate CalledBy(h: Handler, u: string, f: Workflow, call: Input) {
    match f
    case ChainFlow(stages) => call in ChainCalls(h, Root(u), 0, stages, [])
    case GroupFlow(members, cb) =>
      var runs := GroupCalls(h, u, f);
      || (exists j :: 0 <= j < |runs| && call in runs[j])
      || call == Input(Callback(Root(u)), cb.kind, cb.payload, cb.queue, [],
                       Collect(seq(|runs|, j requires 0 <= j < |runs| => LastResult(h, runs[j]))))
  }

  // ----- the messages carry the inputs of the direct evaluation -----

  lemma {:induction false} MemberResults(h: Handler, c: Id, stages: seq<ChainLink>, k: nat)
    requires k < |stages|
    ensures var calls := MemberCalls(stages[k], Indexed(c, k), Prev(h, c, stages, k));
            && Results(h, calls) == StageMemberOuts(h, c, stages, k)
            && forall j :: 0 <= j < |calls| ==> calls[j] == InputOf(StageMember(h, c, stages, k, j))
  {
    var calls := MemberCalls(stages[k], Indexed(c, k), Prev(h, c, stages, k));
    forall j | 0 <= j < |calls| ensures calls[j] == InputOf(StageMember(h, c, stages, k, j)) {}
    var outs := StageMemberOuts(h, c, stages, k);
    forall j | 0 <= j < |calls| ensures outs[j] == h(calls[j]) {}
    assert Results(h, calls) == outs;
  }

  lemma {:induction false} CarrierCalled(h: Handler, c: Id, stages: seq<ChainLink>, from: nat, k: nat)
    requires from <= k < |stages|
    ensures InputOf(Carrier(h, c, stages, k)) in ChainCalls(h, c, from, stages[from..], Prev(h, c, stages, from))
    decreases k - from
  {
    Unfold(h, c, stages, from);
    if from < k { CarrierCalled(h, c, stages, from + 1, k); }
  }

  /** The member calls at stage `k`: none for a single link. */
  function Front(h: Handler, c: Id, stages: seq<ChainLink>, k: nat): seq<Input>
    requires k < |stages|
  {
    if stages[k].group == [] then [] else MemberCalls(stages[k], Indexed(c, k), Prev(h, c, stages, k))
  }

  lemma {:induction false} CallbackInput(h: Handler, c: Id, stages: seq<ChainLink>, k: nat)
    requires k < |stages|
    ensures InputOf(StageCallback(h, c, stages, k)) ==
            Input(Callback(Indexed(c, k)), stages[k].kind, stages[k].payload, stages[k].queue, [],
                  Collect(StageMemberOuts(h, c, stages, k)))
  {
  }

  /** One unfolding of the evaluation at stage `from` meets the messages of that stage. */
  lemma {:induction false} Unfold(h: Handler, c: Id, stages: seq<ChainLink>, from: nat)
    requires from < |stages|
    ensures ChainCalls(h, c, from, stages[from..], Prev(h, c, stages, from)) ==
            Front(h, c, stages, from) + [InputOf(Carrier(h, c, stages, from))] +
            ChainCalls(h, c, from + 1, stages[from + 1..], Prev(h, c, stages, from + 1))
  {
    var rest, prev := stages[from..], Prev(h, c, stages, from);
    assert rest[0] == stages[from] && rest[1..] == stages[from + 1..];
    var call := InputOf(Carrier(h, c, stages, from));
    assert Prev(h, c, stages, from + 1) == h(call);
    if stages[from].group == [] {
      assert call == Input(Indexed(c, from), rest[0].kind, rest[0].payload, rest[0].queue, prev, []);
    } else {
      MemberResults(h, c, stages, from);
      CallbackInput(h, c, stages, from);
    }
  }

  lemma {:induction false} StageMemberInFront(h: Handler, c: Id, stages: seq<ChainLink>, k: nat, j: nat)
    requires k < |stages| && j < |stages[k].group|
    ensures InputOf(StageMember(h, c, stages, k, j)) in Front(h, c, stages, k)
  {
    MemberResults(h, c, stages, k);
    assert Front(h, c, stages, k)[j] == InputOf(StageMember(h, c, stages, k, j));
  }

  lemma {:induction false} StageMemberCalled(h: Handler, c: Id, stages: seq<ChainLink>, from: nat, k: nat, j: nat)
    requires from <= k < |stages| && j < |stages[k].group|
    ensures InputOf(StageMember(h, c, stages, k, j)) in ChainCalls(h, c, from, stages[from..], Prev(h, c, stages, from))
    decreases k - from
  {
    Unfold(h, c, stages, from);
    if from < k {
      StageMemberCalled(h, c, stages, from + 1, k, j);
    } else {
      StageMemberInFront(h, c, stages, k, j);
    }
  }

  lemma {:induction false} LastOf(h: Handler, front: seq<Input>, call: Input, rest: seq<Input>)
    ensures LastResult(h, front + [call] + rest) == if rest == [] then h(call) else LastResult(h, rest)
  {
  }

  /** The last call of a chain is the call of its last stage. */
  lemma {:induction false} LastCall(h: Handler, c: Id, stages: seq<ChainLink>, from: nat)
    requires from < |stages|
    ensures var calls := ChainCalls(h, c, from, stages[from..], Prev(h, c, stages, from));
            calls != [] && LastResult(h, calls) == StageOut(h, c, stages, |stages| - 1)
    decreases |stages| - from
  {
    Unfold(h, c, stages, from);
    var rest := ChainCalls(h, c, from + 1, stages[from + 1..], Prev(h, c, stages, from + 1));
    LastOf(h, Front(h, c, stages, from), InputOf(Carrier(h, c, stages, from)), rest);
    if from + 1 < |stages| { LastCall(h, c, stages, from + 1); }
  }

  lemma {:induction false} ChainBirthCalled(h: Handler, u: string, stages: seq<ChainLink>, id: Id)
    requires ChainBirth(h, u, stages, id).Some?
    ensures InputOf(ChainBirth(h, u, stages, id).value) in ChainCalls(h, Root(u), 0, stages, [])
  {
    assert stages[0..] == stages;
    match id {
      case Indexed(Root(_), k) => CarrierCalled(h, Root(u), stages, 0, k);
      case Member(Indexed(Root(_), k), j) => StageMemberCalled(h, Root(u), stages, 0, k, j);
      case Callback(Indexed(Root(_), k)) => CarrierCalled(h, Root(u), stages, 0, k);
    }
  }

  lemma {:induction false} PlanLastResult(h: Handler, u: string, f: Workflow, j: nat)
    requires f.GroupFlow? && ValidFlow(f) && j < |f.members|
    ensures LastResult(h, PlanCalls(h, u, f.members[j], j)) == MemberOut(h, u, f, j)
  {
    assert ValidMember(f.members[j]);
    if f.members[j].Seq? {
      var links := f.members[j].links;
      assert links[0..] == links;
      LastCall(h, Member(Root(u), j), links, 0);
    }
  }

  lemma {:induction false} GroupBirthCalled(h: Handler, u: string, f: Workflow, id: Id)
    requires f.GroupFlow? && ValidFlow(f) && GroupBirth(h, u, f, id).Some?
    ensures CalledBy(h, u, f, InputOf(GroupBirth(h, u, f, id).value))
  {
    var runs := GroupCalls(h, u, f);
    match id {
      case Member(Root(_), j) => assert InputOf(FlatMember(u, f, j)) in runs[j];
      case Indexed(Member(Root(_), j), i) =>
        var links := f.members[j].links;
        assert ValidMember(f.members[j]);
        assert links[0..] == links;
        CarrierCalled(h, Member(Root(u), j), links, 0, i);
        assert InputOf(ChainMember(h, u, f, j, i)) in runs[j];
      case Callback(Root(_)) =>
        forall j | 0 <= j < |f.members| ensures LastResult(h, runs[j]) == MemberOut(h, u, f, j) { PlanLastResult(h, u, f, j); }
        assert seq(|runs|, j requires 0 <= j < |runs| => LastResult(h, runs[j])) == MemberOuts(h, u, f);
    }
  }

  /** Every task's message carries the inputs of its call in the direct evaluation. */
  lemma {:induction false} BirthCalled(p: Plan, id: Id)
    requires ValidPlan(p) && Birth(p, id).Some?
    ensures RootOf(id) in p.flows && CalledBy(p.h, RootOf(id), p.flows[RootOf(id)], InputOf(Birth(p, id).value))
  {
    var u := RootOf(id);
    if p.flows[u].ChainFlow? {
      ChainBirthCalled(p.h, u, p.flows[u].stages, id);
    } else {
      GroupBirthCalled(p.h, u, p.flows[u], id);
    }
  }

  // ----- the direct evaluation makes no other calls -----

  /** A call of the evaluation from stage `from` on is the carrier's or a member's of some stage. */
  lemma {:induction false} CalledAtStage(h: Handler, c: Id, stages: seq<ChainLink>, from: nat, call: Input) returns (k: nat, j: int)
    requires from <= |stages| && call in ChainCalls(h, c, from, stages[from..], Prev(h, c, stages, from))
    ensures from <= k < |stages| && j < |stages[k].group|
    ensures call == if j < 0 then InputOf(Carrier(h, c, stages, k)) else InputOf(StageMember(h, c, stages, k, j))
    decreases |stages| - from
  {
    SomethingLeft(h, c, from, stages[from..], Prev(h, c, stages, from), call);
    Unfold(h, c, stages, from);
    if call == InputOf(Carrier(h, c, stages, from)) {
      k, j := from, -1;
    } else if call in Front(h, c, stages, from) {
      MemberResults(h, c, stages, from);
      j :| 0 <= j < |Front(h, c, stages, from)| && Front(h, c, stages, from)[j] == call;
      k := from;
    } else {
      k, j := CalledAtStage(h, c, stages, from + 1, call);
    }
  }

  lemma {:induction false} SomethingLeft(h: Handler, c: Id, k: nat, stages: seq<ChainLink>, prev: Bytes, call: Input)
    requires call in ChainCalls(h, c, k, stages, prev)
    ensures stages != []
  {
  }

  lemma {:induction false} ChainCalledIsBirth(p: Plan, u: string, call: Input)
    requires u in p.flows && p.flows[u].ChainFlow? && call in ChainCalls(p.h, Root(u), 0, p.flows[u].stages, [])
    ensures Birth(p, call.id).Some? && call == InputOf(Birth(p, call.id).value)
  {
    var stages := p.flows[u].stages;
    assert stages[0..] == stages;
    var k, j := CalledAtStage(p.h, Root(u), stages, 0, call);
    RootOfDerived(u, k, if j < 0 then 0 else j);
  }

  lemma {:induction false} MemberCalledIsBirth(p: Plan, u: string, j: nat, call: Input)
    requires ValidPlan(p) && u in p.flows && p.flows[u].GroupFlow? && j < |p.flows[u].members|
    requires call in PlanCalls(p.h, u, p.flows[u].members[j], j)
    ensures Birth(p, call.id).Some? && call == InputOf(Birth(p, call.id).value)
  {
    var m := p.flows[u].members[j];
    assert ValidMember(m);
    RootOfDerived(u, 0, j);
    if m.Seq? {
      var c := Member(Root(u), j);
      assert m.links[0..] == m.links;
      var k, i := CalledAtStage(p.h, c, m.links, 0, call);
      RootOfDerived(u, k, j);
      assert m.links[k].group == [];
    }
  }

  lemma {:induction false} CallbackCalledIsBirth(p: Plan, u: string, call: Input)
    requires ValidPlan(p) && u in p.flows && p.flows[u].GroupFlow?
    requires var f := p.flows[u];
             var runs := GroupCalls(p.h, u, f);
             call == Input(Callback(Root(u)), f.callback.kind, f.callback.payload, f.callback.queue, [],
                           Collect(seq(|runs|, j requires 0 <= j < |runs| => LastResult(p.h, runs[j]))))
    ensures Birth(p, call.id).Some? && call == InputOf(Birth(p, call.id).value)
  {
    var f, runs := p.flows[u], GroupCalls(p.h, u, p.flows[u]);
    RootOfDerived(u, 0, 0);
    forall j | 0 <= j < |f.members| ensures LastResult(p.h, runs[j]) == MemberOut(p.h, u, f, j) { PlanLastResult(p.h, u, f, j); }
    assert seq(|runs|, j requires 0 <= j < |runs| => LastResult(p.h, runs[j])) == MemberOuts(p.h, u, f);
  }

  /** The calls of a direct evaluation are exactly the inputs of the birth messages. */
  lemma {:induction false} CalledExactly(p: Plan, call: Input)
    requires ValidPlan(p) && RootOf(call.id) in p.flows
    ensures CalledBy(p.h, RootOf(call.id), p.flows[RootOf(call.id)], call) <==>
              Birth(p, call.id).Some? && call == InputOf(Birth(p, call.id).value)
  {
    var u := RootOf(call.id);
    if Birth(p, call.id).Some? { BirthCalled(p, call.id); }
    if CalledBy(p.h, u, p.flows[u], call) {
      if p.flows[u].ChainFlow? {
        ChainCalledIsBirth(p, u, call);
      } else {
        var runs := GroupCalls(p.h, u, p.flows[u]);
        if j :| 0 <= j < |runs| && call in runs[j] { MemberCalledIsBirth(p, u, j, call); } else { CallbackCalledIsBirth(p, u, call); }
      }
    }
  }
}
