/** The client's builders: which chains and groups they accept, and that what they enqueue is
    the message the workflow machine starts from. Times are milliseconds. */
module Builder {
  import opened Ids
  import opened Base
  import opened Store
  import opened Flow
  import opened World
  import opened GroupState

  const SECOND: int := 1000
  const DEFAULT_QUEUE: string := "default"
  const DEFAULT_MAX_RETRY: int := 25

  datatype Result<+T> = Ok(value: T) | Err(error: Error)

  datatype Error =
    | EmptyChain | GroupFirst | NilChain | NestedGroup | NilGroup | NoMembers | NoCallback
    | TaskIdInChain | UniqueInChain | AbsoluteDelay | DiscardMidChain | DiscardMember
    | ChainMemberInStage | DelayBeyondTtl | BadArgs

  /** Task arguments; None when they do not encode. */
  datatype Args = Args(kind: string, payload: Option<Bytes>)

  datatype Opt =
    | WithQueue(queue: string)
    | WithTaskID(id: string)
    | WithMaxRetry(n: int)
    | WithDeadLetterDiscard
    | WithProcessAt(at: int)
    | WithProcessIn(delay: int)
    | WithUnique(ttl: int)
    | WithRetention(keep: int)

  datatype Options = Options(
    queue: string, taskId: string, maxRetry: int, noArchive: bool,
    processAt: Option<int>, absolute: bool, uniqueTtl: int, retention: int)

  datatype Task = Task(args: Args, opts: seq<Opt>)

  datatype StageSpec = Single(task: Task) | Parallel(group: Option<GroupSpec>)
  datatype GroupSpec = GroupSpec(members: seq<MemberSpec>, callback: Option<Task>)
  datatype MemberSpec = Alone(task: Task) | Chained(chain: Option<seq<StageSpec>>)

  // ----- options -----

  const DEFAULTS: Options := Options(DEFAULT_QUEUE, "", DEFAULT_MAX_RETRY, false, None, false, 0, 0)

  function ApplyOpt(o: Options, opt: Opt, now: int): Options {
    match opt
    case WithQueue(queue) => o.(queue := queue)
    case WithTaskID(id) => o.(taskId := id)
    case WithMaxRetry(n) => o.(maxRetry := if n < 0 then 0 else n)
    case WithDeadLetterDiscard => o.(noArchive := true)
    case WithProcessAt(at) => o.(processAt := Some(at), absolute := true)
    case WithProcessIn(delay) => o.(processAt := Some(now + delay))
    case WithUnique(ttl) => if ttl > 0 then o.(uniqueTtl := ttl) else o
    case WithRetention(keep) => o.(retention := if keep <= 0 then 0 else if keep < SECOND then SECOND else keep)
  }

  function Folded(opts: seq<Opt>, now: int): (o: Options)
    ensures o.maxRetry >= 0 && o.uniqueTtl >= 0 && (o.retention == 0 || o.retention >= SECOND)
  {
    if opts == [] then DEFAULTS else ApplyOpt(Folded(opts[..|opts| - 1], now), opts[|opts| - 1], now)
  }

  // ----- what the options say -----

  datatype OptKind = QueueKind | IdKind | RetryKind | DiscardKind | TimeKind | UniqueKind | RetentionKind | NoKind

  /** Options of one kind override each other; a unique TTL that is not positive says nothing. */
  function KindOf(opt: Opt): OptKind {
    match opt
    case WithQueue(_) => QueueKind
    case WithTaskID(_) => IdKind
    case WithMaxRetry(_) => RetryKind
    case WithDeadLetterDiscard => DiscardKind
    case WithProcessAt(_) => TimeKind
    case WithProcessIn(_) => TimeKind
    case WithUnique(ttl) => if ttl > 0 then UniqueKind else NoKind
    case WithRetention(_) => RetentionKind
  }

  ghost predicate IsLast(opts: seq<Opt>, i: int, kind: OptKind) {
    0 <= i < |opts| && KindOf(opts[i]) == kind && forall j :: i < j < |opts| ==> KindOf(opts[j]) != kind
  }

  ghost predicate Unsaid(opts: seq<Opt>, kind: OptKind) {
    forall i :: 0 <= i < |opts| ==> KindOf(opts[i]) != kind
  }

  ghost predicate SaysQueue(opts: seq<Opt>, queue: string) {
    (forall i :: IsLast(opts, i, QueueKind) ==> queue == opts[i].queue) && (Unsaid(opts, QueueKind) ==> queue == "default")
  }

  ghost predicate SaysId(opts: seq<Opt>, id: string) {
    (forall i :: IsLast(opts, i, IdKind) ==> id == opts[i].id) && (Unsaid(opts, IdKind) ==> id == "")
  }

  ghost predicate SaysRetry(opts: seq<Opt>, maxRetry: int) {
    (forall i :: IsLast(opts, i, RetryKind) ==> maxRetry == if opts[i].n > 0 then opts[i].n else 0) && (Unsaid(opts, RetryKind) ==> maxRetry == 25)
  }

  ghost predicate SaysStart(opts: seq<Opt>, now: int, start: Option<int>) {
    && (forall i :: IsLast(opts, i, TimeKind) ==> start.Some? && start.value == if opts[i].WithProcessAt? then opts[i].at else now + opts[i].delay)
    && (Unsaid(opts, TimeKind) ==> start.None?)
  }

  ghost predicate SaysUnique(opts: seq<Opt>, ttl: int) {
    (forall i :: IsLast(opts, i, UniqueKind) ==> ttl == opts[i].ttl) && (Unsaid(opts, UniqueKind) ==> ttl == 0)
  }

  ghost predicate SaysKeep(opts: seq<Opt>, keep: int) {
    && (forall i :: IsLast(opts, i, RetentionKind) ==> keep == if opts[i].keep <= 0 then 0 else if opts[i].keep < 1000 then 1000 else opts[i].keep)
    && (Unsaid(opts, RetentionKind) ==> keep == 0)
  }

  /** The last option of each kind holds, and the default where there is none. */
  ghost predicate Says(opts: seq<Opt>, now: int, o: Options) {
    && SaysQueue(opts, o.queue) && SaysId(opts, o.taskId) && SaysRetry(opts, o.maxRetry) && SaysStart(opts, now, o.processAt)
    && SaysUnique(opts, o.uniqueTtl) && SaysKeep(opts, o.retention) && (o.noArchive <==> !Unsaid(opts, DiscardKind))
    && (o.absolute <==> exists i :: 0 <= i < |opts| && opts[i].WithProcessAt?)
  }

  lemma LastAt(opts: seq<Opt>, last: Opt, i: int, kind: OptKind)
    ensures IsLast(opts + [last], i, kind) ==>
              if KindOf(last) == kind then (opts + [last])[i] == last else IsLast(opts, i, kind) && (opts + [last])[i] == opts[i]
  {
    var all := opts + [last];
    assert all[|opts|] == last;
    if IsLast(all, i, kind) && KindOf(last) != kind {
      forall k | i < k < |opts| ensures KindOf(opts[k]) != kind { assert all[k] == opts[k]; }
    }
  }

  /** One more option is the last of its kind, and changes nothing for the others. */
  lemma OneMore(opts: seq<Opt>, last: Opt, kind: OptKind)
    ensures forall i :: IsLast(opts + [last], i, kind) ==>
              if KindOf(last) == kind then (opts + [last])[i] == last else IsLast(opts, i, kind) && (opts + [last])[i] == opts[i]
    ensures Unsaid(opts + [last], kind) <==> Unsaid(opts, kind) && KindOf(last) != kind
  {
    var all := opts + [last];
    forall i | IsLast(all, i, kind)
      ensures if KindOf(last) == kind then all[i] == last else IsLast(opts, i, kind) && all[i] == opts[i]
    {
      LastAt(opts, last, i, kind);
    }
    assert all[|opts|] == last;
    if Unsaid(all, kind) {
      forall k | 0 <= k < |opts| ensures KindOf(opts[k]) != kind { assert all[k] == opts[k]; }
    }
  }

  lemma OneMoreStart(opts: seq<Opt>, last: Opt, now: int, o: Options)
    requires SaysStart(opts, now, o.processAt)
    ensures SaysStart(opts + [last], now, ApplyOpt(o, last, now).processAt)
  {
    OneMore(opts, last, TimeKind);
    var all, r := opts + [last], ApplyOpt(o, last, now);
    forall i | IsLast(all, i, TimeKind)
      ensures r.processAt.Some? && r.processAt.value == if all[i].WithProcessAt? then all[i].at else now + all[i].delay
    {
      if KindOf(last) != TimeKind { assert IsLast(opts, i, TimeKind); }
    }
  }

  lemma OneMoreValue(opts: seq<Opt>, last: Opt, now: int, o: Options)
    requires SaysRetry(opts, o.maxRetry) && SaysUnique(opts, o.uniqueTtl) && SaysKeep(opts, o.retention)
    ensures SaysRetry(opts + [last], ApplyOpt(o, last, now).maxRetry)
    ensures SaysUnique(opts + [last], ApplyOpt(o, last, now).uniqueTtl) && SaysKeep(opts + [last], ApplyOpt(o, last, now).retention)
  {
    var all, r := opts + [last], ApplyOpt(o, last, now);
    assert SaysRetry(all, r.maxRetry) by { OneMore(opts, last, RetryKind); }
    assert SaysUnique(all, r.uniqueTtl) by { OneMore(opts, last, UniqueKind); }
    assert SaysKeep(all, r.retention) by { OneMore(opts, last, RetentionKind); }
  }

  lemma OneMoreOption(opts: seq<Opt>, last: Opt, now: int, o: Options, all: seq<Opt>, r: Options)
    requires Says(opts, now, o) && all == opts + [last] && r == ApplyOpt(o, last, now)
    ensures Says(all, now, r)
  {
    assert SaysQueue(all, r.queue) by { OneMore(opts, last, QueueKind); }
    assert SaysId(all, r.taskId) by { OneMore(opts, last, IdKind); }
    OneMoreStart(opts, last, now, o);
    OneMoreValue(opts, last, now, o);
    assert r.noArchive <==> !Unsaid(all, DiscardKind) by { OneMore(opts, last, DiscardKind); }
    AbsoluteGrows(opts, last);
  }

  lemma AbsoluteGrows(opts: seq<Opt>, last: Opt)
    ensures (exists i :: 0 <= i < |opts + [last]| && (opts + [last])[i].WithProcessAt?) <==>
            last.WithProcessAt? || exists i :: 0 <= i < |opts| && opts[i].WithProcessAt?
  {
    var all := opts + [last];
    if i :| 0 <= i < |opts| && opts[i].WithProcessAt? { assert all[i].WithProcessAt?; }
    if last.WithProcessAt? { assert all[|opts|].WithProcessAt?; }
  }

  lemma NoOptions(now: int)
    ensures Says([], now, DEFAULTS)
  {
  }

  /** Folding the options in order gives the last of each kind. */
  lemma {:induction false} LastOptionWins(opts: seq<Opt>, now: int, o: Options)
    requires o == Folded(opts, now)
    ensures Says(opts, now, o)
  {
    if opts == [] {
      NoOptions(now);
    } else {
      var init, last := opts[..|opts| - 1], opts[|opts| - 1];
      assert opts == init + [last];
      LastOptionWins(init, now, Folded(init, now));
      OneMoreOption(init, last, now, Folded(init, now), opts, o);
    }
  }

  /** Inside a workflow neither the task ID nor uniqueness is the caller's to choose. */
  predicate Allowed(o: Options) { o.taskId == "" && o.uniqueTtl <= 0 }

  lemma {:induction false} SomeLast(opts: seq<Opt>, kind: OptKind)
    requires !Unsaid(opts, kind)
    ensures exists i :: IsLast(opts, i, kind)
  {
    var n := |opts| - 1;
    if KindOf(opts[n]) == kind {
      assert IsLast(opts, n, kind);
    } else {
      assert opts == opts[..n] + [opts[n]];
      OneMore(opts[..n], opts[n], kind);
      SomeLast(opts[..n], kind);
      var i :| IsLast(opts[..n], i, kind);
      assert IsLast(opts, i, kind);
    }
  }

  lemma AllowedSaid(opts: seq<Opt>, now: int)
    ensures Allowed(Folded(opts, now)) <==> Unsaid(opts, UniqueKind) && forall i :: IsLast(opts, i, IdKind) ==> opts[i].id == ""
  {
    LastOptionWins(opts, now, Folded(opts, now));
    if !Unsaid(opts, UniqueKind) { SomeLast(opts, UniqueKind); }
    if !Unsaid(opts, IdKind) { SomeLast(opts, IdKind); }
  }

  method ResolveChainOptions(opts: seq<Opt>, now: int) returns (r: Result<Options>)
    ensures r.Ok? <==> Allowed(Folded(opts, now))
    ensures r.Ok? <==> Unsaid(opts, UniqueKind) && forall i :: IsLast(opts, i, IdKind) ==> opts[i].id == ""
    ensures r.Ok? ==> r.value == Folded(opts, now)
  {
    AllowedSaid(opts, now);
    var o := DEFAULTS;
    for i := 0 to |opts|
      invariant o == Folded(opts[..i], now)
    {
      assert opts[..i + 1][..i] == opts[..i];
      o := ApplyOpt(o, opts[i], now);
    }
    assert opts[..|opts|] == opts;
    if o.taskId != "" { return Err(TaskIdInChain); }
    if o.uniqueTtl > 0 { return Err(UniqueInChain); }
    return Ok(o);
  }

  /** A delay in whole seconds, rounded to the nearest but never down to nothing. */
  function RelativeDelay(o: Options, now: int): (d: int)
    ensures d >= 0
    ensures d > 0 <==> o.processAt.Some? && o.processAt.value > now
    ensures o.processAt.Some? && o.processAt.value > now ==> -SECOND <= 2 * (d * SECOND - (o.processAt.value - now)) < 2 * SECOND
  {
    if o.processAt.None? || o.processAt.value <= now then 0
    else
      var d := (o.processAt.value - now + SECOND / 2) / SECOND;
      if d == 0 then 1 else d
  }

  // ----- what is accepted, and what it becomes -----

  predicate LinkAccepted(t: Task, isLast: bool, now: int) {
    var o := Folded(t.opts, now);
    Allowed(o) && !o.absolute && (o.noArchive ==> isLast) && t.args.payload.Some?
  }

  function LinkOf(t: Task, now: int): ChainLink
    requires t.args.payload.Some?
  {
    var o := Folded(t.opts, now);
    ChainLink(t.args.kind, t.args.payload.value, o.queue, o.maxRetry, o.noArchive, o.retention / SECOND, RelativeDelay(o, now), [])
  }

  predicate StageMemberAccepted(m: MemberSpec, now: int) {
    && m.Alone? && LinkAccepted(m.task, false, now)
    && RelativeDelay(Folded(m.task.opts, now), now) <= GROUP_TTL
  }

  function StageMemberOf(m: MemberSpec, now: int): GroupMemberLink
    requires m.Alone? && m.task.args.payload.Some?
  {
    var l := LinkOf(m.task, now);
    GroupMemberLink(l.kind, l.payload, l.queue, l.maxRetry, l.retention, l.delay)
  }

  predicate GroupStageAccepted(g: GroupSpec, isLast: bool, now: int) {
    && g.members != [] && g.callback.Some? && LinkAccepted(g.callback.value, isLast, now)
    && forall j :: 0 <= j < |g.members| ==> StageMemberAccepted(g.members[j], now)
  }

  predicate StageAccepted(st: StageSpec, isLast: bool, now: int) {
    match st
    case Single(t) => LinkAccepted(t, isLast, now)
    case Parallel(g) => g.Some? && GroupStageAccepted(g.value, isLast, now)
  }

  function StageOf(st: StageSpec, now: int): ChainLink
    requires StageAccepted(st, true, now)
  {
    match st
    case Single(t) => LinkOf(t, now)
    case Parallel(g) =>
      var members := g.value.members;
      LinkOf(g.value.callback.value, now)
        .(group := seq(|members|, j requires 0 <= j < |members| => StageMemberOf(members[j], now)))
  }

  ghost predicate TailAccepted(stages: seq<StageSpec>, now: int) {
    forall i :: 1 <= i < |stages| ==> StageAccepted(stages[i], i == |stages| - 1, now)
  }

  /** The first link may also be delayed to a fixed time. */
  predicate FirstAccepted(t: Task, mayDiscard: bool, now: int) {
    var o := Folded(t.opts, now);
    Allowed(o) && (o.noArchive ==> mayDiscard) && t.args.payload.Some?
  }

  ghost predicate ChainAccepted(stages: seq<StageSpec>, now: int) {
    && stages != [] && stages[0].Single? && TailAccepted(stages, now)
    && FirstAccepted(stages[0].task, |stages| == 1, now)
  }

  /** The built links: the first stage, and the tail the first message carries. */
  ghost predicate IsBuilt(stages: seq<StageSpec>, now: int, links: seq<ChainLink>) {
    && |links| == |stages| && stages != [] && stages[0].Single? && stages[0].task.args.payload.Some?
    && links[0] == LinkOf(stages[0].task, now)
    && forall i :: 1 <= i < |stages| ==> StageAccepted(stages[i], true, now) && links[i] == StageOf(stages[i], now)
  }

  // ----- what a built link says -----

  /** The link is the task as its options describe it: retention in whole seconds, and its delay the
      time until its start, rounded to the nearest second and never down to nothing. */
  ghost predicate Describes(l: ChainLink, t: Task, now: int) {
    && t.args.payload.Some? && l.kind == t.args.kind && l.payload == t.args.payload.value
    && exists o ::
         && Says(t.opts, now, o) && l.queue == o.queue && l.maxRetry == o.maxRetry && l.noArchive == o.noArchive && l.retention == o.retention / 1000
         && (l.delay > 0 <==> o.processAt.Some? && o.processAt.value > now) && l.delay >= 0
         && (l.delay > 0 ==> -1000 <= 2 * (l.delay * 1000 - (o.processAt.value - now)) < 2000)
  }

  ghost predicate DescribesMember(g: GroupMemberLink, t: Task, now: int) {
    Describes(ChainLink(g.kind, g.payload, g.queue, g.maxRetry, false, g.retention, g.delay, []), t, now)
  }

  lemma LinkDescribes(t: Task, now: int)
    requires t.args.payload.Some?
    ensures Describes(LinkOf(t, now), t, now) && LinkOf(t, now).group == []
  {
    LastOptionWins(t.opts, now, Folded(t.opts, now));
  }

  /** The link is the stage: the single task, or the callback with every member in order. */
  ghost predicate DescribesStage(l: ChainLink, st: StageSpec, now: int) {
    match st
    case Single(t) => Describes(l, t, now) && l.group == []
    case Parallel(g) =>
      && g.Some? && g.value.callback.Some? && Describes(l, g.value.callback.value, now) && |l.group| == |g.value.members|
      && forall j :: 0 <= j < |l.group| ==> g.value.members[j].Alone? && DescribesMember(l.group[j], g.value.members[j].task, now)
  }

  lemma StageDescribes(st: StageSpec, now: int)
    requires StageAccepted(st, true, now)
    ensures DescribesStage(StageOf(st, now), st, now)
  {
    if st.Single? {
      LinkDescribes(st.task, now);
    } else {
      var g := st.group.value;
      LinkDescribes(g.callback.value, now);
      assert SameDescription(LinkOf(g.callback.value, now), StageOf(st, now));
      forall j | 0 <= j < |g.members| ensures DescribesMember(StageOf(st, now).group[j], g.members[j].task, now) {
        assert StageMemberAccepted(g.members[j], now);
        LinkDescribes(g.members[j].task, now);
        LastOptionWins(g.members[j].task.opts, now, Folded(g.members[j].task.opts, now));
      }
    }
  }

  predicate SameDescription(l: ChainLink, k: ChainLink) { k.(group := l.group) == l }

  /** A built chain is the chain the client described, stage by stage. */
  lemma BuiltAsDescribed(stages: seq<StageSpec>, now: int, links: seq<ChainLink>)
    requires IsBuilt(stages, now, links)
    ensures |links| == |stages| && forall i :: 0 <= i < |stages| ==> DescribesStage(links[i], stages[i], now)
  {
    forall i | 0 <= i < |stages| ensures DescribesStage(links[i], stages[i], now) {
      if i == 0 { LinkDescribes(stages[0].task, now); } else { StageDescribes(stages[i], now); }
    }
  }

  // ----- snapshots -----

  method SnapshotChainLink(t: Task, isLast: bool, now: int) returns (r: Result<ChainLink>)
    ensures r.Ok? <==> LinkAccepted(t, isLast, now)
    ensures r.Ok? ==> r.value == LinkOf(t, now)
  {
    var resolved := ResolveChainOptions(t.opts, now);
    if resolved.Err? { return Err(resolved.error); }
    var o := resolved.value;
    if o.absolute { return Err(AbsoluteDelay); }
    if o.noArchive && !isLast { return Err(DiscardMidChain); }
    if t.args.payload.None? { return Err(BadArgs); }
    return Ok(ChainLink(t.args.kind, t.args.payload.value, o.queue, o.maxRetry, o.noArchive, o.retention / SECOND,
                        RelativeDelay(o, now), []));
  }

  method SnapshotGroupStage(g: Option<GroupSpec>, isLast: bool, now: int) returns (r: Result<ChainLink>)
    ensures r.Ok? <==> StageAccepted(Parallel(g), isLast, now)
    ensures r.Ok? ==> r.value == StageOf(Parallel(g), now)
  {
    if g.None? { return Err(NilGroup); }
    var members := g.value.members;
    if members == [] { return Err(NoMembers); }
    if g.value.callback.None? { return Err(NoCallback); }
    var link := SnapshotChainLink(g.value.callback.value, isLast, now);
    if link.Err? { return Err(link.error); }
    var group: seq<GroupMemberLink> := [];
    for j := 0 to |members|
      invariant |group| == j
      invariant forall i :: 0 <= i < j ==> StageMemberAccepted(members[i], now) && group[i] == StageMemberOf(members[i], now)
    {
      if members[j].Chained? { return Err(ChainMemberInStage); }
      var t := members[j].task;
      var resolved := ResolveChainOptions(t.opts, now);
      if resolved.Err? { return Err(resolved.error); }
      var o := resolved.value;
      if o.noArchive { return Err(DiscardMember); }
      if o.absolute { return Err(AbsoluteDelay); }
      if t.args.payload.None? { return Err(BadArgs); }
      var delay := RelativeDelay(o, now);
      if delay > GROUP_TTL { return Err(DelayBeyondTtl); }
      group := group + [GroupMemberLink(t.args.kind, t.args.payload.value, o.queue, o.maxRetry, o.retention / SECOND, delay)];
    }
    assert group == seq(|members|, j requires 0 <= j < |members| => StageMemberOf(members[j], now));
    return Ok(link.value.(group := group));
  }

  method SnapshotTail(stages: seq<StageSpec>, now: int) returns (r: Result<seq<ChainLink>>)
    requires stages != []
    ensures r.Ok? <==> TailAccepted(stages, now)
    ensures r.Ok? ==> |r.value| == |stages| - 1
    ensures r.Ok? ==> forall i :: 1 <= i < |stages| ==> StageAccepted(stages[i], true, now) && r.value[i - 1] == StageOf(stages[i], now)
  {
    var tail: seq<ChainLink> := [];
    for i := 1 to |stages|
      invariant |tail| == i - 1
      invariant forall k :: 1 <= k < i ==> StageAccepted(stages[k], k == |stages| - 1, now)
      invariant forall k :: 1 <= k < i ==> StageAccepted(stages[k], true, now) && tail[k - 1] == StageOf(stages[k], now)
    {
      var isLast := i == |stages| - 1;
      var link: Result<ChainLink>;
      if stages[i].Single? {
        link := SnapshotChainLink(stages[i].task, isLast, now);
      } else {
        link := SnapshotGroupStage(stages[i].group, isLast, now);
        assert stages[i] == Parallel(stages[i].group);
      }
      if link.Err? { return Err(link.error); }
      LastIsLaxer(stages[i], isLast, now);
      tail := tail + [link.value];
    }
    return Ok(tail);
  }

  lemma LastIsLaxer(st: StageSpec, isLast: bool, now: int)
    requires StageAccepted(st, isLast, now)
    ensures StageAccepted(st, true, now)
  {
  }

  // ----- messages -----

  /** Which script a built message goes through. */
  function Dispatch(msg: TaskMessage, o: Options, now: int): Op {
    var scheduled := o.processAt.Some? && o.processAt.value > now;
    var key := UniqueKey(msg.queue, msg.kind, msg.payload);
    if o.uniqueTtl > 0 && scheduled then
      ScheduleUnique(msg.(uniqueKey := Some(key)), key, o.processAt.value, o.uniqueTtl + (o.processAt.value - now))
    else if o.uniqueTtl > 0 then EnqueueUnique(msg.(uniqueKey := Some(key)), key, o.uniqueTtl)
    else if scheduled then Schedule(msg, o.processAt.value)
    else Enqueue(msg)
  }

  /** The operation starts the task now, or when its options say, if that is in the future. */
  ghost predicate StartsWhenSaid(op: Op, opts: seq<Opt>, now: int) {
    exists o :: Says(opts, now, o) &&
      if o.processAt.Some? && o.processAt.value > now then op.Schedule? && op.at == o.processAt.value else op.Enqueue?
  }

  lemma DispatchWhenSaid(msg: TaskMessage, opts: seq<Opt>, now: int)
    requires Allowed(Folded(opts, now))
    ensures StartsWhenSaid(Dispatch(msg, Folded(opts, now), now), opts, now)
  {
    LastOptionWins(opts, now, Folded(opts, now));
  }

  /** A task for later waits under its time and is on no stream; any other is on the stream once. */
  predicate Started(q: Queue, r: Queue, msg: TaskMessage, at: int) {
    && msg.id in r.hash && r.hash[msg.id].msg == Some(msg)
    && if at > q.now then r.hash[msg.id].state == Scheduled && (ZScheduled, msg.id) in r.zs && r.zs[(ZScheduled, msg.id)] == at && r.stream == q.stream
       else r.hash[msg.id].state == Pending && r.stream == q.stream[q.nextEntry := msg.id] && r.nextEntry == q.nextEntry + 1
  }

  function StartOf(o: Options, now: int): int {
    if o.processAt.Some? && o.processAt.value > now then o.processAt.value else now
  }

  lemma PlainSeen(q: Queue, msg: TaskMessage, o: Options, r: Queue)
    requires o.uniqueTtl <= 0 && r == Apply(q, Dispatch(msg, o, q.now))
    ensures Started(q, r, msg, StartOf(o, q.now)) && r.locks == q.locks
  {
  }

  lemma UniqueNowSeen(q: Queue, msg: TaskMessage, o: Options, key: UniqueKey, r: Queue)
    requires o.uniqueTtl > 0 && key == UniqueKey(msg.queue, msg.kind, msg.payload) && !Locked(q, key)
    requires r == Apply(q, Dispatch(msg, o, q.now)) && StartOf(o, q.now) == q.now
    ensures Started(q, r, msg.(uniqueKey := Some(key)), q.now) && r.locks == q.locks[key := Lock(msg.id, q.now + o.uniqueTtl)]
  {
  }

  lemma UniqueLaterSeen(q: Queue, msg: TaskMessage, o: Options, key: UniqueKey, r: Queue)
    requires o.uniqueTtl > 0 && key == UniqueKey(msg.queue, msg.kind, msg.payload) && !Locked(q, key)
    requires r == Apply(q, Dispatch(msg, o, q.now)) && StartOf(o, q.now) > q.now
    ensures Started(q, r, msg.(uniqueKey := Some(key)), StartOf(o, q.now))
    ensures r.locks == q.locks[key := Lock(msg.id, StartOf(o, q.now) + o.uniqueTtl)]
  {
  }

  /** A unique task whose lock is held changes nothing; any other starts at its time, and a unique one
      holds its lock until its ttl after that. */
  predicate Dispatched(q: Queue, r: Queue, msg: TaskMessage, key: UniqueKey, start: Option<int>, ttl: int) {
    if ttl > 0 && Locked(q, key) then r == q else
      var at := if start.Some? && start.value > q.now then start.value else q.now;
      && Started(q, r, if ttl > 0 then msg.(uniqueKey := Some(key)) else msg, at)
      && r.locks == if ttl > 0 then q.locks[key := Lock(msg.id, at + ttl)] else q.locks
  }

  lemma OptionsDispatched(q: Queue, msg: TaskMessage, o: Options, key: UniqueKey, r: Queue)
    requires key == UniqueKey(msg.queue, msg.kind, msg.payload) && r == Apply(q, Dispatch(msg, o, q.now))
    ensures Dispatched(q, r, msg, key, o.processAt, o.uniqueTtl)
  {
    if o.uniqueTtl <= 0 { PlainSeen(q, msg, o, r); }
    else if Locked(q, key) { HeldChangesNothing(q, msg, o, key, r); }
    else if StartOf(o, q.now) == q.now { UniqueNowSeen(q, msg, o, key, r); }
    else { UniqueLaterSeen(q, msg, o, key, r); }
  }

  lemma HeldChangesNothing(q: Queue, msg: TaskMessage, o: Options, key: UniqueKey, r: Queue)
    requires key == UniqueKey(msg.queue, msg.kind, msg.payload) && r == Apply(q, Dispatch(msg, o, q.now))
    requires o.uniqueTtl > 0 && Locked(q, key)
    ensures r == q
  {
  }

  /** What a client sees after its enqueue is what its options say. */
  lemma DispatchSeen(q: Queue, msg: TaskMessage, opts: seq<Opt>, key: UniqueKey, r: Queue)
    requires key == UniqueKey(msg.queue, msg.kind, msg.payload) && r == Apply(q, Dispatch(msg, Folded(opts, q.now), q.now))
    ensures exists start, ttl :: SaysStart(opts, q.now, start) && SaysUnique(opts, ttl) && Dispatched(q, r, msg, key, start, ttl)
  {
    var o := Folded(opts, q.now);
    LastOptionWins(opts, q.now, Folded(opts, q.now));
    OptionsDispatched(q, msg, o, key, r);
    assert SaysStart(opts, q.now, o.processAt) && SaysUnique(opts, o.uniqueTtl);
  }

  function FirstMessage(c: Id, links: seq<ChainLink>): TaskMessage
    requires links != []
  {
    var l := links[0];
    Plain(Indexed(c, 0), l.kind, l.payload, l.queue, l.maxRetry, l.noArchive, l.retention)
      .(chain := links[1..], chainId := Some(c), chainIndex := 0)
  }

  class Chain {
    var stages: seq<StageSpec>

    constructor ()
      ensures stages == []
    {
      stages := [];
    }

    method Then(t: Task)
      modifies this
      ensures stages == old(stages) + [Single(t)]
    {
      stages := stages + [Single(t)];
    }

    method ThenGroup(g: Option<GroupSpec>)
      modifies this
      ensures stages == old(stages) + [Parallel(g)]
    {
      stages := stages + [Parallel(g)];
    }

    /** The store operation that starts the chain under the fresh ID `u`. */
    method Enqueue(u: string, now: int) returns (r: Result<Op>, ghost links: seq<ChainLink>)
      ensures r.Ok? <==> ChainAccepted(stages, now)
      ensures r.Ok? ==> IsBuilt(stages, now, links) && IsEnqueueOf(r.value, FirstMessage(Root(u), links))
      ensures r.Ok? ==> StartsWhenSaid(r.value, stages[0].task.opts, now)
    {
      links := [];
      if stages == [] { return Err(EmptyChain), links; }
      if stages[0].Parallel? { return Err(GroupFirst), links; }
      var tail := SnapshotTail(stages, now);
      if tail.Err? { return Err(tail.error), links; }
      var first := stages[0].task;
      var resolved := ResolveChainOptions(first.opts, now);
      if resolved.Err? { return Err(resolved.error), links; }
      var o := resolved.value;
      if |stages| > 1 && o.noArchive { return Err(DiscardMidChain), links; }
      if first.args.payload.None? { return Err(BadArgs), links; }
      var msg := Plain(Indexed(Root(u), 0), first.args.kind, first.args.payload.value, o.queue, o.maxRetry, o.noArchive, o.retention / SECOND)
        .(chain := tail.value, chainId := Some(Root(u)), chainIndex := 0);
      links := [LinkOf(first, now)] + tail.value;
      assert links[1..] == tail.value;
      DispatchWhenSaid(msg, first.opts, now);
      return Ok(Dispatch(msg, o, now)), links;
    }
  }

  /** A built chain is a valid workflow. */
  lemma BuiltChainIsValid(stages: seq<StageSpec>, now: int, links: seq<ChainLink>)
    requires ChainAccepted(stages, now) && IsBuilt(stages, now, links)
    ensures ValidFlow(ChainFlow(links))
  {
    forall i | 0 <= i < |links| - 1 ensures !links[i].noArchive {
      if i > 0 { assert StageAccepted(stages[i], false, now); }
    }
  }

  /** A built chain's first message is the one the workflow machine launches. */
  lemma BuiltChainStarts(p: Plan, u: string, links: seq<ChainLink>)
    requires u in p.flows && p.flows[u] == ChainFlow(links) && links != [] && links[0].group == []
    ensures Birth(p, ChainStart(u)) == Some(FirstMessage(Root(u), links))
  {
    RootOfDerived(u, 0, 0);
  }

  // ----- groups -----

  ghost predicate MemberChainAccepted(stages: seq<StageSpec>, now: int) {
    && stages != [] && (forall i :: 0 <= i < |stages| ==> stages[i].Single?)
    && TailAccepted(stages, now) && FirstAccepted(stages[0].task, false, now)
    && (forall i :: 1 <= i < |stages| ==> !Folded(stages[i].task.opts, now).noArchive)
  }

  /** The sum the builder checks: the delays of all links, where a start in the past counts as a
      negative delay. */
  function DelaySum(first: Options, tail: seq<ChainLink>, now: int): int {
    if tail == [] then (if first.processAt.Some? then first.processAt.value - now else 0)
    else
      var l := tail[|tail| - 1];
      DelaySum(first, tail[..|tail| - 1], now) + if l.delay > 0 then l.delay * SECOND else 0
  }

  /** How far in the future the first link starts; negative for a time that has passed. */
  function Offset(first: Options, now: int): int {
    if first.processAt.Some? then first.processAt.value - now else 0
  }

  function TailDelay(tail: seq<ChainLink>): int {
    if tail == [] then 0
    else
      var l := tail[|tail| - 1];
      TailDelay(tail[..|tail| - 1]) + if l.delay > 0 then l.delay * SECOND else 0
  }

  /** How long the delays of a member chain keep its group waiting: a first link whose time has
      passed starts at once, and the others still wait. */
  function Wait(first: Options, tail: seq<ChainLink>, now: int): int {
    (if Offset(first, now) > 0 then Offset(first, now) else 0) + TailDelay(tail)
  }

  lemma {:induction false} SumSplits(first: Options, tail: seq<ChainLink>, now: int)
    ensures DelaySum(first, tail, now) == Offset(first, now) + TailDelay(tail) && TailDelay(tail) >= 0
  {
    if tail != [] { SumSplits(first, tail[..|tail| - 1], now); }
  }

  ghost predicate MemberAccepted(m: MemberSpec, now: int) {
    match m
    case Alone(t) =>
      var o := Folded(t.opts, now);
      FirstAccepted(t, false, now) && (o.processAt.Some? ==> o.processAt.value - now <= GROUP_TTL * SECOND)
    case Chained(ch) =>
      && ch.Some? && MemberChainAccepted(ch.value, now)
      && exists links :: IsBuilt(ch.value, now, links) && DelaySum(Folded(ch.value[0].task.opts, now), links[1..], now) <= GROUP_TTL * SECOND
  }

  /** The options of the member's first task. */
  function FirstOpts(m: MemberSpec): seq<Opt> {
    match m
    case Alone(t) => t.opts
    case Chained(ch) => if ch.Some? && ch.value != [] && ch.value[0].Single? then ch.value[0].task.opts else []
  }

  ghost predicate IsMember(m: MemberSpec, now: int, plan: MemberPlan) {
    match m
    case Alone(t) => t.args.payload.Some? && plan == Flat(LinkOf(t, now))
    case Chained(ch) => ch.Some? && plan.Seq? && IsBuilt(ch.value, now, plan.links)
  }

  ghost predicate GroupAccepted(g: GroupSpec, now: int) {
    && g.members != [] && g.callback.Some? && LinkAccepted(g.callback.value, true, now)
    && forall j :: 0 <= j < |g.members| ==> MemberAccepted(g.members[j], now)
  }

  ghost predicate IsGroup(g: GroupSpec, now: int, f: Workflow) {
    && f.GroupFlow? && |f.members| == |g.members|
    && g.callback.Some? && g.callback.value.args.payload.Some? && f.callback == LinkOf(g.callback.value, now)
    && forall j :: 0 <= j < |g.members| ==> IsMember(g.members[j], now, f.members[j])
  }

  function MemberStartMessage(u: string, f: Workflow, j: nat): TaskMessage
    requires f.GroupFlow? && j < |f.members| && (f.members[j].Seq? ==> f.members[j].links != [])
  {
    if f.members[j].Flat? then FlatMember(u, f, j)
    else Tagged(FirstMessage(Member(Root(u), j), f.members[j].links), u, f, j, Some(Member(Root(u), j)))
  }

  lemma BuiltIsUnique(stages: seq<StageSpec>, now: int, a: seq<ChainLink>, b: seq<ChainLink>)
    requires IsBuilt(stages, now, a) && IsBuilt(stages, now, b)
    ensures a == b
  {
    forall i | 0 <= i < |stages| ensures a[i] == b[i] {}
  }

  /** The first link of a member chain; rejects nesting and discarding links. */
  method SnapshotForMember(ch: Option<seq<StageSpec>>, now: int) returns (r: Result<seq<ChainLink>>)
    ensures r.Ok? <==> ch.Some? && MemberChainAccepted(ch.value, now)
    ensures r.Ok? ==> IsBuilt(ch.value, now, r.value)
  {
    if ch.None? { return Err(NilChain); }
    var stages := ch.value;
    if stages == [] { return Err(EmptyChain); }
    for i := 0 to |stages|
      invariant forall k :: 0 <= k < i ==> stages[k].Single?
    {
      if stages[i].Parallel? { return Err(NestedGroup); }
    }
    var tail := SnapshotTail(stages, now);
    if tail.Err? { return Err(tail.error); }
    var first := stages[0].task;
    var resolved := ResolveChainOptions(first.opts, now);
    if resolved.Err? { return Err(resolved.error); }
    if resolved.value.noArchive { return Err(DiscardMember); }
    for i := 0 to |tail.value|
      invariant forall k :: 1 <= k < i + 1 ==> !Folded(stages[k].task.opts, now).noArchive
    {
      assert tail.value[(i + 1) - 1] == StageOf(stages[i + 1], now);
      if tail.value[i].noArchive { return Err(DiscardMember); }
    }
    if first.args.payload.None? { return Err(BadArgs); }
    return Ok([LinkOf(first, now)] + tail.value);
  }

  /** The member's plan, and the options that start it. */
  ghost predicate IsSnapshot(m: MemberSpec, now: int, plan: MemberPlan, o: Options) {
    IsMember(m, now, plan) && Allowed(o) && o == Folded(FirstOpts(m), now)
  }

  /** The operation enqueues the member's first task, at the time its options say. */
  ghost predicate StartsMember(op: Op, u: string, f: Workflow, j: nat, m: MemberSpec, now: int)
    requires f.GroupFlow? && j < |f.members|
  {
    && (f.members[j].Seq? ==> f.members[j].links != []) && IsEnqueueOf(op, MemberStartMessage(u, f, j))
    && StartsWhenSaid(op, FirstOpts(m), now)
  }

  lemma MemberDispatched(op: Op, u: string, f: Workflow, j: nat, m: MemberSpec, o: Options, now: int)
    requires f.GroupFlow? && j < |f.members| && IsSnapshot(m, now, f.members[j], o)
    requires op == Dispatch(MemberStartMessage(u, f, j), o, now)
    ensures StartsMember(op, u, f, j, m, now)
  {
    DispatchWhenSaid(MemberStartMessage(u, f, j), FirstOpts(m), now);
  }

  class Group {
    var members: seq<MemberSpec>
    var callback: Option<Task>

    constructor ()
      ensures members == [] && callback == None
    {
      members, callback := [], None;
    }

    ghost function Spec(): GroupSpec
      reads this
    {
      GroupSpec(members, callback)
    }

    method Add(t: Task)
      modifies this
      ensures Spec() == old(Spec()).(members := old(members) + [Alone(t)])
    {
      members := members + [Alone(t)];
    }

    method AddChain(ch: Option<seq<StageSpec>>)
      modifies this
      ensures Spec() == old(Spec()).(members := old(members) + [Chained(ch)])
    {
      members := members + [Chained(ch)];
    }

    method OnComplete(t: Task)
      modifies this
      ensures Spec() == old(Spec()).(callback := Some(t))
    {
      callback := Some(t);
    }

    /** One member: its plan and how it is started. */
    method SnapshotMember(m: MemberSpec, now: int) returns (r: Result<(MemberPlan, Options)>)
      ensures r.Ok? <==> MemberAccepted(m, now)
      ensures r.Ok? ==> IsSnapshot(m, now, r.value.0, r.value.1)
    {
      if m.Chained? {
        var links := SnapshotForMember(m.chain, now);
        if links.Err? { return Err(links.error); }
        var all := links.value;
        var o := Folded(m.chain.value[0].task.opts, now);
        var sum := if o.processAt.Some? then o.processAt.value - now else 0;
        var tail := all[1..];
        for i := 0 to |tail|
          invariant sum == DelaySum(o, tail[..i], now)
        {
          assert tail[..i + 1][..i] == tail[..i];
          if tail[i].delay > 0 { sum := sum + tail[i].delay * SECOND; }
        }
        assert tail[..|tail|] == tail;
        if sum > GROUP_TTL * SECOND {
          forall other | IsBuilt(m.chain.value, now, other) ensures other == all { BuiltIsUnique(m.chain.value, now, other, all); }
          return Err(DelayBeyondTtl);
        }
        return Ok((Seq(all), o));
      }
      var resolved := ResolveChainOptions(m.task.opts, now);
      if resolved.Err? { return Err(resolved.error); }
      var o := resolved.value;
      if o.noArchive { return Err(DiscardMember); }
      if o.processAt.Some? && o.processAt.value - now > GROUP_TTL * SECOND { return Err(DelayBeyondTtl); }
      if m.task.args.payload.None? { return Err(BadArgs); }
      return Ok((Flat(LinkOf(m.task, now)), o));
    }

    /** Every member's plan and how it is started, or the first error. */
    method SnapshotMembers(now: int) returns (r: Result<(seq<MemberPlan>, seq<Options>)>)
      ensures r.Ok? <==> forall j :: 0 <= j < |members| ==> MemberAccepted(members[j], now)
      ensures r.Ok? ==> |r.value.0| == |r.value.1| == |members|
      ensures r.Ok? ==> forall j :: 0 <= j < |members| ==> IsSnapshot(members[j], now, r.value.0[j], r.value.1[j])
    {
      var plans: seq<MemberPlan> := [];
      var options: seq<Options> := [];
      for j := 0 to |members|
        invariant |plans| == |options| == j
        invariant forall i :: 0 <= i < j ==> MemberAccepted(members[i], now) && IsSnapshot(members[i], now, plans[i], options[i])
      {
        var m := SnapshotMember(members[j], now);
        if m.Err? { return Err(m.error); }
        plans, options := plans + [m.value.0], options + [m.value.1];
      }
      return Ok((plans, options));
    }

    /** The operations that start the members. */
    method StartMembers(u: string, f: Workflow, options: seq<Options>, now: int) returns (ops: seq<Op>)
      requires f.GroupFlow? && |f.members| == |options| == |members|
      requires forall j :: 0 <= j < |members| ==> IsSnapshot(members[j], now, f.members[j], options[j])
      ensures |ops| == |members|
      ensures forall j :: 0 <= j < |ops| ==> StartsMember(ops[j], u, f, j, members[j], now)
    {
      ops := [];
      for j := 0 to |members|
        invariant |ops| == j
        invariant forall i :: 0 <= i < j ==> StartsMember(ops[i], u, f, i, members[i], now)
      {
        assert IsSnapshot(members[j], now, f.members[j], options[j]);
        var op := Dispatch(MemberStartMessage(u, f, j), options[j], now);
        MemberDispatched(op, u, f, j, members[j], options[j], now);
        ops := ops + [op];
      }
    }

    /** Validate everything, then name the flow and the operations that start its members. */
    method Enqueue(u: string, now: int) returns (r: Result<(Workflow, seq<Op>)>)
      ensures r.Ok? <==> GroupAccepted(Spec(), now)
      ensures r.Ok? ==>
                var f, ops := r.value.0, r.value.1;
                && IsGroup(Spec(), now, f) && |ops| == |f.members|
                && forall j :: 0 <= j < |ops| ==> StartsMember(ops[j], u, f, j, members[j], now)
    {
      if members == [] { return Err(NoMembers); }
      if callback.None? { return Err(NoCallback); }
      var cb := SnapshotChainLink(callback.value, true, now);
      if cb.Err? { return Err(cb.error); }
      var snapshot := SnapshotMembers(now);
      if snapshot.Err? { return Err(snapshot.error); }
      var plans, options := snapshot.value.0, snapshot.value.1;
      var f := GroupFlow(plans, cb.value);
      var ops := StartMembers(u, f, options, now);
      return Ok((f, ops));
    }
  }

  lemma MemberIsValid(m: MemberSpec, now: int, plan: MemberPlan)
    requires MemberAccepted(m, now) && IsMember(m, now, plan)
    ensures ValidMember(plan)
  {
    if m.Chained? {
      forall i | 0 <= i < |plan.links| ensures plan.links[i].group == [] && !plan.links[i].noArchive {
        if i > 0 { assert m.chain.value[i].Single? && plan.links[i] == StageOf(m.chain.value[i], now); }
      }
    }
  }

  /** The tail of the member as built. */
  function TailOf(plan: MemberPlan): seq<ChainLink> {
    if plan.Seq? && plan.links != [] then plan.links[1..] else []
  }

  /** Exactly when the delays of an accepted member let it report before the SET expires: its start
      is not in the past, or its later delays fit on their own. */
  lemma AcceptedFitsTtl(m: MemberSpec, now: int, plan: MemberPlan)
    requires MemberAccepted(m, now) && IsMember(m, now, plan)
    ensures Wait(Folded(FirstOpts(m), now), TailOf(plan), now) <= GROUP_TTL * SECOND <==>
              Offset(Folded(FirstOpts(m), now), now) >= 0 || TailDelay(TailOf(plan)) <= GROUP_TTL * SECOND
    ensures m.Alone? ==> Wait(Folded(FirstOpts(m), now), TailOf(plan), now) <= GROUP_TTL * SECOND
  {
    SumSplits(Folded(FirstOpts(m), now), TailOf(plan), now);
    if m.Chained? {
      var links :| IsBuilt(m.chain.value, now, links) && DelaySum(Folded(m.chain.value[0].task.opts, now), links[1..], now) <= GROUP_TTL * SECOND;
      BuiltIsUnique(m.chain.value, now, links, plan.links);
    }
  }

  /** A member chain that starts a TTL ago and whose second link waits for two. */
  function PastStart(now: int): MemberSpec {
    var args := Args("a", Some([]));
    Chained(Some([Single(Task(args, [WithProcessAt(now - GROUP_TTL * SECOND)])),
                  Single(Task(args, [WithProcessIn(2 * GROUP_TTL * SECOND)]))]))
  }

  /** The builder accepts it, although its second link runs a whole TTL after the SET is gone. */
  lemma PastStartHidesDelay(now: int) returns (plan: MemberPlan)
    ensures MemberAccepted(PastStart(now), now) && IsMember(PastStart(now), now, plan)
    ensures Wait(Folded(FirstOpts(PastStart(now)), now), TailOf(plan), now) == 2 * GROUP_TTL * SECOND
  {
    var stages := PastStart(now).chain.value;
    var o0, o1 := Folded(stages[0].task.opts, now), Folded(stages[1].task.opts, now);
    OneOption(stages[0].task.opts[0], now);
    OneOption(stages[1].task.opts[0], now);
    assert RelativeDelay(o1, now) == 2 * GROUP_TTL;
    var links := [LinkOf(stages[0].task, now), LinkOf(stages[1].task, now)];
    assert IsBuilt(stages, now, links);
    var tail := links[1..];
    assert tail == [links[1]] && tail[..0] == [];
    assert TailDelay([]) == 0;
    assert TailDelay(tail) == 2 * GROUP_TTL * SECOND;
    SumSplits(o0, tail, now);
    plan := Seq(links);
  }

  lemma OneOption(opt: Opt, now: int)
    ensures Folded([opt], now) == ApplyOpt(DEFAULTS, opt, now)
  {
    assert [opt][..0] == [];
  }

  /** A built group is the group the client described, member by member. */
  lemma GroupAsDescribed(g: GroupSpec, now: int, f: Workflow, j: nat)
    requires IsGroup(g, now, f) && j < |g.members|
    ensures Describes(f.callback, g.callback.value, now)
    ensures g.members[j].Alone? ==> f.members[j].Flat? && Describes(f.members[j].link, g.members[j].task, now)
    ensures g.members[j].Chained? ==>
              && f.members[j].Seq? && g.members[j].chain.Some? && |f.members[j].links| == |g.members[j].chain.value|
              && forall i :: 0 <= i < |f.members[j].links| ==> DescribesStage(f.members[j].links[i], g.members[j].chain.value[i], now)
  {
    LinkDescribes(g.callback.value, now);
    if g.members[j].Alone? { LinkDescribes(g.members[j].task, now); } else { BuiltAsDescribed(g.members[j].chain.value, now, f.members[j].links); }
  }

  /** A built group is a valid workflow. */
  lemma BuiltGroupIsValid(g: GroupSpec, now: int, f: Workflow)
    requires GroupAccepted(g, now) && IsGroup(g, now, f)
    ensures ValidFlow(f)
  {
    forall j | 0 <= j < |f.members| ensures ValidMember(f.members[j]) { MemberIsValid(g.members[j], now, f.members[j]); }
  }

  /** The members of a built group start with the messages the workflow machine launches. */
  lemma BuiltGroupStarts(p: Plan, u: string, j: nat)
    requires u in p.flows && p.flows[u].GroupFlow? && ValidFlow(p.flows[u]) && j < |p.flows[u].members|
    ensures p.flows[u].members[j].Seq? ==> p.flows[u].members[j].links != []
    ensures Birth(p, MemberStart(p.flows[u], u, j)) == Some(MemberStartMessage(u, p.flows[u], j))
  {
    RootOfDerived(u, 0, j);
    assert ValidMember(p.flows[u].members[j]);
  }
}
