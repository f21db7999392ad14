/** A worker's `process` and its hand-off to a parallel stage, carried out without
    interruption: what the hand-off achieves, and that it is a walk of the workflow machine. */
module Stage {
  import opened Ids
  import opened Base
  import opened Store
  import opened GroupState
  import opened Flow
  import opened World
  import opened Shape
  import opened Continuity
  import opened Outcomes

  predicate Fenced(w: World, m: TaskMessage)
    requires HasNext(m)
  {
    Exists(w, m.chain[0].queue, Callback(StageId(m)))
  }

  predicate SlotPending(w: World, m: TaskMessage, j: nat)
    requires HasNext(m)
  {
    StageKey(m) in w.groups.pending && Member(StageId(m), j) in w.groups.pending[StageKey(m)]
  }

  function MemberBody(w: World, m: TaskMessage, j: nat): Option<Body>
    requires HasNext(m) && j < |m.chain[0].group|
  {
    BodyOf(w, m.chain[0].group[j].queue, Member(StageId(m), j))
  }

  /** A pending slot whose member will report itself: it is stored and not completed. */
  predicate WillReport(w: World, m: TaskMessage, j: nat)
    requires HasNext(m) && j < |m.chain[0].group|
  {
    SlotPending(w, m, j) ==> MemberBody(w, m, j).Some? && MemberBody(w, m, j).value.state != Completed
  }

  /** What is stored under a member's ID reports for that member, and a completed task has a
      message. */
  predicate MemberSound(w: World, m: TaskMessage, j: nat)
    requires HasNext(m) && j < |m.chain[0].group|
  {
    MemberBody(w, m, j).Some? ==>
      var b := MemberBody(w, m, j).value;
      && (b.state == Completed ==> b.msg.Some?)
      && (b.msg.Some? ==> CanReport(b.msg.value) && GroupKeyOf(b.msg.value) == StageKey(m) && SlotOf(b.msg.value) == Member(StageId(m), j))
  }

  ghost predicate Sound(w: World, m: TaskMessage)
    requires HasNext(m)
  {
    forall j :: 0 <= j < |m.chain[0].group| ==> MemberSound(w, m, j)
  }

  /** The members before `j` are taken care of, and whoever is not listed is not pending. */
  ghost predicate Handled(w: World, m: TaskMessage, j: nat, listed: Option<set<Id>>)
    requires HasNext(m) && j <= |m.chain[0].group|
  {
    && (Fenced(w, m) || forall i :: 0 <= i < j ==> WillReport(w, m, i))
    && (listed.Some? ==> forall i :: 0 <= i < |m.chain[0].group| && SlotPending(w, m, i) ==> Member(StageId(m), i) in listed.value)
  }

  /** Slots of this stage only leave. */
  ghost predicate OnlyLeave(w: World, v: World, m: TaskMessage)
    requires HasNext(m)
  {
    StageKey(m) in v.groups.pending ==>
      StageKey(m) in w.groups.pending && v.groups.pending[StageKey(m)] <= w.groups.pending[StageKey(m)]
  }

  // ----- creating a member -----

  lemma NewBody(w: World, msg: TaskMessage, delay: int, at: int, queue: string, id: Id)
    requires !Exists(w, msg.queue, msg.id)
    ensures var v := CreateTask(w, msg, delay, at);
            && v.groups == w.groups
            && BodyOf(v, queue, id) == if queue == msg.queue && id == msg.id
                 then Some(Body(Some(msg), if delay > 0 then Scheduled else Pending)) else BodyOf(w, queue, id)
  {
  }

  lemma MemberReports(m: TaskMessage, j: nat)
    requires HasNext(m) && j < |m.chain[0].group|
    ensures var msg := MemberMessage(m, j);
            && msg.id == Member(StageId(m), j) && msg.queue == m.chain[0].group[j].queue
            && CanReport(msg) && GroupKeyOf(msg) == StageKey(m) && SlotOf(msg) == Member(StageId(m), j)
  {
  }

  lemma CreateMember(w: World, m: TaskMessage, j: nat, listed: Option<set<Id>>, at: int)
    requires HasNext(m) && j < |m.chain[0].group| && Sound(w, m) && Handled(w, m, j, listed)
    requires !Exists(w, MemberMessage(m, j).queue, MemberMessage(m, j).id)
    ensures var v := CreateTask(w, MemberMessage(m, j), m.chain[0].group[j].delay, at);
            Sound(v, m) && Handled(v, m, j + 1, listed) && OnlyLeave(w, v, m)
  {
    var msg, delay := MemberMessage(m, j), m.chain[0].group[j].delay;
    var v := CreateTask(w, msg, delay, at);
    MemberReports(m, j);
    NewBody(w, msg, delay, at, m.chain[0].queue, Callback(StageId(m)));
    forall i | 0 <= i < |m.chain[0].group|
      ensures MemberSound(v, m, i) && (i <= j && !Fenced(w, m) ==> WillReport(v, m, i)) && (SlotPending(v, m, i) <==> SlotPending(w, m, i))
    {
      NewBody(w, msg, delay, at, m.chain[0].group[i].queue, Member(StageId(m), i));
      assert MemberSound(w, m, i);
      if i < j && !Fenced(w, m) { assert WillReport(w, m, i); }
    }
  }

  // ----- draining a completed member -----

  lemma ReportBody(w: World, stored: TaskMessage, at: int, queue: string, id: Id)
    requires CanReport(stored)
    requires queue != stored.groupQueue || id != Callback(stored.groupId.value)
    ensures BodyOf(ReportMember(w, stored, at), queue, id) == BodyOf(w, queue, id)
  {
    var cb := Callback(stored.groupId.value);
    var out := Report(w.groups, GroupKeyOf(stored), SlotOf(stored), stored.groupIndex, stored.groupSize, stored.result,
                      Exists(w, stored.groupCallback.value.queue, cb));
    var u := w.(groups := out.groups);
    if out.fires {
      NewBody(u, CallbackMessage(stored, out.collected), stored.groupCallback.value.delay, at, queue, id);
    }
  }

  lemma ReportSlots(w: World, stored: TaskMessage, at: int)
    requires CanReport(stored)
    ensures var v, key := ReportMember(w, stored, at), GroupKeyOf(stored);
            key in v.groups.pending ==> key in w.groups.pending && v.groups.pending[key] == w.groups.pending[key] - {SlotOf(stored)}
    ensures var cb := Callback(stored.groupId.value);
            Exists(w, stored.groupQueue, cb) ==> Exists(ReportMember(w, stored, at), stored.groupQueue, cb)
  {
    var cb := Callback(stored.groupId.value);
    var out := Report(w.groups, GroupKeyOf(stored), SlotOf(stored), stored.groupIndex, stored.groupSize, stored.result,
                      Exists(w, stored.groupCallback.value.queue, cb));
    ReportPending(w.groups, GroupKeyOf(stored), SlotOf(stored), stored.groupIndex, stored.groupSize, stored.result,
                  Exists(w, stored.groupCallback.value.queue, cb));
    var u := w.(groups := out.groups);
    if out.fires {
      NewBody(u, CallbackMessage(stored, out.collected), stored.groupCallback.value.delay, at, stored.groupQueue, cb);
    }
  }

  lemma DrainMember(w: World, m: TaskMessage, j: nat, listed: Option<set<Id>>, stored: TaskMessage, at: int)
    requires HasNext(m) && j < |m.chain[0].group| && Sound(w, m) && Handled(w, m, j, listed)
    requires CanReport(stored) && GroupKeyOf(stored) == StageKey(m) && SlotOf(stored) == Member(StageId(m), j)
    ensures var v := ReportMember(w, stored, at);
            Sound(v, m) && Handled(v, m, j + 1, listed) && OnlyLeave(w, v, m)
  {
    var v := ReportMember(w, stored, at);
    ReportSlots(w, stored, at);
    forall i | 0 <= i < |m.chain[0].group|
      ensures MemberSound(v, m, i) && (SlotPending(v, m, i) ==> SlotPending(w, m, i) && i != j)
      ensures i <= j && !Fenced(w, m) ==> WillReport(v, m, i)
    {
      ReportBody(w, stored, at, m.chain[0].group[i].queue, Member(StageId(m), i));
      assert MemberSound(w, m, i);
      if i < j && !Fenced(w, m) { assert WillReport(w, m, i); }
    }
  }

  lemma SkipMember(w: World, m: TaskMessage, j: nat, listed: Option<set<Id>>)
    requires HasNext(m) && j < |m.chain[0].group| && Handled(w, m, j, listed) && WillReport(w, m, j)
    ensures Handled(w, m, j + 1, listed)
  {
    if !Fenced(w, m) {
      forall i | 0 <= i < j + 1 ensures WillReport(w, m, i) {}
    }
  }

  // ----- the specification -----

  /** The store after a hand-off, and whether every call succeeded. */
  datatype Outcome = Outcome(w: World, ok: bool)

  /** Create one member, or drain it when it exists and is completed. A stored message that
      cannot report is an error. */
  function MemberStaged(w: World, m: TaskMessage, j: nat, at: int): Outcome
    requires HasNext(m) && j < |m.chain[0].group|
  {
    var member := MemberMessage(m, j);
    if !Exists(w, member.queue, member.id) then Outcome(CreateTask(w, member, m.chain[0].group[j].delay, at), true)
    else
      var body := QueueOf(w, member.queue).hash[member.id];
      if body.state != Completed || body.msg.None? then Outcome(w, true)
      else if !CanReport(body.msg.value) then Outcome(w, false)
      else Outcome(ReportMember(w, body.msg.value, at), true)
  }

  predicate Skipped(m: TaskMessage, j: nat, listed: Option<set<Id>>)
    requires HasNext(m)
  {
    listed.Some? && Member(StageId(m), j) !in listed.value
  }

  /** The members from `j` on, in order, up to the first error. */
  function MembersStaged(w: World, m: TaskMessage, j: nat, listed: Option<set<Id>>, at: int): Outcome
    requires HasNext(m) && j <= |m.chain[0].group|
    decreases |m.chain[0].group| - j
  {
    if j == |m.chain[0].group| then Outcome(w, true)
    else
      var o := if Skipped(m, j, listed) then Outcome(w, true) else MemberStaged(w, m, j, at);
      if o.ok then MembersStaged(o.w, m, j + 1, listed, at) else o
  }

  /** The stage SET, as it is before its members are staged. */
  function Opened(w: World, m: TaskMessage): World
    requires HasNext(m)
  {
    w.(groups := CreateIfAbsent(w.groups, StageKey(m), StageSlots(m), Fenced(w, m)))
  }

  function ListedBy(w: World, m: TaskMessage): Option<set<Id>>
    requires HasNext(m)
  {
    if StageKey(m) in w.groups.pending then Some(w.groups.pending[StageKey(m)]) else None
  }

  function StageStaged(w: World, m: TaskMessage, at: int): Outcome
    requires HasNext(m)
  {
    if Fenced(w, m) then Outcome(w, true) else MembersStaged(Opened(w, m), m, 0, ListedBy(w, m), at)
  }

  // ----- the calls -----

  class Hub {
    var w: World

    /** The whole stage in one go, nobody in between. */
    method EnqueueNextGroup(m: TaskMessage, at: int) returns (ok: bool)
      requires HasNext(m) && m.chain[0].group != []
      modifies this
      ensures Outcome(w, ok) == StageStaged(old(w), m, at)
      ensures Sound(old(w), m) ==> ok && StageReady(w, m) && (StageKey(m) in old(w).groups.pending ==> OnlyLeave(old(w), w, m))
      ensures LeftAlone(old(w), w, m)
    {
      var link, key, n := m.chain[0], StageKey(m), |m.chain[0].group|;
      if Sound(w, m) { StageHandsOver(w, m, at); }
      StageSparesDone(w, m, at);
      var cb := Exists(w, link.queue, Callback(StageId(m)));
      var found := Probe(w.groups, key, cb);
      w := w.(groups := CreateIfAbsent(w.groups, key, StageSlots(m), cb));
      if found == StageDone {
        assert w == old(w);
        return true;
      }
      var listed: Option<set<Id>> := None;
      if found == StageExists {
        listed := Some(if key in w.groups.pending then w.groups.pending[key] else {});
      }
      assert w == Opened(old(w), m) && listed == ListedBy(old(w), m);
      var j := 0;
      while j < n
        invariant j <= n
        invariant MembersStaged(w, m, j, listed, at) == StageStaged(old(w), m, at)
      {
        if !(listed.Some? && Member(StageId(m), j) !in listed.value) {
          var done := StageMember(m, j, at);
          if !done { return false; }
        }
        j := j + 1;
      }
      return true;
    }

    /** Route the outcome of one handler call: hand on or report before acknowledging, or
        retry, archive or discard. After a failed hand-off or report nothing is acknowledged. */
    method Process(entry: nat, msg: TaskMessage, ok: bool, result: Bytes, skip: bool, at: int)
      requires msg.chain != [] ==> msg.chainId.Some?
      modifies this
      ensures !ok ==> w == Missed(old(w), entry, msg, skip, at)
      ensures !ok ==> EndsAsFailure(old(w), w, entry, msg, skip, at)
      ensures !ok && (skip || msg.retried >= msg.maxRetry) ==> LockFreed(w, msg)
      ensures ok && msg.chain == [] && msg.groupId.None? ==>
                EndsAsSuccess(old(w), w, entry, WithResult(msg, result), at) && LockFreed(w, msg)
      ensures ok && msg.chain == [] && msg.groupId.Some? && !CanReport(msg) ==> w == old(w)
      ensures ok && msg.chain == [] && CanReport(msg) ==>
                w == Acked(ReportMember(old(w), WithResult(msg, result), at), entry, WithResult(msg, result), at)
      ensures ok && msg.chain == [] && msg.groupId.None? ==> w == Acked(old(w), entry, WithResult(msg, result), at)
      ensures ok && msg.chain != [] && msg.chain[0].group == [] ==>
                var m := WithResult(msg, result);
                w == Acked(CreateTask(old(w), NextMessage(m), m.chain[0].delay, at), entry, m.(chain := []), at)
      ensures ok && msg.chain != [] && msg.chain[0].group != [] ==>
                var m := WithResult(msg, result);
                var o := StageStaged(old(w), m, at);
                w == if o.ok then Acked(o.w, entry, m.(chain := []), at) else o.w
    {
      if !ok {
        Fail(entry, msg, skip, at);
        return;
      }
      var m := WithResult(msg, result);
      var hadSuccessor := m.chain != [];
      if hadSuccessor {
        if m.chain[0].group != [] {
          var staged := EnqueueNextGroup(m, at);
          if !staged { return; }
        } else {
          w := CreateTask(w, NextMessage(m), m.chain[0].delay, at);
        }
        m := m.(chain := []);
      }
      if m.groupId.Some? && !hadSuccessor {
        if !CanReport(m) { return; }
        w := ReportMember(w, m, at);
      }
      Acknowledge(entry, m, at);
    }

    /** Dead-letter the task, or have it retried. */
    method Fail(entry: nat, msg: TaskMessage, skip: bool, at: int)
      modifies this
      ensures w == Missed(old(w), entry, msg, skip, at)
      ensures EndsAsFailure(old(w), w, entry, msg, skip, at)
      ensures skip || msg.retried >= msg.maxRetry ==> LockFreed(w, msg)
    {
      MissedEnds(w, entry, msg, skip, at);
      if skip || msg.retried >= msg.maxRetry {
        DeadLetter(entry, msg, at);
      } else {
        w := Run(w, msg.queue, Move(entry, msg.(retried := msg.retried + 1), ZRetry, at));
      }
    }

    /** Keep the task for its retention, or drop it. */
    method Acknowledge(entry: nat, m: TaskMessage, at: int)
      modifies this
      ensures w == Acked(old(w), entry, m, at)
      ensures EndsAsSuccess(old(w), w, entry, m, at) && LockFreed(w, m)
    {
      AckedEnds(w, entry, m, at);
      w := Run(w, m.queue, if m.retention > 0 then Move(entry, m, ZCompleted, at + m.retention) else Finish(entry, m.id));
      Release(m);
    }

    /** Give up the unique lock, if the task has one. */
    method Release(m: TaskMessage)
      modifies this
      ensures w == Released(old(w), m)
    {
      if m.uniqueKey.Some? { w := Run(w, m.queue, ReleaseUnique(m.uniqueKey.value, m.id)); }
    }

    method DeadLetter(entry: nat, msg: TaskMessage, at: int)
      modifies this
      ensures w == Buried(old(w), entry, msg, at)
    {
      if msg.noArchive {
        w := Run(w, msg.queue, Finish(entry, msg.id));
      } else {
        w := Run(w, msg.queue, Move(entry, msg, ZArchived, at));
      }
      Release(msg);
    }

    method StageMember(m: TaskMessage, j: nat, at: int) returns (ok: bool)
      requires HasNext(m) && j < |m.chain[0].group|
      modifies this
      ensures Outcome(w, ok) == MemberStaged(old(w), m, j, at)
    {
      var member := MemberMessage(m, j);
      if !Exists(w, member.queue, member.id) {
        w := CreateTask(w, member, m.chain[0].group[j].delay, at);
        return true;
      }
      var body := QueueOf(w, member.queue).hash[member.id];
      if body.state != Completed { return true; }
      if body.msg.None? { return true; }
      if !CanReport(body.msg.value) { return false; }
      w := ReportMember(w, body.msg.value, at);
      return true;
    }
  }

  // ----- what the hand-off achieves -----

  /** Opening the stage registers all slots, or leaves those of a stage in flight alone. */
  lemma OpenStage(w: World, v: World, m: TaskMessage)
    requires HasNext(m) && m.chain[0].group != [] && Sound(w, m) && !Fenced(w, m)
    requires v == w.(groups := CreateIfAbsent(w.groups, StageKey(m), StageSlots(m), false))
    ensures Sound(v, m) && StageKey(m) in v.groups.pending
    ensures Handled(v, m, 0, None) && Handled(v, m, 0, Some(v.groups.pending[StageKey(m)]))
    ensures StageKey(m) in w.groups.pending ==> v.groups.pending == w.groups.pending
  {
    assert Member(StageId(m), 0) in StageSlots(m);
    forall j | 0 <= j < |m.chain[0].group| ensures MemberSound(v, m, j) { assert MemberSound(w, m, j); }
  }

  lemma MemberHandled(w: World, m: TaskMessage, j: nat, listed: Option<set<Id>>, at: int)
    requires HasNext(m) && j < |m.chain[0].group| && Sound(w, m) && Handled(w, m, j, listed)
    ensures var o := MemberStaged(w, m, j, at);
            o.ok && Sound(o.w, m) && Handled(o.w, m, j + 1, listed) && OnlyLeave(w, o.w, m)
  {
    var member := MemberMessage(m, j);
    MemberReports(m, j);
    assert MemberSound(w, m, j);
    if !Exists(w, member.queue, member.id) {
      CreateMember(w, m, j, listed, at);
    } else {
      var body := QueueOf(w, member.queue).hash[member.id];
      if body.state == Completed { DrainMember(w, m, j, listed, body.msg.value, at); } else { SkipMember(w, m, j, listed); }
    }
  }

  lemma LeaveOn(w: World, u: World, v: World, m: TaskMessage)
    requires HasNext(m) && OnlyLeave(w, u, m) && OnlyLeave(u, v, m)
    ensures OnlyLeave(w, v, m)
  {
  }

  /** The first member that is not skipped over, and the store the rest starts from. */
  lemma NextHandled(w: World, m: TaskMessage, j: nat, listed: Option<set<Id>>, at: int) returns (u: World)
    requires HasNext(m) && j < |m.chain[0].group| && Sound(w, m) && Handled(w, m, j, listed)
    ensures Sound(u, m) && Handled(u, m, j + 1, listed) && OnlyLeave(w, u, m)
    ensures MembersStaged(w, m, j, listed, at) == MembersStaged(u, m, j + 1, listed, at)
  {
    if Skipped(m, j, listed) {
      u := w;
      SkipMember(w, m, j, listed);
    } else {
      u := MemberStaged(w, m, j, at).w;
      MemberHandled(w, m, j, listed, at);
    }
  }

  /** The store is as it should be once the members before `j` are staged. */
  ghost predicate StagedTo(w: World, v: World, m: TaskMessage, j: nat, listed: Option<set<Id>>)
    requires HasNext(m) && j <= |m.chain[0].group|
  {
    Sound(v, m) && Handled(v, m, j, listed) && OnlyLeave(w, v, m)
  }

  lemma OneMoreStaged(w: World, u: World, m: TaskMessage, j: nat, listed: Option<set<Id>>, at: int) returns (v: World)
    requires HasNext(m) && j < |m.chain[0].group| && StagedTo(w, u, m, j, listed)
    ensures StagedTo(w, v, m, j + 1, listed)
    ensures MembersStaged(u, m, j, listed, at) == MembersStaged(v, m, j + 1, listed, at)
  {
    v := NextHandled(u, m, j, listed, at);
    LeaveOn(w, u, v, m);
  }

  lemma {:induction false} MembersHandled(w: World, u: World, m: TaskMessage, j: nat, listed: Option<set<Id>>, at: int) returns (v: World)
    requires HasNext(m) && j <= |m.chain[0].group| && StagedTo(w, u, m, j, listed)
    ensures StagedTo(w, v, m, |m.chain[0].group|, listed) && MembersStaged(u, m, j, listed, at) == Outcome(v, true)
    decreases |m.chain[0].group| - j
  {
    if j == |m.chain[0].group| {
      v := u;
    } else {
      v := OneMoreStaged(w, u, m, j, listed, at);
      v := MembersHandled(w, v, m, j + 1, listed, at);
    }
  }

  /** On a sound store the hand-off succeeds, and then the stage is over or every member that is
      pending is stored and will report itself. */
  lemma StageHandsOver(w: World, m: TaskMessage, at: int)
    requires HasNext(m) && m.chain[0].group != [] && Sound(w, m)
    ensures var o := StageStaged(w, m, at);
            o.ok && StageReady(o.w, m) && (StageKey(m) in w.groups.pending ==> OnlyLeave(w, o.w, m))
  {
    if !Fenced(w, m) {
      OpenStage(w, Opened(w, m), m);
      var v := MembersHandled(Opened(w, m), Opened(w, m), m, 0, ListedBy(w, m), at);
    }
  }

  /** Members that had already left the SET of a stage in flight are neither created again nor
      touched, and a fenced stage is not touched at all. */
  ghost predicate LeftAlone(w: World, v: World, m: TaskMessage)
    requires HasNext(m)
  {
    && (Fenced(w, m) ==> v == w)
    && (StageKey(m) in w.groups.pending ==>
          forall j :: 0 <= j < |m.chain[0].group| && Member(StageId(m), j) !in w.groups.pending[StageKey(m)] ==>
            MemberBody(v, m, j) == MemberBody(w, m, j))
  }

  lemma MemberSparesOthers(w: World, m: TaskMessage, j: nat, at: int, i: nat)
    requires HasNext(m) && j < |m.chain[0].group| && i < |m.chain[0].group| && i != j
    ensures MemberBody(MemberStaged(w, m, j, at).w, m, i) == MemberBody(w, m, i)
  {
    var member, queue, id := MemberMessage(m, j), m.chain[0].group[i].queue, Member(StageId(m), i);
    if !Exists(w, member.queue, member.id) {
      NewBody(w, member, m.chain[0].group[j].delay, at, queue, id);
    } else {
      var body := QueueOf(w, member.queue).hash[member.id];
      if body.state == Completed && body.msg.Some? && CanReport(body.msg.value) { ReportBody(w, body.msg.value, at, queue, id); }
    }
  }

  lemma {:induction false} MembersSpareSkipped(w: World, m: TaskMessage, j: nat, listed: Option<set<Id>>, at: int, i: nat)
    requires HasNext(m) && j <= |m.chain[0].group| && i < |m.chain[0].group| && Skipped(m, i, listed)
    ensures MemberBody(MembersStaged(w, m, j, listed, at).w, m, i) == MemberBody(w, m, i)
    decreases |m.chain[0].group| - j
  {
    if j < |m.chain[0].group| {
      var o := if Skipped(m, j, listed) then Outcome(w, true) else MemberStaged(w, m, j, at);
      if j != i && !Skipped(m, j, listed) { MemberSparesOthers(w, m, j, at, i); }
      if o.ok { MembersSpareSkipped(o.w, m, j + 1, listed, at, i); }
    }
  }

  lemma StageSparesDone(w: World, m: TaskMessage, at: int)
    requires HasNext(m)
    ensures LeftAlone(w, StageStaged(w, m, at).w, m)
  {
    var v := StageStaged(w, m, at).w;
    if !Fenced(w, m) && StageKey(m) in w.groups.pending {
      forall j | 0 <= j < |m.chain[0].group| && Member(StageId(m), j) !in w.groups.pending[StageKey(m)]
        ensures MemberBody(v, m, j) == MemberBody(w, m, j)
      {
        MembersSpareSkipped(Opened(w, m), m, 0, ListedBy(w, m), at, j);
        assert MemberBody(Opened(w, m), m, j) == MemberBody(w, m, j);
      }
    }
  }

  /** What is stored under a stage's member IDs is sound, for every message in shape. */
  lemma ShapedIsSound(p: Plan, w: World, m: TaskMessage)
    requires ValidPlan(p) && QueuesShaped(p, w.queues) && Staged(p, m)
    ensures HasNext(m) && Sound(w, m)
  {
    NextNewborn(p, m);
    forall j | 0 <= j < |m.chain[0].group| ensures MemberSound(w, m, j) {
      if MemberBody(w, m, j).Some? { StoredIsSound(p, w, m, j); }
    }
  }

  lemma StoredIsSound(p: Plan, w: World, m: TaskMessage, j: nat)
    requires ValidPlan(p) && QueuesShaped(p, w.queues) && Staged(p, m) && HasNext(m) && j < |m.chain[0].group|
    requires MemberBody(w, m, j).Some?
    ensures MemberSound(w, m, j)
  {
    NextNewborn(p, m);
    var member := MemberMessage(m, j);
    assert Newborn(p, member);
    BirthRoot(p, member.id);
    MemberReports(m, j);
    var body := w.queues[member.queue].hash[member.id];
    assert BodyShaped(p, member.queue, member.id, body);
    if body.msg.Some? {
      SameBirth(p, member);
      SameBirth(p, body.msg.value);
    }
  }

  /** In every run: a worker that succeeded before a parallel stage and is not interrupted hands
      everything over. */
  lemma HandsOverInEveryRun(p: Plan, ws: seq<World>, es: seq<Event>, k: nat, wid: nat, at: int)
    requires ValidPlan(p) && IsRun(p, ws, es) && k < |ws| && wid in ws[k].workers && ws[k].workers[wid].phase.Succeeded?
    requires ws[k].workers[wid].msg.chain != [] && ws[k].workers[wid].msg.chain[0].group != []
    ensures var m := ws[k].workers[wid].msg;
            HasNext(m) && StageStaged(ws[k], m, at).ok && StageReady(StageStaged(ws[k], m, at).w, m)
  {
    AlwaysShaped(p, ws, es, k);
    assert WorkerShaped(p, ws[k].workers[wid]);
    ShapedIsSound(p, ws[k], ws[k].workers[wid].msg);
    StageHandsOver(ws[k], ws[k].workers[wid].msg, at);
  }

  // ----- the worker as a whole -----

  /** The stage was handed everything it needs. */
  ghost predicate StageReady(w: World, m: TaskMessage) {
    HasNext(m) && (Fenced(w, m) || forall j :: 0 <= j < |m.chain[0].group| ==> WillReport(w, m, j))
  }

  function Released(w: World, m: TaskMessage): World {
    if m.uniqueKey.Some? then Run(w, m.queue, ReleaseUnique(m.uniqueKey.value, m.id)) else w
  }

  function Acked(w: World, entry: nat, m: TaskMessage, at: int): World {
    Released(Run(w, m.queue, if m.retention > 0 then Move(entry, m, ZCompleted, at + m.retention) else Finish(entry, m.id)), m)
  }

  function Buried(w: World, entry: nat, m: TaskMessage, at: int): World {
    Released(Run(w, m.queue, if m.noArchive then Finish(entry, m.id) else Move(entry, m, ZArchived, at)), m)
  }

  function Missed(w: World, entry: nat, m: TaskMessage, skip: bool, at: int): World {
    if !skip && m.retried < m.maxRetry then Run(w, m.queue, Move(entry, m.(retried := m.retried + 1), ZRetry, at))
    else Buried(w, entry, m, at)
  }

  /** The task holds no lock any more. */
  predicate LockFreed(w: World, m: TaskMessage) {
    m.uniqueKey.Some? ==>
      var q := QueueOf(w, m.queue);
      Locked(q, m.uniqueKey.value) ==> q.locks[m.uniqueKey.value].holder != m.id
  }

  lemma ReleaseKeepsTasks(w: World, u: World, m: TaskMessage, entry: nat, body: Option<Body>, place: Option<(ZSet, int)>)
    requires EndsIn(w, u, m.queue, entry, m.id, body, place)
    ensures EndsIn(w, Released(u, m), m.queue, entry, m.id, body, place) && LockFreed(Released(u, m), m)
  {
    var v := Released(u, m);
    forall i ensures BodyOf(v, m.queue, i) == BodyOf(u, m.queue, i) {}
    forall e ensures EntryAt(v, m.queue, e) == EntryAt(u, m.queue, e) {}
    forall z, i ensures ScoreOf(v, m.queue, z, i) == ScoreOf(u, m.queue, z, i) {}
    forall n | n != m.queue ensures QueueOf(v, n) == QueueOf(u, n) {}
  }

  lemma BuriedEnds(w: World, entry: nat, m: TaskMessage, at: int)
    ensures var v := Buried(w, entry, m, at);
            && LockFreed(v, m)
            && if m.noArchive then EndsIn(w, v, m.queue, entry, m.id, None, None)
               else EndsIn(w, v, m.queue, entry, m.id, Some(Body(Some(m), Archived)), Some((ZArchived, at)))
  {
    if m.noArchive {
      var u := Run(w, m.queue, Finish(entry, m.id));
      FinishEnds(w, entry, m.queue, m.id, u);
      ReleaseKeepsTasks(w, u, m, entry, None, None);
    } else {
      var u := Run(w, m.queue, Move(entry, m, ZArchived, at));
      MoveEnds(w, entry, m, ZArchived, at, u);
      ReleaseKeepsTasks(w, u, m, entry, Some(Body(Some(m), Archived)), Some((ZArchived, at)));
    }
  }

  lemma MissedEnds(w: World, entry: nat, m: TaskMessage, skip: bool, at: int)
    ensures EndsAsFailure(w, Missed(w, entry, m, skip, at), entry, m, skip, at)
    ensures skip || m.retried >= m.maxRetry ==> LockFreed(Missed(w, entry, m, skip, at), m)
  {
    BuriedEnds(w, entry, m, at);
    var r := m.(retried := m.retried + 1);
    MoveEnds(w, entry, r, ZRetry, at, Run(w, m.queue, Move(entry, r, ZRetry, at)));
  }

  /** An acknowledged success is kept for its retention, or gone, and its lock is free. */
  lemma AckedEnds(w: World, entry: nat, m: TaskMessage, at: int)
    ensures EndsAsSuccess(w, Acked(w, entry, m, at), entry, m, at) && LockFreed(Acked(w, entry, m, at), m)
  {
    if m.retention > 0 {
      var u := Run(w, m.queue, Move(entry, m, ZCompleted, at + m.retention));
      MoveEnds(w, entry, m, ZCompleted, at + m.retention, u);
      ReleaseKeepsTasks(w, u, m, entry, Some(Body(Some(m), Completed)), Some((ZCompleted, at + m.retention)));
    } else {
      var u := Run(w, m.queue, Finish(entry, m.id));
      FinishEnds(w, entry, m.queue, m.id, u);
      ReleaseKeepsTasks(w, u, m, entry, None, None);
    }
  }

  /** `Process` is the machine's worker with nobody in between, apart from unique locks: a failure is
      its retirement. */
  lemma MissedIsRetired(w: World, wid: nat, at: int)
    requires wid in w.workers && w.workers[wid].phase.Failed?
    ensures var x, r := w.workers[wid], RetireWorker(w, wid, at);
            SameKeys(if x.phase.skip || x.msg.retried >= x.msg.maxRetry then Released(r, x.msg) else r,
                     Missed(w, x.entry, x.msg, x.phase.skip, at))
  {
  }

  lemma FinishIsAck(v: World, u: World, wid: nat, at: int)
    requires wid in v.workers && SameKeys(v, u)
    ensures SameKeys(Released(FinishWorker(v, wid, at), v.workers[wid].msg), Acked(u, v.workers[wid].entry, v.workers[wid].msg, at))
  {
  }

  /** Tasks of workflows have no lock to give up. */
  lemma NoLockInWorkflows(p: Plan, w: World, m: TaskMessage)
    requires Shaped(p, m)
    ensures Released(w, m) == w
  {
    match m.id {
      case Indexed(Root(u), k) => RootOfDerived(u, k, 0);
      case Callback(Indexed(Root(u), k)) => RootOfDerived(u, k, 0);
      case Member(Indexed(Root(u), k), j) => RootOfDerived(u, k, j);
      case Member(Root(u), j) => RootOfDerived(u, 0, j);
      case Indexed(Member(Root(u), j), i) => RootOfDerived(u, i, j);
      case Callback(Root(u)) => RootOfDerived(u, 0, 0);
      case _ =>
    }
  }

  lemma ReportAdvance(w: World, wid: nat, at: int)
    requires wid in w.workers && w.workers[wid].phase.Succeeded? && w.workers[wid].msg.chain == [] && CanReport(w.workers[wid].msg)
    ensures var x, v := w.workers[wid], AdvanceWorker(w, wid, at);
            && SameKeys(v, ReportMember(w, x.msg, at))
            && wid in v.workers && v.workers[wid] == x.(phase := Phase.Reported)
  {
  }

  lemma LinkAdvance(w: World, wid: nat, at: int)
    requires wid in w.workers && w.workers[wid].phase.Succeeded? && HasNext(w.workers[wid].msg)
    requires w.workers[wid].msg.chain[0].group == []
    ensures var x, v := w.workers[wid], AdvanceWorker(w, wid, at);
            && SameKeys(v, CreateTask(w, NextMessage(x.msg), x.msg.chain[0].delay, at))
            && wid in v.workers && v.workers[wid] == x.(msg := x.msg.(chain := []), phase := HandedOff)
  {
  }

  /** A success that reports, or hands on to a single link, is one advance and the finish. */
  lemma AckedIsFinished(w: World, wid: nat, at: int)
    requires wid in w.workers && w.workers[wid].phase.Succeeded? && CanAdvance(w, w.workers[wid])
    requires w.workers[wid].msg.chain != [] ==> w.workers[wid].msg.chain[0].group == []
    ensures var x, v := w.workers[wid], AdvanceWorker(w, wid, at);
            && wid in v.workers && CanFinish(v.workers[wid])
            && SameKeys(Released(FinishWorker(v, wid, at), x.msg),
                        if x.msg.chain == [] then Acked(ReportMember(w, x.msg, at), x.entry, x.msg, at)
                        else Acked(CreateTask(w, NextMessage(x.msg), x.msg.chain[0].delay, at), x.entry, x.msg.(chain := []), at))
  {
    var m, v := w.workers[wid].msg, AdvanceWorker(w, wid, at);
    if m.chain == [] {
      ReportAdvance(w, wid, at);
      FinishIsAck(v, ReportMember(w, m, at), wid, at);
    } else {
      LinkAdvance(w, wid, at);
      FinishIsAck(v, CreateTask(w, NextMessage(m), m.chain[0].delay, at), wid, at);
    }
  }

  // ----- the hand-off is a walk of the machine -----

  /** The state `n` steps further. */
  ghost predicate Reaches<T(!new)>(next: T -> Option<T>, a: T, b: T, n: nat)
    decreases n
  {
    if n == 0 then b == a else next(a).Some? && Reaches(next, next(a).value, b, n - 1)
  }

  lemma {:induction false} ReachesOn<T(!new)>(next: T -> Option<T>, a: T, b: T, c: T, n: nat, k: nat)
    requires Reaches(next, a, b, n) && Reaches(next, b, c, k)
    ensures Reaches(next, a, c, n + k)
    decreases n
  {
    if n > 0 { ReachesOn(next, next(a).value, b, c, n - 1, k); }
  }

  /** The next step of one worker, nobody else moving. */
  function Advancing(wid: nat, at: int): World -> Option<World> {
    (w: World) => if wid in w.workers && CanAdvance(w, w.workers[wid]) then Some(AdvanceWorker(w, wid, at)) else None
  }

  /** `n` steps of the worker and of nobody else. */
  ghost predicate Walks(w: World, v: World, wid: nat, at: int, n: nat) {
    Reaches(Advancing(wid, at), w, v, n)
  }

  lemma WalksOn(w: World, u: World, v: World, wid: nat, at: int, n: nat, k: nat)
    requires Walks(w, u, wid, at, n) && Walks(u, v, wid, at, k)
    ensures Walks(w, v, wid, at, n + k)
  {
    ReachesOn(Advancing(wid, at), w, u, v, n, k);
  }

  ghost predicate InPhase(w: World, wid: nat, entry: nat, m: TaskMessage, ph: Phase) {
    wid in w.workers && w.workers[wid] == Worker(entry, m, ph)
  }

  lemma PhaseWalk(w: World, wid: nat, at: int, v: World)
    requires wid in w.workers && CanAdvance(w, w.workers[wid]) && v == AdvanceWorker(w, wid, at)
    ensures Walks(w, v, wid, at, 1)
  {
    assert Reaches(Advancing(wid, at), v, v, 0);
  }

  lemma SkipWalk(w: World, wid: nat, entry: nat, m: TaskMessage, j: nat, listed: Option<set<Id>>, at: int) returns (v: World)
    requires HasNext(m) && j < |m.chain[0].group| && InPhase(w, wid, entry, m, Staging(j, listed)) && Skipped(m, j, listed)
    ensures Walks(w, v, wid, at, 1) && InPhase(v, wid, entry, m, Staging(j + 1, listed)) && SameKeys(v, w)
  {
    v := AdvanceWorker(w, wid, at);
    PhaseWalk(w, wid, at, v);
  }

  lemma CreateWalk(w: World, wid: nat, entry: nat, m: TaskMessage, j: nat, listed: Option<set<Id>>, at: int) returns (v: World)
    requires HasNext(m) && j < |m.chain[0].group| && InPhase(w, wid, entry, m, Staging(j, listed)) && !Skipped(m, j, listed)
    ensures Walks(w, v, wid, at, 1)
    ensures var there := MemberBody(w, m, j).Some?;
            && InPhase(v, wid, entry, m, if there then Draining(j, listed) else Staging(j + 1, listed))
            && SameKeys(v, if there then w else CreateTask(w, MemberMessage(m, j), m.chain[0].group[j].delay, at))
  {
    v := AdvanceWorker(w, wid, at);
    PhaseWalk(w, wid, at, v);
    MemberReports(m, j);
    var member := MemberMessage(m, j);
    if Exists(w, member.queue, member.id) { CreateAgain(w, member, m.chain[0].group[j].delay, at); }
  }

  lemma CreateAgain(w: World, msg: TaskMessage, delay: int, at: int)
    requires Exists(w, msg.queue, msg.id)
    ensures SameKeys(CreateTask(w, msg, delay, at), w)
  {
  }

  lemma DrainWalk(w: World, wid: nat, entry: nat, m: TaskMessage, j: nat, listed: Option<set<Id>>, at: int) returns (v: World)
    requires HasNext(m) && j < |m.chain[0].group| && InPhase(w, wid, entry, m, Draining(j, listed)) && MemberBody(w, m, j).Some?
    ensures Walks(w, v, wid, at, 1) && SameKeys(v, w)
    ensures InPhase(v, wid, entry, m, if MemberBody(w, m, j).value.state == Completed then DrainReading(j, listed) else Staging(j + 1, listed))
  {
    MemberReports(m, j);
    v := AdvanceWorker(w, wid, at);
    PhaseWalk(w, wid, at, v);
  }

  lemma ReadWalk(w: World, wid: nat, entry: nat, m: TaskMessage, j: nat, listed: Option<set<Id>>, at: int) returns (v: World)
    requires HasNext(m) && j < |m.chain[0].group| && InPhase(w, wid, entry, m, DrainReading(j, listed)) && MemberBody(w, m, j).Some?
    ensures Walks(w, v, wid, at, 1) && SameKeys(v, w)
    ensures var stored := MemberBody(w, m, j).value.msg;
            InPhase(v, wid, entry, m, if stored.Some? then DrainReporting(j, listed, stored.value) else Staging(j + 1, listed))
  {
    MemberReports(m, j);
    v := AdvanceWorker(w, wid, at);
    PhaseWalk(w, wid, at, v);
  }

  lemma ReportWalk(w: World, wid: nat, entry: nat, m: TaskMessage, j: nat, listed: Option<set<Id>>, stored: TaskMessage, at: int) returns (v: World)
    requires InPhase(w, wid, entry, m, DrainReporting(j, listed, stored)) && CanReport(stored)
    ensures Walks(w, v, wid, at, 1) && SameKeys(v, ReportMember(w, stored, at)) && InPhase(v, wid, entry, m, Staging(j + 1, listed))
  {
    DrainReportIs(w, wid, at);
    ReportMemberFrame(w, stored, at);
    v := AdvanceWorker(w, wid, at);
    PhaseWalk(w, wid, at, v);
  }

  /** One member, in one to four steps. */
  lemma MemberWalk(w: World, wid: nat, entry: nat, m: TaskMessage, j: nat, listed: Option<set<Id>>, at: int) returns (v: World, n: nat)
    requires HasNext(m) && j < |m.chain[0].group| && InPhase(w, wid, entry, m, Staging(j, listed)) && !Skipped(m, j, listed)
    requires MemberStaged(w, m, j, at).ok
    ensures Walks(w, v, wid, at, n) && SameKeys(v, MemberStaged(w, m, j, at).w) && InPhase(v, wid, entry, m, Staging(j + 1, listed))
  {
    MemberReports(m, j);
    v := CreateWalk(w, wid, entry, m, j, listed, at);
    n := 1;
    if MemberBody(w, m, j).Some? {
      var u := DrainWalk(v, wid, entry, m, j, listed, at);
      WalksOn(w, v, u, wid, at, 1, 1);
      v, n := u, 2;
      if MemberBody(w, m, j).value.state == Completed { v, n := CompletedWalk(w, u, wid, entry, m, j, listed, at); }
    }
  }

  lemma CompletedWalk(w: World, u: World, wid: nat, entry: nat, m: TaskMessage, j: nat, listed: Option<set<Id>>, at: int) returns (v: World, n: nat)
    requires HasNext(m) && j < |m.chain[0].group| && MemberBody(w, m, j).Some? && MemberBody(w, m, j).value.state == Completed
    requires wid in w.workers && Walks(w, u, wid, at, 2) && SameKeys(u, w) && InPhase(u, wid, entry, m, DrainReading(j, listed))
    requires MemberStaged(w, m, j, at).ok
    ensures Walks(w, v, wid, at, n) && SameKeys(v, MemberStaged(w, m, j, at).w) && InPhase(v, wid, entry, m, Staging(j + 1, listed))
  {
    MemberReports(m, j);
    v := ReadWalk(u, wid, entry, m, j, listed, at);
    WalksOn(w, u, v, wid, at, 2, 1);
    n := 3;
    var stored := MemberBody(w, m, j).value.msg;
    if stored.Some? {
      var x := ReportWalk(v, wid, entry, m, j, listed, stored.value, at);
      WalksOn(w, v, x, wid, at, 3, 1);
      SameReport(v, w, stored.value, at);
      v, n := x, 4;
    }
  }

  lemma SameMembers(w: World, u: World, m: TaskMessage, j: nat, at: int)
    requires HasNext(m) && j < |m.chain[0].group| && SameKeys(w, u)
    ensures MemberStaged(w, m, j, at).ok == MemberStaged(u, m, j, at).ok && SameKeys(MemberStaged(w, m, j, at).w, MemberStaged(u, m, j, at).w)
  {
    var member := MemberMessage(m, j);
    if !Exists(w, member.queue, member.id) {
      SameCreate(w, u, member, m.chain[0].group[j].delay, at);
    } else {
      var body := QueueOf(w, member.queue).hash[member.id];
      if body.state == Completed && body.msg.Some? && CanReport(body.msg.value) { SameReport(w, u, body.msg.value, at); }
    }
  }

  /** One member, skipped or staged. */
  lemma OneWalk(w: World, u: World, wid: nat, entry: nat, m: TaskMessage, j: nat, listed: Option<set<Id>>, at: int)
    returns (v: World, n: nat, next: World)
    requires HasNext(m) && j < |m.chain[0].group| && InPhase(w, wid, entry, m, Staging(j, listed)) && SameKeys(w, u)
    requires Skipped(m, j, listed) || MemberStaged(u, m, j, at).ok
    ensures next == if Skipped(m, j, listed) then u else MemberStaged(u, m, j, at).w
    ensures Walks(w, v, wid, at, n) && SameKeys(v, next) && InPhase(v, wid, entry, m, Staging(j + 1, listed))
  {
    if Skipped(m, j, listed) {
      v := SkipWalk(w, wid, entry, m, j, listed, at);
      n, next := 1, u;
    } else {
      SameMembers(w, u, m, j, at);
      v, n := MemberWalk(w, wid, entry, m, j, listed, at);
      next := MemberStaged(u, m, j, at).w;
    }
  }

  lemma LastWalk(w: World, wid: nat, entry: nat, m: TaskMessage, listed: Option<set<Id>>, at: int) returns (v: World)
    requires HasNext(m) && InPhase(w, wid, entry, m, Staging(|m.chain[0].group|, listed))
    ensures Walks(w, v, wid, at, 1) && SameKeys(v, w) && InPhase(v, wid, entry, m.(chain := []), HandedOff)
  {
    v := AdvanceWorker(w, wid, at);
    PhaseWalk(w, wid, at, v);
  }

  /** The members from `j` on, and the hand-off. */
  lemma {:induction false} MembersWalk(w: World, u: World, wid: nat, entry: nat, m: TaskMessage, j: nat, listed: Option<set<Id>>, at: int)
    returns (v: World, n: nat)
    requires HasNext(m) && j <= |m.chain[0].group| && InPhase(w, wid, entry, m, Staging(j, listed)) && SameKeys(w, u)
    requires MembersStaged(u, m, j, listed, at).ok
    ensures Walks(w, v, wid, at, n) && SameKeys(v, MembersStaged(u, m, j, listed, at).w)
    ensures InPhase(v, wid, entry, m.(chain := []), HandedOff)
    decreases |m.chain[0].group| - j
  {
    if j == |m.chain[0].group| {
      v := LastWalk(w, wid, entry, m, listed, at);
      n := 1;
    } else {
      var x, k, next := OneWalk(w, u, wid, entry, m, j, listed, at);
      v, n := MembersWalk(x, next, wid, entry, m, j + 1, listed, at);
      WalksOn(w, x, v, wid, at, k, n);
      n := k + n;
    }
  }

  lemma OpenWalk(w: World, wid: nat, entry: nat, m: TaskMessage, at: int) returns (v: World, n: nat)
    requires HasNext(m) && m.chain[0].group != [] && InPhase(w, wid, entry, m, Succeeded) && !Fenced(w, m)
    ensures Walks(w, v, wid, at, n) && SameKeys(v, Opened(w, m)) && InPhase(v, wid, entry, m, Staging(0, ListedBy(w, m)))
  {
    v, n := AdvanceWorker(w, wid, at), 1;
    PhaseWalk(w, wid, at, v);
    if StageKey(m) in w.groups.pending {
      var u := AdvanceWorker(v, wid, at);
      PhaseWalk(v, wid, at, u);
      WalksOn(w, v, u, wid, at, 1, 1);
      v, n := u, 2;
    }
  }

  /** A hand-off that succeeds is a walk of the machine's worker from its success to the point
      where it has handed off, and leaves the store the same. */
  lemma StageIsWalk(w: World, wid: nat, entry: nat, m: TaskMessage, at: int) returns (v: World, n: nat)
    requires HasNext(m) && m.chain[0].group != [] && InPhase(w, wid, entry, m, Succeeded) && StageStaged(w, m, at).ok
    ensures Walks(w, v, wid, at, n) && SameKeys(v, StageStaged(w, m, at).w)
    ensures InPhase(v, wid, entry, m.(chain := []), HandedOff)
  {
    if Fenced(w, m) {
      v, n := AdvanceWorker(w, wid, at), 1;
      PhaseWalk(w, wid, at, v);
    } else {
      var u, k := OpenWalk(w, wid, entry, m, at);
      v, n := MembersWalk(u, Opened(w, m), wid, entry, m, 0, ListedBy(w, m), at);
      WalksOn(w, u, v, wid, at, k, n);
      n := k + n;
    }
  }

  /** The same for `Process` as a whole, when it hands on to a parallel stage: the walk, and the
      finish. */
  lemma AckedStageIsFinished(w: World, wid: nat, entry: nat, m: TaskMessage, at: int) returns (v: World, n: nat)
    requires HasNext(m) && m.chain[0].group != [] && InPhase(w, wid, entry, m, Succeeded) && StageStaged(w, m, at).ok
    ensures Walks(w, v, wid, at, n) && wid in v.workers && CanFinish(v.workers[wid])
    ensures SameKeys(Released(FinishWorker(v, wid, at), m), Acked(StageStaged(w, m, at).w, entry, m.(chain := []), at))
  {
    v, n := StageIsWalk(w, wid, entry, m, at);
    FinishIsAck(v, StageStaged(w, m, at).w, wid, at);
  }
}
