/** The retry budget, shared by failing handlers and by the recoverer. */
module RetryBudget {
  import opened Ids
  import opened Base
  import opened Store
  import opened StoreRuns

  predicate InBudget(m: TaskMessage) {
    0 <= m.retried <= m.maxRetry
  }

  /** No stored and no held message has spent more than its budget. */
  ghost predicate BudgetKept(s: Sys) {
    && (forall id :: id in s.q.hash && s.q.hash[id].msg.Some? ==> InBudget(s.q.hash[id].msg.value))
    && (forall h {:trigger h in s.holds} :: h in s.holds ==> InBudget(h.msg))
  }

  lemma StepKeepsBudget(s: Sys, e: Event)
    requires BudgetKept(s) && Enabled(s, e)
    ensures BudgetKept(Step(s, e))
  {
    StepQueue(s, e);
    if OpOf(e).Some? {
      ApplyBodies(s.q, OpOf(e).value);
      var w := Written(OpOf(e).value);
      assert w.Some? ==> w.value.msg.Some? && InBudget(w.value.msg.value);
    }
  }

  /** In every run, stale writers and lapsed leases included, Retried stays within MaxRetry. */
  lemma {:induction false} BudgetNeverExceeded(ss: seq<Sys>, es: seq<Event>, k: nat)
    requires Run(ss, es) && k < |ss|
    ensures BudgetKept(ss[k])
  {
    if k > 0 {
      BudgetNeverExceeded(ss, es, k - 1);
      StepKeepsBudget(ss[k - 1], es[k - 1]);
    }
  }

  // ----- how many deliveries a task can have -----

  /** No finished task is run again. */
  ghost predicate NoRerun(s: Sys, e: Event) {
    e.Background? && e.op.RunTask? ==> (ZArchived, e.op.id) !in s.q.zs && (ZCompleted, e.op.id) !in s.q.zs
  }

  function Attempts(s: Sys, id: Id): nat {
    if id in s.attempts then s.attempts[id] else 0
  }

  predicate Terminal(state: TaskState) {
    state == Archived || state == Completed
  }

  /** Every resolved delivery but the last one is a retry. */
  ghost predicate TalliedAt(s: Sys, id: Id) {
    id in s.q.hash && s.q.hash[id].msg.Some? ==>
      Attempts(s, id) == s.q.hash[id].msg.value.retried + if Terminal(s.q.hash[id].state) then 1 else 0
  }

  /** The worker's copy is the stored message. */
  ghost predicate Current(q: Queue, h: Hold) {
    h.msg.id in q.hash && q.hash[h.msg.id].msg == Some(h.msg)
  }

  ghost predicate Tallied(s: Sys) {
    && (forall id :: id in s.q.hash ==> TalliedAt(s, id))
    && (forall h {:trigger h in s.holds} :: h in s.holds ==> Current(s.q, h))
  }

  lemma HeldIsInPipeline(s: Sys, h: Hold)
    requires SingleLocation(s) && h in s.holds
    ensures h.msg.id in s.q.hash && InPipeline(s.q.hash[h.msg.id].state)
    ensures !InSomeZSet(s.q, h.msg.id)
    ensures forall g :: g in s.holds && g.msg.id == h.msg.id ==> g == h
  {
    assert Faithful(s.q, h.entry, h.msg.id);
    if InSomeZSet(s.q, h.msg.id) { OnePlace(s.q, SomeZSet(s.q, h.msg.id), h.msg.id); }
    forall g | g in s.holds && g.msg.id == h.msg.id ensures g == h { assert Faithful(s.q, g.entry, g.msg.id); }
  }

  lemma ClientTallied(s: Sys, op: Op)
    requires SingleLocation(s) && Tallied(s) && Enabled(s, Client(op)) && Disciplined(s, Client(op))
    ensures Tallied(Step(s, Client(op)))
  {
    var t := Step(s, Client(op));
    forall h | h in s.holds ensures Current(t.q, h) {
      HeldIsInPipeline(s, h);
      assert h.msg.id == op.msg.id ==> t.q == s.q;
    }
    forall id | id in t.q.hash ensures TalliedAt(t, id) {
      if id != op.msg.id { assert TalliedAt(s, id); }
    }
  }

  lemma ForwardBody(q: Queue, z: ZSet, ids: seq<Id>, id: Id)
    requires Located(q) && (z.ZScheduled? || z.ZRetry?) && (forall x :: x in ids ==> (z, x) in q.zs) && id in ForwardAll(q, z, ids).hash
    ensures id in q.hash && ForwardAll(q, z, ids).hash[id].msg == q.hash[id].msg
    ensures Terminal(ForwardAll(q, z, ids).hash[id].state) == Terminal(q.hash[id].state)
  {
    if id in ids { assert q.hash[(z, id).1].state == StateOf(z); }
  }

  lemma RunBody(q: Queue, id: Id, x: Id)
    requires Located(q) && (ZArchived, id) !in q.zs && (ZCompleted, id) !in q.zs && x in Apply(q, RunTask(id)).hash
    ensures x in q.hash && Apply(q, RunTask(id)).hash[x].msg == q.hash[x].msg
    ensures Terminal(Apply(q, RunTask(id)).hash[x].state) == Terminal(q.hash[x].state)
  {
    if InSomeZSet(q, id) {
      var z := SomeZSet(q, id);
      assert q.hash[(z, id).1].state == StateOf(z);
    }
  }

  /** Background work moves no task between the terminal and the other states. */
  lemma BackgroundBody(q: Queue, op: Op, id: Id)
    requires Located(q) && BackgroundOp(op) && id in Apply(q, op).hash
    requires op.Forward? ==> (op.z.ZScheduled? || op.z.ZRetry?) && forall x :: x in op.ids ==> (op.z, x) in q.zs
    requires op.RunTask? ==> (ZArchived, op.id) !in q.zs && (ZCompleted, op.id) !in q.zs
    ensures id in q.hash && Apply(q, op).hash[id].msg == q.hash[id].msg
    ensures Terminal(Apply(q, op).hash[id].state) == Terminal(q.hash[id].state)
  {
    match op {
      case Forward(z, ids) => ForwardBody(q, z, ids, id);
      case RunTask(x) => RunBody(q, x, id);
      case _ =>
    }
  }

  lemma BackgroundSpares(q: Queue, op: Op, id: Id)
    requires BackgroundOp(op) && id in q.hash && !InSomeZSet(q, id)
    requires op.Trim? ==> (op.z.ZArchived? || op.z.ZCompleted?) && forall x :: x in op.ids ==> (op.z, x) in q.zs
    requires op.Delete? ==> InSomeZSet(q, op.id)
    ensures id in Apply(q, op).hash && Apply(q, op).hash[id].msg == q.hash[id].msg
  {
  }

  lemma BackgroundTallied(s: Sys, op: Op)
    requires SingleLocation(s) && Tallied(s) && Enabled(s, Background(op))
    requires Disciplined(s, Background(op)) && NoRerun(s, Background(op))
    ensures Tallied(Step(s, Background(op)))
  {
    var t := Step(s, Background(op));
    forall h | h in s.holds ensures Current(t.q, h) {
      HeldIsInPipeline(s, h);
      BackgroundSpares(s.q, op, h.msg.id);
    }
    forall id | id in t.q.hash ensures TalliedAt(t, id) {
      BackgroundBody(s.q, op, id);
      assert TalliedAt(s, id);
    }
  }

  lemma ActorLeavesOthers(q: Queue, op: Op, entry: nat, id: Id, x: Id)
    requires ActorOp(op, entry, id) && x != id
    ensures x in Apply(q, op).hash <==> x in q.hash
    ensures x in q.hash ==> Apply(q, op).hash[x] == q.hash[x]
  {
  }

  lemma ActorCurrent(s: Sys, e: Event, h: Hold)
    requires Enabled(s, e) && IsActor(e) && h in Step(s, e).holds && Current(s.q, h)
    requires h != e.h ==> h.msg.id != e.h.msg.id
    ensures Current(Step(s, e).q, h)
  {
    if h != e.h {
      ActorEvent(s, e);
      StepQueue(s, e);
      ActorLeavesOthers(s.q, OpOf(e).value, e.h.entry, e.h.msg.id, h.msg.id);
    }
  }

  lemma ActorTalliedOther(s: Sys, e: Event, x: Id)
    requires Enabled(s, e) && IsActor(e) && TalliedAt(s, x) && x != e.h.msg.id
    ensures TalliedAt(Step(s, e), x)
  {
    ActorEvent(s, e);
    StepQueue(s, e);
    ActorLeavesOthers(s.q, OpOf(e).value, e.h.entry, e.h.msg.id, x);
  }

  lemma ActorTallied(s: Sys, e: Event)
    requires SingleLocation(s) && Tallied(s) && Enabled(s, e) && IsActor(e)
    ensures Tallied(Step(s, e))
  {
    HeldIsInPipeline(s, e.h);
    forall h | h in Step(s, e).holds ensures Current(Step(s, e).q, h) { ActorCurrent(s, e, h); }
    forall x | x in Step(s, e).q.hash ensures TalliedAt(Step(s, e), x) {
      assert TalliedAt(s, x);
      if x != e.h.msg.id {
        ActorTalliedOther(s, e, x);
      } else {
        ActorTalliedOwn(s, e);
      }
    }
  }

  lemma ActorTalliedOwn(s: Sys, e: Event)
    requires Enabled(s, e) && IsActor(e) && TalliedAt(s, e.h.msg.id) && Current(s.q, e.h)
    requires InPipeline(s.q.hash[e.h.msg.id].state)
    ensures TalliedAt(Step(s, e), e.h.msg.id)
  {
  }

  lemma BookTallied(s: Sys, e: Event)
    requires Tallied(s) && Enabled(s, e) && (e.Claim? || e.Load? || e.Vanish?)
    requires e.Load? ==> Faithful(s.q, e.entry, e.id) && forall id :: id in s.q.hash && s.q.hash[id].msg.Some? ==> s.q.hash[id].msg.value.id == id
    ensures Tallied(Step(s, e))
  {
  }

  lemma StepTallied(s: Sys, e: Event)
    requires SingleLocation(s) && Tallied(s) && Enabled(s, e) && Disciplined(s, e) && NoRerun(s, e)
    ensures Tallied(Step(s, e))
  {
    if e.Client? {
      ClientTallied(s, e.op);
    } else if e.Background? {
      BackgroundTallied(s, e.op);
    } else if IsActor(e) {
      ActorTallied(s, e);
    } else if e.Claim? || e.Load? || e.Vanish? {
      if e.Load? { assert Faithful(s.q, (e.entry, e.id, e.actor).0, (e.entry, e.id, e.actor).1); }
      BookTallied(s, e);
    }
  }

  /** Deliveries of a task's current life: the resolved ones and the one under way. */
  function Deliveries(s: Sys, id: Id): nat {
    Attempts(s, id) + if exists e :: e in s.q.pel && e in s.q.stream && s.q.stream[e] == id then 1 else 0
  }

  ghost predicate BudgetedRun(ss: seq<Sys>, es: seq<Event>) {
    DisciplinedRun(ss, es) && forall k :: 0 <= k < |es| ==> NoRerun(ss[k], es[k])
  }

  lemma {:induction false} AlwaysTallied(ss: seq<Sys>, es: seq<Event>, k: nat)
    requires BudgetedRun(ss, es) && k < |ss|
    ensures SingleLocation(ss[k]) && Tallied(ss[k]) && BudgetKept(ss[k])
  {
    AlwaysSingleLocation(ss, es, k);
    BudgetNeverExceeded(ss, es, k);
    if k > 0 {
      AlwaysTallied(ss, es, k - 1);
      StepTallied(ss[k - 1], es[k - 1]);
    }
  }

  /** Handler failures and crash reclaims together: a stored task has had at most MaxRetry+1
      deliveries that were not handed back, in every run without re-runs of finished tasks. */
  lemma DeliveriesBounded(ss: seq<Sys>, es: seq<Event>, k: nat, id: Id)
    requires BudgetedRun(ss, es) && k < |ss| && id in ss[k].q.hash
    ensures ss[k].q.hash[id].msg.Some?
    ensures Deliveries(ss[k], id) <= ss[k].q.hash[id].msg.value.maxRetry + 1
  {
    AlwaysTallied(ss, es, k);
    var s := ss[k];
    assert TalliedAt(s, id);
    if Terminal(s.q.hash[id].state) {
      assert forall e :: e in s.q.stream ==> s.q.stream[e] != id;
    }
  }

  /** The delivery that removes the body is within the same bound. */
  lemma LastDeliveryBounded(ss: seq<Sys>, es: seq<Event>, k: nat, h: Hold)
    requires BudgetedRun(ss, es) && k < |es| && es[k] == Ack(h)
    ensures Attempts(ss[k + 1], h.msg.id) == h.msg.retried + 1 <= h.msg.maxRetry + 1
  {
    AlwaysTallied(ss, es, k);
    HeldIsInPipeline(ss[k], h);
    assert TalliedAt(ss[k], h.msg.id);
  }
}
