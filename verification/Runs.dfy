/** Concrete runs of the workflow machine, of the kind the program can make: tasks are delivered
    from stream entries, an entry that was delivered goes through the recoverer, and from
    outside only the forwarder and an operator's re-run touch the queues. */
module Runs {
  import opened Ids
  import opened Base
  import opened Store
  import opened GroupState
  import opened Flow
  import opened World
  import opened Meaning
  import opened Leases

  // ----- what a run looks at -----

  predicate Waits(w: World, queue: string, z: ZSet, id: Id) { (z, id) in QueueOf(w, queue).zs }

  ghost predicate OneBody(w: World, v: World, queue: string, id: Id, b: Option<Body>) {
    forall i :: BodyOf(v, queue, i) == if i == id then b else BodyOf(w, queue, i)
  }

  ghost predicate SameWaits(w: World, v: World, queue: string) {
    forall z, i :: Waits(v, queue, z, i) == Waits(w, queue, z, i)
  }

  ghost predicate OneWaits(w: World, v: World, queue: string, z: ZSet, id: Id) {
    Waits(v, queue, z, id) && forall y, i :: Waits(w, queue, y, i) ==> Waits(v, queue, y, i)
  }

  /** Nothing but workers and group state differs. */
  ghost predicate SameStore(w: World, v: World, queue: string) {
    (forall i :: BodyOf(v, queue, i) == BodyOf(w, queue, i)) && SameEntries(w, v, queue) && SameWaits(w, v, queue)
  }

  // ----- single operations -----

  lemma VanishFacts(w: World, v: World, queue: string)
    requires w.workers.Keys == {1} && v == Remove(w, 1)
    ensures v.workers == map[] && SameStore(w, v, queue) && v.groups == w.groups
  {
  }

  lemma CreateFacts(w: World, msg: TaskMessage, at: int, v: World)
    requires !Exists(w, msg.queue, msg.id) && v == CreateTask(w, msg, 0, at)
    ensures OneBody(w, v, msg.queue, msg.id, Some(Body(Some(msg), Pending)))
    ensures NewEntry(w, v, msg.queue, msg.id) && SameWaits(w, v, msg.queue)
    ensures v.groups == w.groups && v.workers == w.workers && v.log == w.log
  {
  }

  lemma CreateAgainFacts(w: World, msg: TaskMessage, at: int, v: World)
    requires Exists(w, msg.queue, msg.id) && v == CreateTask(w, msg, 0, at)
    ensures forall i :: BodyOf(v, msg.queue, i) == BodyOf(w, msg.queue, i)
    ensures SameEntries(w, v, msg.queue) && SameWaits(w, v, msg.queue)
    ensures v.groups == w.groups && v.workers == w.workers && v.log == w.log
  {
  }

  lemma MoveFacts(w: World, wid: nat, m: TaskMessage, z: ZSet, at: int, v: World)
    requires wid in w.workers && v == MoveTask(w, wid, m, z, at)
    ensures OneBody(w, v, m.queue, m.id, Some(Body(Some(m), StateOf(z))))
    ensures EntryGone(w, v, m.queue, w.workers[wid].entry) && OneWaits(w, v, m.queue, z, m.id)
    ensures v.groups == w.groups && v.workers == w.workers - {wid} && v.log == w.log
  {
  }

  lemma DropFacts(w: World, wid: nat, v: World)
    requires wid in w.workers && v == DropTask(w, wid)
    ensures OneBody(w, v, w.workers[wid].msg.queue, w.workers[wid].msg.id, None)
    ensures EntryGone(w, v, w.workers[wid].msg.queue, w.workers[wid].entry) && SameWaits(w, v, w.workers[wid].msg.queue)
    ensures v.groups == w.groups && v.workers == w.workers - {wid} && v.log == w.log
  {
  }

  lemma ForwardFacts(w: World, queue: string, z: ZSet, id: Id, v: World)
    requires Exists(w, queue, id) && v == Run(w, queue, Forward(z, [id]))
    ensures OneBody(w, v, queue, id, Some(QueueOf(w, queue).hash[id].(state := Pending)))
    ensures NewEntry(w, v, queue, id)
    ensures forall y, i :: Waits(w, queue, y, i) && i != id ==> Waits(v, queue, y, i)
    ensures v.groups == w.groups && v.workers == w.workers && v.log == w.log
  {
    var q, ids := QueueOf(w, queue), [id];
    assert Append(q.stream, q.nextEntry, ids) == q.stream[q.nextEntry := id];
    assert id == ids[0];
    forall i ensures BodyOf(v, queue, i) == if i == id then Some(q.hash[id].(state := Pending)) else BodyOf(w, queue, i) {}
  }

  lemma MarkFacts(w: World, queue: string, id: Id, v: World)
    requires Exists(w, queue, id) && v == Run(w, queue, MarkActive(id))
    ensures OneBody(w, v, queue, id, Some(QueueOf(w, queue).hash[id].(state := Active)))
    ensures SameEntries(w, v, queue) && SameWaits(w, v, queue)
    ensures v.groups == w.groups && v.workers == w.workers && v.log == w.log
  {
  }

  lemma RerunFacts(w: World, queue: string, z: ZSet, id: Id, v: World)
    requires Exists(w, queue, id) && Waits(w, queue, z, id) && v == Run(w, queue, RunTask(id))
    ensures OneBody(w, v, queue, id, Some(QueueOf(w, queue).hash[id].(state := Pending)))
    ensures NewEntry(w, v, queue, id)
    ensures v.groups == w.groups && v.workers == w.workers && v.log == w.log
  {
    assert InSomeZSet(QueueOf(w, queue), id);
  }

  // ----- runs -----

  /** Which of the conditions on meaning a run meets, and whether it does without operators' re-runs
      and without any time passing. */
  datatype Care = Care(leases: bool, drains: bool, times: bool, untouched: bool, timeless: bool)

  ghost predicate Careful(p: Plan, c: Care, w: World, e: Event) {
    && (c.leases ==> Leased(w, e)) && (c.drains ==> ReadsResult(p, w, e)) && (c.times ==> InTime(w, e))
    && (c.untouched ==> !(e.Env? && e.op.RunTask?)) && (c.timeless ==> !e.TimePasses?)
  }

  /** From outside come only the retry forwarder and an operator's re-run, besides the mark a
      delivery leaves. */
  ghost predicate OnlyCode(w: World, e: Event) {
    e.Env? ==>
      match e.op
      case Forward(z, ids) => z == ZRetry && forall id :: id in ids ==> Waits(w, e.queue, z, id)
      case RunTask(_) => true
      case MarkActive(_) => true
      case _ => false
  }

  /** A task is taken by a worker, which marks it active unless it is active already, or by
      the recoverer, which puts it away at once. */
  ghost predicate TakenBy(w: World, e: Event, f: Event)
    requires e.Fetch?
  {
    || (f.Reclaim? && f.wid == e.wid)
    || (f == Env(e.queue, MarkActive(e.id)) && BodyOf(w, e.queue, e.id).Some? && BodyOf(w, e.queue, e.id).value.state != Active)
  }

  /** It is taken from a stream entry that names it. */
  ghost predicate Delivered(ws: seq<World>, es: seq<Event>, k: nat)
    requires k < |es| < |ws|
  {
    es[k].Fetch? ==>
      var e := es[k];
      && EntryAt(ws[k], e.queue, e.entry) == Some(e.id) && k + 1 < |es|
      && TakenBy(ws[k], e, es[k + 1])
  }

  ghost predicate CodeRun(p: Plan, c: Care, ws: seq<World>, es: seq<Event>) {
    && IsRun(p, ws, es)
    && (forall k :: 0 <= k < |es| ==> Careful(p, c, ws[k], es[k]) && OnlyCode(ws[k], es[k]))
    && (forall k :: 0 <= k < |es| ==> Delivered(ws, es, k))
  }

  ghost predicate RunTo(p: Plan, c: Care, ws: seq<World>, es: seq<Event>, w: World) {
    CodeRun(p, c, ws, es) && ws[|es|] == w
  }

  lemma Extend(p: Plan, c: Care, ws: seq<World>, es: seq<Event>, w: World, e: Event)
    returns (ws': seq<World>, es': seq<Event>, v: World)
    requires RunTo(p, c, ws, es, w) && Enabled(p, w, e) && Careful(p, c, w, e) && OnlyCode(w, e) && !e.Fetch?
    ensures v == Step(p, w, e) && RunTo(p, c, ws', es', v)
  {
    v := Step(p, w, e);
    ws', es' := ws + [v], es + [e];
    forall k | 0 <= k < |es'|
      ensures Enabled(p, ws'[k], es'[k]) && ws'[k + 1] == Step(p, ws'[k], es'[k])
      ensures Careful(p, c, ws'[k], es'[k]) && OnlyCode(ws'[k], es'[k]) && Delivered(ws', es', k)
    {
      if k < |es| {
        assert ws'[k] == ws[k] && ws'[k + 1] == ws[k + 1] && es'[k] == es[k];
        assert Delivered(ws, es, k);
        if k + 1 < |es| { assert es'[k + 1] == es[k + 1]; }
      }
    }
  }

  /** A delivery and what follows it at once. */
  lemma ExtendTwice(p: Plan, c: Care, ws: seq<World>, es: seq<Event>, w: World, e: Event, f: Event)
    returns (ws': seq<World>, es': seq<Event>, v: World)
    requires RunTo(p, c, ws, es, w) && Enabled(p, w, e) && Careful(p, c, w, e) && e.Fetch? && EntryAt(w, e.queue, e.entry) == Some(e.id)
    requires Enabled(p, Step(p, w, e), f) && Careful(p, c, Step(p, w, e), f) && OnlyCode(Step(p, w, e), f)
    requires TakenBy(w, e, f)
    ensures v == Step(p, Step(p, w, e), f) && RunTo(p, c, ws', es', v)
  {
    var u := Step(p, w, e);
    v := Step(p, u, f);
    ws', es' := ws + [u, v], es + [e, f];
    forall k | 0 <= k < |es'|
      ensures Enabled(p, ws'[k], es'[k]) && ws'[k + 1] == Step(p, ws'[k], es'[k])
      ensures Careful(p, c, ws'[k], es'[k]) && OnlyCode(ws'[k], es'[k]) && Delivered(ws', es', k)
    {
      if k < |es| {
        assert ws'[k] == ws[k] && ws'[k + 1] == ws[k + 1] && es'[k] == es[k];
        assert Delivered(ws, es, k);
        if k + 1 < |es| { assert es'[k + 1] == es[k + 1]; }
      }
    }
  }

  /** A worker is given the task of a stream entry. */
  lemma Deliver(p: Plan, c: Care, ws: seq<World>, es: seq<Event>, w: World, wid: nat, m: TaskMessage, entry: nat)
    returns (ws': seq<World>, es': seq<Event>, v: World)
    requires RunTo(p, c, ws, es, w) && wid !in w.workers && RootOf(m.id) in p.flows && EntryAt(w, m.queue, entry) == Some(m.id)
    requires BodyOf(w, m.queue, m.id) == Some(Body(Some(m), Pending))
    requires c.leases ==> forall i :: i in w.workers ==> w.workers[i].msg.id != m.id
    ensures RunTo(p, c, ws', es', v)
    ensures OneBody(w, v, m.queue, m.id, Some(Body(Some(m), Active))) && SameEntries(w, v, m.queue) && SameWaits(w, v, m.queue)
    ensures v.groups == w.groups && v.workers == w.workers[wid := Worker(entry, m, Running)] && v.log == w.log
  {
    var e, f := Fetch(wid, m.queue, m.id, entry), Env(m.queue, MarkActive(m.id));
    ws', es', v := ExtendTwice(p, c, ws, es, w, e, f);
    var u := Step(p, w, e);
    assert u == w.(workers := w.workers[wid := Worker(entry, m, Running)]);
    MarkFacts(u, m.queue, m.id, v);
    forall i ensures BodyOf(u, m.queue, i) == BodyOf(w, m.queue, i) {}
    forall i ensures EntryAt(u, m.queue, i) == EntryAt(w, m.queue, i) {}
    forall z, i ensures Waits(u, m.queue, z, i) == Waits(w, m.queue, z, i) {}
  }

  /** A worker is given the task of a stream entry, and its handler succeeds. */
  lemma DeliverAndRun(p: Plan, c: Care, ws: seq<World>, es: seq<Event>, w: World, wid: nat, m: TaskMessage, entry: nat)
    returns (ws': seq<World>, es': seq<Event>, v: World)
    requires RunTo(p, c, ws, es, w) && wid !in w.workers && RootOf(m.id) in p.flows && EntryAt(w, m.queue, entry) == Some(m.id)
    requires BodyOf(w, m.queue, m.id) == Some(Body(Some(m), Pending))
    requires c.leases ==> forall i :: i in w.workers ==> w.workers[i].msg.id != m.id
    ensures RunTo(p, c, ws', es', v)
    ensures OneBody(w, v, m.queue, m.id, Some(Body(Some(m), Active))) && SameEntries(w, v, m.queue) && SameWaits(w, v, m.queue)
    ensures v.groups == w.groups && v.log == w.log + {InputOf(m)}
    ensures v.workers == w.workers[wid := Worker(entry, WithResult(m, p.h(InputOf(m))), Succeeded)]
  {
    var u: World;
    ws', es', u := Deliver(p, c, ws, es, w, wid, m, entry);
    ws', es', v := Extend(p, c, ws', es', u, HandlerOk(wid));
    forall i ensures BodyOf(v, m.queue, i) == BodyOf(u, m.queue, i) {}
    forall i ensures EntryAt(v, m.queue, i) == EntryAt(u, m.queue, i) {}
    forall z, i ensures Waits(v, m.queue, z, i) == Waits(u, m.queue, z, i) {}
  }

  /** The recoverer finds a delivered entry idle and puts its task up for retry. */
  lemma Recover(p: Plan, c: Care, ws: seq<World>, es: seq<Event>, w: World, wid: nat, m: TaskMessage, entry: nat, state: TaskState)
    returns (ws': seq<World>, es': seq<Event>, v: World)
    requires RunTo(p, c, ws, es, w) && wid !in w.workers && RootOf(m.id) in p.flows && EntryAt(w, m.queue, entry) == Some(m.id)
    requires BodyOf(w, m.queue, m.id) == Some(Body(Some(m), state)) && m.retried < m.maxRetry
    requires c.leases ==> forall i :: i in w.workers ==> w.workers[i].msg.id != m.id
    ensures RunTo(p, c, ws', es', v)
    ensures OneBody(w, v, m.queue, m.id, Some(Body(Some(m.(retried := m.retried + 1)), Retry)))
    ensures EntryGone(w, v, m.queue, entry) && OneWaits(w, v, m.queue, ZRetry, m.id)
    ensures v.groups == w.groups && v.workers == w.workers && v.log == w.log
  {
    var e, f := Fetch(wid, m.queue, m.id, entry), Reclaim(wid, 0);
    ws', es', v := ExtendTwice(p, c, ws, es, w, e, f);
    var u := Step(p, w, e);
    assert u == w.(workers := w.workers[wid := Worker(entry, m, Running)]);
    MoveFacts(u, wid, m.(retried := m.retried + 1), ZRetry, 0, v);
    forall i ensures BodyOf(u, m.queue, i) == BodyOf(w, m.queue, i) {}
    forall i ensures EntryAt(u, m.queue, i) == EntryAt(w, m.queue, i) {}
    forall z, i ensures Waits(u, m.queue, z, i) == Waits(w, m.queue, z, i) {}
    assert w.workers[wid := Worker(entry, m, Running)] - {wid} == w.workers;
  }

  /** A task that waits for its retry goes back to the stream. */
  lemma Retried(p: Plan, c: Care, ws: seq<World>, es: seq<Event>, w: World, queue: string, id: Id)
    returns (ws': seq<World>, es': seq<Event>, v: World)
    requires RunTo(p, c, ws, es, w) && Exists(w, queue, id) && Waits(w, queue, ZRetry, id)
    ensures RunTo(p, c, ws', es', v)
    ensures OneBody(w, v, queue, id, Some(QueueOf(w, queue).hash[id].(state := Pending))) && NewEntry(w, v, queue, id)
    ensures forall y, i :: Waits(w, queue, y, i) && i != id ==> Waits(v, queue, y, i)
    ensures v.groups == w.groups && v.workers == w.workers && v.log == w.log
  {
    ws', es', v := Extend(p, c, ws, es, w, Env(queue, Forward(ZRetry, [id])));
    ForwardFacts(w, queue, ZRetry, id, v);
  }
}
