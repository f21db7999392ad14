/** Laws of the store's scripts, in terms of what a reader of the queue sees: when a task that was
    put off comes back, and which sequences of scripts have the same effect. */
module Laws {
  import opened Ids
  import opened Base
  import opened Store
  import opened Scripts

  /** The task an operation is about. */
  predicate Names(op: Op, id: Id) {
    match op
    case MarkActive(i) => i == id
    case Requeue(_, i) => i == id
    case Finish(_, i) => i == id
    case RunTask(i) => i == id
    case Delete(i) => i == id
    case Forward(_, ids) => id in ids
    case Trim(_, ids) => id in ids
    case _ => Written(op).Some? && op.msg.id == id
  }

  /** The same body, and the same place and score in every ZSET. */
  ghost predicate SameTask(q: Queue, r: Queue, id: Id) {
    && (id in r.hash <==> id in q.hash) && (id in q.hash ==> r.hash[id] == q.hash[id])
    && (forall z :: (z, id) in r.zs <==> (z, id) in q.zs)
    && (forall z :: (z, id) in q.zs && (z, id) in r.zs ==> r.zs[(z, id)] == q.zs[(z, id)])
  }

  lemma PutKeepsOthers(q: Queue, op: Op, id: Id)
    requires (op.Enqueue? || op.EnqueueUnique? || op.EnqueuePeriodic?) && op.msg.id != id
    ensures SameTask(q, Apply(q, op), id)
  {
  }

  lemma DelayKeepsOthers(q: Queue, op: Op, id: Id)
    requires (op.Schedule? || op.ScheduleUnique? || op.EnqueueLink? || op.ScheduleLink? || op.Move?) && op.msg.id != id
    ensures SameTask(q, Apply(q, op), id)
  {
  }

  lemma BatchKeepsOthers(q: Queue, z: ZSet, ids: seq<Id>, id: Id)
    requires id !in ids
    ensures SameTask(q, Apply(q, Forward(z, ids)), id) && SameTask(q, Apply(q, Trim(z, ids)), id)
  {
    var r := Apply(q, Forward(z, ids));
    assert id in r.hash <==> id in q.hash;
  }

  lemma SingleKeepsOthers(q: Queue, op: Op, id: Id)
    requires (op.MarkActive? || op.Requeue? || op.Finish? || op.RunTask? || op.Delete?) && op.id != id
    ensures SameTask(q, Apply(q, op), id)
  {
  }

  /** No operation touches a task it does not name. */
  lemma OthersKept(q: Queue, op: Op, id: Id)
    requires !Names(op, id)
    ensures SameTask(q, Apply(q, op), id)
  {
    if op.Enqueue? || op.EnqueueUnique? || op.EnqueuePeriodic? { PutKeepsOthers(q, op, id); }
    else if Written(op).Some? { DelayKeepsOthers(q, op, id); }
    else if op.Forward? || op.Trim? { BatchKeepsOthers(q, op.z, op.ids, id); }
    else if op.MarkActive? || op.Requeue? || op.Finish? || op.RunTask? || op.Delete? { SingleKeepsOthers(q, op, id); }
  }

  lemma {:induction false} KeptThrough(qs: seq<Queue>, ops: seq<Op>, a: nat, b: nat, id: Id)
    requires IsOpRun(qs, ops) && a <= b < |qs| && forall k :: a <= k < b ==> !Names(ops[k], id)
    ensures SameTask(qs[a], qs[b], id)
  {
    if a < b {
      KeptThrough(qs, ops, a, b - 1, id);
      OthersKept(qs[b - 1], ops[b - 1], id);
    }
  }

  // ----- tasks that are put off -----

  /** The operation puts the task of message `msg` off until `at`, in the ZSET `z`. */
  predicate PutsOff(q: Queue, op: Op, z: ZSet, msg: TaskMessage, at: int) {
    match op
    case Schedule(m, t) => z == ZScheduled && m == msg && t == at
    case ScheduleUnique(m, key, t, _) => z == ZScheduled && m == msg && t == at && !Locked(q, key)
    case ScheduleLink(m, t) => z == ZScheduled && m == msg && t == at && msg.id !in q.hash
    case Move(_, m, y, t) => z == ZRetry == y && m == msg && t == at
    case _ => false
  }

  ghost predicate WaitsUntil(q: Queue, z: ZSet, msg: TaskMessage, at: int) {
    && msg.id in q.hash && q.hash[msg.id] == Body(Some(msg), if z == ZRetry then Retry else Scheduled)
    && (z, msg.id) in q.zs && q.zs[(z, msg.id)] == at
  }

  lemma PutOffWaits(q: Queue, op: Op, z: ZSet, msg: TaskMessage, at: int)
    requires PutsOff(q, op, z, msg, at)
    ensures WaitsUntil(Apply(q, op), z, msg, at)
    ensures forall e :: e in Apply(q, op).stream ==> e in q.stream && Apply(q, op).stream[e] == q.stream[e]
  {
  }

  ghost function Due(q: Queue, z: ZSet, t: int): set<Id> {
    set k | k in q.zs && k.0 == z && q.zs[k] <= t :: k.1
  }

  ghost function Elements(ids: seq<Id>): set<Id> { set i | 0 <= i < |ids| :: ids[i] }

  lemma {:induction false} DistinctCount(ids: seq<Id>)
    requires forall i, j :: 0 <= i < j < |ids| ==> ids[i] != ids[j]
    ensures |Elements(ids)| == |ids|
  {
    if ids != [] {
      var n := |ids| - 1;
      DistinctCount(ids[..n]);
      assert Elements(ids) == Elements(ids[..n]) + {ids[n]};
    }
  }

  lemma SubsetOfSameSize(a: set<Id>, b: set<Id>)
    requires a <= b && |a| == |b|
    ensures a == b
  {
    assert |b - a| == |b| - |a|;
  }

  /** A range with a limit that is not too small holds every due task. */
  lemma RangeHasAllDue(q: Queue, z: ZSet, t: int, max: nat, ids: seq<Id>, id: Id)
    requires IsRange(q, z, Some(t), max, ids) && |Due(q, z, t)| <= max && (z, id) in q.zs && q.zs[(z, id)] <= t
    ensures id in ids
  {
    assert (z, id) in q.zs && Score(q, z, id) <= t;
    if |ids| == max {
      DistinctCount(ids);
      assert Elements(ids) <= Due(q, z, t) by {
        forall x | x in Elements(ids) ensures x in Due(q, z, t) { assert (z, x) in q.zs; }
      }
      SubsetSize(Elements(ids), Due(q, z, t));
      SubsetOfSameSize(Elements(ids), Due(q, z, t));
      assert id in Due(q, z, t);
    }
  }

  lemma SubsetSize(a: set<Id>, b: set<Id>)
    requires a <= b
    ensures |a| <= |b|
  {
    assert |b - a| == |b| - |a|;
  }

  /** Not before its time, and not passed over after it: over any operations that do not name the
      task, a task put off until `at`, by a client, by a workflow or for a retry, is in no range of
      due tasks before `at`, and in every one from `at` on whose limit covers what is due. */
  lemma NotBefore(qs: seq<Queue>, ops: seq<Op>, a: nat, b: nat, z: ZSet, msg: TaskMessage, at: int, t: int, max: nat, ids: seq<Id>)
    requires IsOpRun(qs, ops) && a < b < |qs| && PutsOff(qs[a], ops[a], z, msg, at)
    requires forall k :: a < k < b ==> !Names(ops[k], msg.id)
    requires IsRange(qs[b], z, Some(t), max, ids)
    ensures WaitsUntil(qs[b], z, msg, at)
    ensures t < at ==> msg.id !in ids
    ensures at <= t && |Due(qs[b], z, t)| <= max ==> msg.id in ids
  {
    PutOffWaits(qs[a], ops[a], z, msg, at);
    KeptThrough(qs, ops, a + 1, b, msg.id);
    if msg.id in ids {
      var i :| 0 <= i < |ids| && ids[i] == msg.id;
      assert Score(qs[b], z, ids[i]) == at;
    } else if at <= t && |Due(qs[b], z, t)| <= max {
      RangeHasAllDue(qs[b], z, t, max, ids, msg.id);
    }
  }

  /** Forwarding puts each of its tasks on the stream once, pending, with its message. */
  lemma ForwardSends(q: Queue, z: ZSet, ids: seq<Id>, id: Id) returns (e: nat)
    requires id in ids && id in q.hash && forall i, j :: 0 <= i < j < |ids| ==> ids[i] != ids[j]
    ensures var r := Apply(q, Forward(z, ids));
            && id in r.hash && r.hash[id] == Body(q.hash[id].msg, Pending) && (z, id) !in r.zs
            && q.nextEntry <= e < r.nextEntry && e in r.stream && r.stream[e] == id
            && (forall f :: q.nextEntry <= f && f in r.stream && r.stream[f] == id ==> f == e || f >= r.nextEntry)
  {
    var i :| 0 <= i < |ids| && ids[i] == id;
    e := q.nextEntry + i;
  }

  // ----- sequences with the same effect -----

  /** The task is in no ZSET. */
  predicate Nowhere(q: Queue, id: Id) { !InSomeZSet(q, id) }

  lemma PutIs(q: Queue, msg: TaskMessage)
    ensures Put(q, msg) ==
            q.(hash := q.hash[msg.id := Body(Some(msg), Pending)], stream := q.stream[q.nextEntry := msg.id], nextEntry := q.nextEntry + 1,
               zs := q.zs - {(ZCompleted, msg.id)} - {(ZArchived, msg.id)})
  {
  }

  lemma PutScheduledIs(q: Queue, msg: TaskMessage, at: int)
    ensures PutScheduled(q, msg, at) ==
            q.(hash := q.hash[msg.id := Body(Some(msg), Scheduled)],
               zs := q.zs[(ZScheduled, msg.id) := at] - {(ZCompleted, msg.id)} - {(ZArchived, msg.id)})
  {
  }

  lemma DelayedScores(q: Queue, id: Id, at: int)
    requires (ZScheduled, id) !in q.zs
    ensures q.zs[(ZScheduled, id) := at] - {(ZCompleted, id)} - {(ZArchived, id)} - {(ZScheduled, id)} ==
            q.zs - {(ZCompleted, id)} - {(ZArchived, id)}
    ensures q.zs[(ZScheduled, id) := at] - {(ZScheduled, id)} == q.zs
  {
  }

  lemma PutOffIsPut(q: Queue, msg: TaskMessage, at: int)
    requires (ZScheduled, msg.id) !in q.zs
    ensures Apply(PutScheduled(q, msg, at), Forward(ZScheduled, [msg.id])) == Put(q, msg)
  {
    PutIs(q, msg);
    PutScheduledIs(q, msg, at);
    DelayedScores(q, msg.id, at);
    ForwardOfOne(PutScheduled(q, msg, at), ZScheduled, msg.id);
  }

  /** A delayed enqueue that is forwarded leaves the queue as an enqueue at once would. */
  lemma DelayedIsEnqueue(q: Queue, msg: TaskMessage, at: int)
    requires (ZScheduled, msg.id) !in q.zs
    ensures Apply(Apply(q, Schedule(msg, at)), Forward(ZScheduled, [msg.id])) == Apply(q, Enqueue(msg))
  {
    PutOffIsPut(q, msg, at);
  }

  lemma DelayedIsEnqueueUnique(q: Queue, msg: TaskMessage, at: int, key: UniqueKey, ttl: int)
    requires (ZScheduled, msg.id) !in q.zs && !Locked(q, key)
    ensures Apply(Apply(q, ScheduleUnique(msg, key, at, ttl)), Forward(ZScheduled, [msg.id])) == Apply(q, EnqueueUnique(msg, key, ttl))
  {
    PutOffIsPut(TakeLock(q, key, msg.id, ttl), msg, at);
  }

  lemma DelayedIsEnqueueLink(q: Queue, msg: TaskMessage, at: int)
    requires (ZScheduled, msg.id) !in q.zs && msg.id !in q.hash
    ensures Apply(Apply(q, ScheduleLink(msg, at)), Forward(ZScheduled, [msg.id])) == Apply(q, EnqueueLink(msg))
  {
    DelayedScores(q, msg.id, at);
    ForwardOfOne(Apply(q, ScheduleLink(msg, at)), ZScheduled, msg.id);
  }

  lemma ForwardOfOne(q: Queue, z: ZSet, id: Id)
    requires id in q.hash
    ensures Apply(q, Forward(z, [id])) ==
            q.(stream := q.stream[q.nextEntry := id], nextEntry := q.nextEntry + 1,
               hash := q.hash[id := q.hash[id].(state := Pending)], zs := q.zs - {(z, id)})
  {
    ForwardNone(q, z);
    ForwardOne(q, z, [], id);
    assert [] + [id] == [id];
  }

  lemma RunTaskIs(q: Queue, id: Id)
    requires id in q.hash && InSomeZSet(q, id)
    ensures Apply(q, RunTask(id)) ==
            q.(stream := q.stream[q.nextEntry := id], nextEntry := q.nextEntry + 1,
               hash := q.hash[id := q.hash[id].(state := Pending)], zs := ZRemAll(q, id).zs)
  {
  }

  lemma RequeueIs(q: Queue, entry: nat, id: Id)
    requires id in q.hash
    ensures Apply(q, Requeue(entry, id)) ==
            q.(stream := (q.stream - {entry})[q.nextEntry := id], nextEntry := q.nextEntry + 1, pel := q.pel - {entry},
               hash := q.hash[id := q.hash[id].(state := Pending)])
  {
  }

  /** A delivery that ends in any ZSET and is run again leaves the queue as handing the changed task
      straight back would. */
  lemma RerunIsRequeue(q: Queue, entry: nat, msg: TaskMessage, z: ZSet, at: int)
    requires Nowhere(q, msg.id)
    ensures Apply(Apply(q, Move(entry, msg, z, at)), RunTask(msg.id)) ==
            Apply(q.(hash := q.hash[msg.id := Body(Some(msg), Active)]), Requeue(entry, msg.id))
  {
    var r := Apply(q, Move(entry, msg, z, at));
    MoveIs(q, entry, msg, z, at);
    assert InSomeZSet(r, msg.id);
    ZSetsCleared(q, z, msg.id, at, r);
    RunTaskIs(r, msg.id);
    RequeueIs(q.(hash := q.hash[msg.id := Body(Some(msg), Active)]), entry, msg.id);
  }

  lemma ZSetsCleared(q: Queue, z: ZSet, id: Id, at: int, r: Queue)
    requires Nowhere(q, id) && r.zs == q.zs[(z, id) := at]
    ensures ZRemAll(r, id).zs == q.zs
  {
    forall k | k in q.zs ensures k.1 != id { assert k.0.ZScheduled? || k.0.ZRetry? || k.0.ZArchived? || k.0.ZCompleted?; }
  }

  /** And forwarding a retry does the same as running it. */
  lemma RunIsForward(q: Queue, z: ZSet, id: Id)
    requires id in q.hash && (z, id) in q.zs && forall y :: y != z ==> (y, id) !in q.zs
    ensures Apply(q, RunTask(id)) == Apply(q, Forward(z, [id]))
  {
    assert InSomeZSet(q, id);
    ForwardOfOne(q, z, id);
    RunTaskIs(q, id);
    assert ZRemAll(q, id).zs == q.zs - {(z, id)};
  }

  lemma ReadOne(q: Queue)
    requires q.cursor + 1 == q.nextEntry && q.cursor in q.stream
    ensures Apply(q, ReadGroup(q.nextEntry)) == q.(cursor := q.nextEntry, pel := q.pel + {q.cursor})
  {
    assert (set e | e in q.stream && q.cursor <= e < q.nextEntry) == {q.cursor};
  }

  lemma DeliveredIs(q: Queue, msg: TaskMessage, e: nat, d: Queue)
    requires Nowhere(q, msg.id) && e == q.cursor == q.nextEntry && e !in q.stream && e !in q.pel
    requires d == Apply(Apply(q, Enqueue(msg)), ReadGroup(e + 1))
    ensures d == q.(hash := q.hash[msg.id := Body(Some(msg), Pending)], stream := q.stream[e := msg.id], pel := q.pel + {e},
                    nextEntry := e + 1, cursor := e + 1)
  {
    PutIs(q, msg);
    ReadOne(Apply(q, Enqueue(msg)));
    assert q.zs - {(ZCompleted, msg.id)} - {(ZArchived, msg.id)} == q.zs;
  }

  /** A new task that is delivered and finished leaves nothing but a used entry number. */
  lemma FinishUndoesEnqueue(q: Queue, msg: TaskMessage, e: nat, d: Queue)
    requires msg.id !in q.hash && Nowhere(q, msg.id) && e == q.cursor == q.nextEntry && e !in q.stream && e !in q.pel
    requires d == Apply(Apply(q, Enqueue(msg)), ReadGroup(e + 1))
    ensures e in d.pel && e in d.stream && d.stream[e] == msg.id
    ensures Apply(d, Finish(e, msg.id)) == q.(nextEntry := e + 1, cursor := e + 1)
  {
    DeliveredIs(q, msg, e, d);
    FinishIs(d, e, msg.id);
    assert q.stream[e := msg.id] - {e} == q.stream;
    assert q.pel + {e} - {e} == q.pel;
    assert q.hash[msg.id := Body(Some(msg), Pending)] - {msg.id} == q.hash;
  }

  lemma FinishIs(q: Queue, entry: nat, id: Id)
    ensures Apply(q, Finish(entry, id)) == q.(stream := q.stream - {entry}, pel := q.pel - {entry}, hash := q.hash - {id})
  {
  }

  /** Handing a task back forgets that it was marked, and an entry without a body is dropped. */
  lemma RequeueForgetsMark(q: Queue, entry: nat, id: Id)
    ensures id in q.hash ==>
              && Apply(q, MarkActive(id)).hash == q.hash[id := Body(q.hash[id].msg, Active)]
              && Apply(Apply(q, MarkActive(id)), Requeue(entry, id)) == Apply(q, Requeue(entry, id))
    ensures id !in q.hash ==> Apply(q, Requeue(entry, id)) == Apply(q, DropOrphan(entry))
    ensures entry !in Apply(q, DropOrphan(entry)).stream && entry !in Apply(q, DropOrphan(entry)).pel
  {
  }

  /** A trim of one task deletes it. */
  lemma TrimIsDelete(q: Queue, z: ZSet, id: Id)
    requires (z, id) in q.zs && forall y :: y != z ==> (y, id) !in q.zs
    ensures Apply(q, Trim(z, [id])) == Apply(q, Delete(id))
    ensures id !in Apply(q, Delete(id)).hash && Nowhere(Apply(q, Delete(id)), id)
  {
    TrimNone(q, z);
    TrimOne(q, z, [], id);
    assert [] + [id] == [id];
    assert ZRemAll(q, id).zs == q.zs - {(z, id)};
  }

  /** What exists is not created again, what is locked is not enqueued, what fired does not fire. */
  lemma NothingTwice(q: Queue, msg: TaskMessage, at: int, key: UniqueKey, ttl: int)
    ensures msg.id in q.hash ==> Apply(q, EnqueueLink(msg)) == q == Apply(q, ScheduleLink(msg, at))
    ensures Locked(q, key) ==> Apply(q, EnqueueUnique(msg, key, ttl)) == q == Apply(q, ScheduleUnique(msg, key, at, ttl))
    ensures msg.id in q.dedup && q.now < q.dedup[msg.id] ==> Apply(q, EnqueuePeriodic(msg, ttl)) == q
  {
  }
}
