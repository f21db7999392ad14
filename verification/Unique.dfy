/** The unique lock over runs of arbitrary store operations. Times are milliseconds. */
module Unique {
  import opened Ids
  import opened Base
  import opened Store
  import opened Builder

  predicate HeldBy(q: Queue, key: UniqueKey, id: Id, deadline: int) {
    Locked(q, key) && q.locks[key].holder == id && deadline <= q.locks[key].deadline
  }

  /** The operations that can take a lock. */
  predicate Takes(op: Op, key: UniqueKey) {
    (op.EnqueueUnique? || op.ScheduleUnique?) && op.key == key
  }

  /** Nothing but its holder's release ends an unexpired lock, and nothing shortens it. */
  lemma LockStep(q: Queue, op: Op, key: UniqueKey, id: Id, deadline: int)
    requires HeldBy(q, key, id, deadline) && op != ReleaseUnique(key, id) && Apply(q, op).now < deadline
    ensures HeldBy(Apply(q, op), key, id, deadline)
    ensures q.locks[key].deadline <= Apply(q, op).locks[key].deadline
  {
  }

  /** A lock that is released or expired comes back only when a task takes it. */
  lemma NoRevival(q: Queue, op: Op, key: UniqueKey)
    requires !Locked(q, key) && !Takes(op, key)
    ensures !Locked(Apply(q, op), key)
  {
  }

  lemma {:induction false} StaysFree(qs: seq<Queue>, ops: seq<Op>, key: UniqueKey, a: nat, b: nat)
    requires IsOpRun(qs, ops) && a <= b < |qs| && !Locked(qs[a], key) && forall k :: a <= k < b ==> !Takes(ops[k], key)
    ensures !Locked(qs[b], key)
  {
    if a < b {
      StaysFree(qs, ops, key, a, b - 1);
      NoRevival(qs[b - 1], ops[b - 1], key);
    }
  }

  lemma ClockGoesUp(q: Queue, op: Op)
    ensures q.now <= Apply(q, op).now
  {
  }

  lemma {:induction false} StaysHeld(qs: seq<Queue>, ops: seq<Op>, key: UniqueKey, id: Id, deadline: int, a: nat, b: nat)
    requires IsOpRun(qs, ops) && a <= b < |qs| && HeldBy(qs[a], key, id, deadline) && qs[b].now < deadline
    requires forall k :: a <= k < b ==> ops[k] != ReleaseUnique(key, id)
    ensures HeldBy(qs[b], key, id, deadline)
  {
    if a < b {
      ClockGoesUp(qs[b - 1], ops[b - 1]);
      StaysHeld(qs, ops, key, id, deadline, a, b - 1);
      LockStep(qs[b - 1], ops[b - 1], key, id, deadline);
    }
  }

  /** Uniqueness: from the step that takes the lock until its deadline or its holder's own
      release, every identical enqueue or schedule, in any run, is rejected without effect. */
  lemma DuplicatesRejected(qs: seq<Queue>, ops: seq<Op>, a: nat, b: nat)
    requires IsOpRun(qs, ops) && a < b < |ops| && (ops[a].EnqueueUnique? || ops[a].ScheduleUnique?) && Takes(ops[b], ops[a].key)
    requires !Locked(qs[a], ops[a].key) && qs[b].now < qs[a].now + TtlMillis(ops[a].ttl)
    requires forall k :: a < k < b ==> ops[k] != ReleaseUnique(ops[a].key, ops[a].msg.id)
    ensures Locked(qs[b], ops[a].key) && qs[b].locks[ops[a].key].holder == ops[a].msg.id
    ensures qs[b + 1] == qs[b]
  {
    assert qs[a + 1] == Apply(qs[a], ops[a]);
    StaysHeld(qs, ops, ops[a].key, ops[a].msg.id, qs[a].now + TtlMillis(ops[a].ttl), a + 1, b);
  }

  /** A delayed unique task's lock covers the whole delay and its ttl after that. */
  lemma DelayedLockCoversDelay(q: Queue, msg: TaskMessage, o: Options)
    requires o.uniqueTtl > 0 && o.processAt.Some? && o.processAt.value > q.now
    requires var op := Dispatch(msg, o, q.now); op.ScheduleUnique? && !Locked(q, op.key)
    ensures var op := Dispatch(msg, o, q.now);
            && HeldBy(Apply(q, op), op.key, msg.id, o.processAt.value + o.uniqueTtl)
            && op.msg.uniqueKey == Some(op.key)
            && (ZScheduled, msg.id) in Apply(q, op).zs
  {
  }

  /** Uniqueness, its end: after the holder's release the next identical enqueue succeeds. */
  lemma ReleaseFrees(q: Queue, key: UniqueKey, id: Id, other: UniqueKey)
    ensures var r := Apply(q, ReleaseUnique(key, id));
            && (Locked(q, key) && q.locks[key].holder == id ==> !Locked(r, key))
            && (Locked(q, key) && q.locks[key].holder != id ==> r == q)
            && (other != key ==> (other in r.locks <==> other in q.locks) && (other in r.locks ==> r.locks[other] == q.locks[other]))
  {
  }

  // ----- heartbeats -----

  /** Steps from `a` to `b` without the holder's release, and with a renewal for at least `ttl`
      before `ttl` has passed since the one before, or since step `a`. */
  ghost predicate Beaten(qs: seq<Queue>, ops: seq<Op>, key: UniqueKey, id: Id, ttl: int, a: nat, b: nat)
    requires IsOpRun(qs, ops) && a <= b < |qs|
  {
    && (forall k :: a <= k < b ==> ops[k] != ReleaseUnique(key, id))
    && (forall k :: a <= k <= b ==> qs[k].now < qs[LastBeat(ops, key, ttl, a, k)].now + ttl)
  }

  /** The last step in `a` to `k` before which the key was renewed for at least `ttl`. */
  function LastBeat(ops: seq<Op>, key: UniqueKey, ttl: int, a: nat, k: nat): (j: nat)
    requires a <= k <= |ops|
    ensures a <= j <= k
  {
    if k == a || (ops[k - 1].RenewUnique? && ops[k - 1].key == key && ops[k - 1].ttl >= ttl) then k else LastBeat(ops, key, ttl, a, k - 1)
  }

  lemma RenewalExtends(q: Queue, key: UniqueKey, id: Id, ttl: int)
    requires Locked(q, key) && q.locks[key].holder == id
    ensures var r := Apply(q, RenewUnique(key, ttl));
            && Locked(r, key) && r.locks[key].holder == id && q.now + ttl <= r.locks[key].deadline
            && (q.locks[key].deadline >= q.now + TtlMillis(ttl) ==> r == q)
  {
  }

  /** A heartbeat keeps a lock: as long as renewals come before the time they ask for is over, the
      holder has its lock, however long the task runs. */
  lemma {:induction false} HeartbeatKeepsLock(qs: seq<Queue>, ops: seq<Op>, key: UniqueKey, id: Id, ttl: int, a: nat, b: nat)
    requires IsOpRun(qs, ops) && a <= b < |qs| && ttl >= 1
    requires HeldBy(qs[a], key, id, qs[a].now + ttl) && Beaten(qs, ops, key, id, ttl, a, b)
    ensures HeldBy(qs[b], key, id, qs[LastBeat(ops, key, ttl, a, b)].now + ttl)
  {
    if a < b {
      HeartbeatKeepsLock(qs, ops, key, id, ttl, a, b - 1);
      var q, op := qs[b - 1], ops[b - 1];
      assert qs[b] == Apply(q, op);
      assert qs[b - 1].now < qs[LastBeat(ops, key, ttl, a, b - 1)].now + ttl;
      if op.RenewUnique? && op.key == key && op.ttl >= ttl {
        RenewalExtends(q, key, id, op.ttl);
      } else {
        assert qs[b].now < qs[LastBeat(ops, key, ttl, a, b)].now + ttl;
        LockStep(q, op, key, id, qs[LastBeat(ops, key, ttl, a, b - 1)].now + ttl);
      }
    }
  }

  lemma NotExtendedBy(q: Queue, op: Op, key: UniqueKey)
    requires Locked(q, key) && !Takes(op, key) && !(op.RenewUnique? && op.key == key)
    ensures Locked(Apply(q, op), key) ==> Apply(q, op).locks[key].deadline <= q.locks[key].deadline
  {
  }

  lemma {:induction false} NotExtended(qs: seq<Queue>, ops: seq<Op>, key: UniqueKey, deadline: int, a: nat, b: nat)
    requires IsOpRun(qs, ops) && a <= b < |qs|
    requires Locked(qs[a], key) ==> qs[a].locks[key].deadline <= deadline
    requires forall k :: a <= k < b ==> !Takes(ops[k], key) && !(ops[k].RenewUnique? && ops[k].key == key)
    ensures Locked(qs[b], key) ==> qs[b].locks[key].deadline <= deadline
  {
    if a < b {
      NotExtended(qs, ops, key, deadline, a, b - 1);
      if Locked(qs[b - 1], key) { NotExtendedBy(qs[b - 1], ops[b - 1], key); } else { NoRevival(qs[b - 1], ops[b - 1], key); }
    }
  }

  /** A lock ends with its ttl: once that is over, and nobody renewed the lock or took it again, the
      next identical enqueue or schedule succeeds, and its task has the lock. */
  lemma LockLapses(qs: seq<Queue>, ops: seq<Op>, a: nat, b: nat)
    requires IsOpRun(qs, ops) && a < b < |ops| && (ops[a].EnqueueUnique? || ops[a].ScheduleUnique?) && Takes(ops[b], ops[a].key)
    requires !Locked(qs[a], ops[a].key) && qs[a].now + TtlMillis(ops[a].ttl) <= qs[b].now
    requires forall k :: a < k < b ==> !Takes(ops[k], ops[a].key) && !(ops[k].RenewUnique? && ops[k].key == ops[a].key)
    ensures qs[b + 1].hash == qs[b].hash[ops[b].msg.id := Body(Some(ops[b].msg), if ops[b].EnqueueUnique? then Pending else Scheduled)]
    ensures HeldBy(qs[b + 1], ops[a].key, ops[b].msg.id, qs[b].now + TtlMillis(ops[b].ttl))
  {
    var key := ops[a].key;
    assert qs[a + 1] == Apply(qs[a], ops[a]) && qs[b + 1] == Apply(qs[b], ops[b]);
    NotExtended(qs, ops, key, qs[a].now + TtlMillis(ops[a].ttl), a + 1, b);
    assert !Locked(qs[b], key);
  }
}
