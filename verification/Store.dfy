/** One queue of the Redis store: task hashes, the stream with its consumer group, the
    four state ZSETs, the unique locks and the periodic dedup keys.

    Every Lua script and every MULTI/EXEC pipeline is one `Op`; `Apply` is its effect. */
module Store {
  import opened Ids
  import opened Base

  /** A task hash: its "state" field and, unless only a state was ever written, its "msg". */
  datatype Body = Body(msg: Option<TaskMessage>, state: TaskState)

  datatype ZSet = ZScheduled | ZRetry | ZArchived | ZCompleted

  /** The state recorded for tasks waiting in a ZSET. */
  function StateOf(z: ZSet): TaskState {
    match z
    case ZScheduled => Scheduled
    case ZRetry => Retry
    case ZArchived => Archived
    case ZCompleted => Completed
  }

  datatype Lock = Lock(holder: Id, deadline: int)

  datatype Queue = Queue(
    hash: map<Id, Body>,
    stream: map<nat, Id>,          // entry ID -> task ID
    nextEntry: nat,                // entry IDs grow
    cursor: nat,                   // entries from here on are not delivered yet
    pel: set<nat>,                 // delivered, not acknowledged
    zs: map<(ZSet, Id), int>,      // scores of all four ZSETs
    locks: map<UniqueKey, Lock>,
    dedup: map<Id, int>,           // trigger -> deadline of its dedup key
    now: int)

  const EMPTY: Queue := Queue(map[], map[], 0, 0, {}, map[], map[], map[], 0)

  datatype Op =
    | Enqueue(msg: TaskMessage)
    | EnqueueUnique(msg: TaskMessage, key: UniqueKey, ttl: int)
    | Schedule(msg: TaskMessage, at: int)
    | ScheduleUnique(msg: TaskMessage, key: UniqueKey, at: int, ttl: int)
    | EnqueuePeriodic(msg: TaskMessage, ttl: int)
    | EnqueueLink(msg: TaskMessage)
    | ScheduleLink(msg: TaskMessage, at: int)
    | ReadGroup(upto: nat)
    | MarkActive(id: Id)
    | DropOrphan(entry: nat)
    | Requeue(entry: nat, id: Id)
    | Finish(entry: nat, id: Id)
    | Move(entry: nat, msg: TaskMessage, z: ZSet, score: int)
    | Forward(z: ZSet, ids: seq<Id>)
    | RunTask(id: Id)
    | Delete(id: Id)
    | Trim(z: ZSet, ids: seq<Id>)
    | ReleaseUnique(key: UniqueKey, id: Id)
    | RenewUnique(key: UniqueKey, ttl: int)
    | Tick(t: int)

  // ----- Redis commands -----

  function HSet(q: Queue, id: Id, msg: TaskMessage, state: TaskState): Queue {
    q.(hash := q.hash[id := Body(Some(msg), state)])
  }

  /** HSET of the state field alone; it creates the hash when it is missing. */
  function HSetState(q: Queue, id: Id, state: TaskState): Queue {
    q.(hash := q.hash[id := Body(if id in q.hash then q.hash[id].msg else None, state)])
  }

  function Del(q: Queue, id: Id): Queue {
    q.(hash := q.hash - {id})
  }

  function XAdd(q: Queue, id: Id): Queue {
    q.(stream := q.stream[q.nextEntry := id], nextEntry := q.nextEntry + 1)
  }

  /** XACK and XDEL, which every script issues together. */
  function XAckDel(q: Queue, entry: nat): Queue {
    q.(stream := q.stream - {entry}, pel := q.pel - {entry})
  }

  function ZAdd(q: Queue, z: ZSet, id: Id, score: int): Queue {
    q.(zs := q.zs[(z, id) := score])
  }

  function ZRem(q: Queue, z: ZSet, id: Id): Queue {
    q.(zs := q.zs - {(z, id)})
  }

  /** ZREM from all four ZSETs. */
  function ZRemAll(q: Queue, id: Id): Queue {
    q.(zs := map k | k in q.zs && k.1 != id :: q.zs[k])
  }

  predicate InSomeZSet(q: Queue, id: Id) {
    (ZScheduled, id) in q.zs || (ZRetry, id) in q.zs || (ZArchived, id) in q.zs || (ZCompleted, id) in q.zs
  }

  /** SET NX PX succeeds when the key is missing or expired. */
  predicate Locked(q: Queue, key: UniqueKey) {
    key in q.locks && q.now < q.locks[key].deadline
  }

  function TtlMillis(ttl: int): (ms: int)
    ensures ms >= 1 && (ttl >= 1 ==> ms == ttl)
  {
    if ttl < 1 then 1 else ttl
  }

  // ----- scripts -----

  /** A task under a possibly reused ID: a stale completed or archived entry is cleared. */
  function Put(q: Queue, msg: TaskMessage): Queue {
    ZRem(ZRem(XAdd(HSet(q, msg.id, msg, Pending), msg.id), ZCompleted, msg.id), ZArchived, msg.id)
  }

  function PutScheduled(q: Queue, msg: TaskMessage, at: int): Queue {
    ZRem(ZRem(ZAdd(HSet(q, msg.id, msg, Scheduled), ZScheduled, msg.id, at), ZCompleted, msg.id), ZArchived, msg.id)
  }

  function TakeLock(q: Queue, key: UniqueKey, id: Id, ttl: int): Queue {
    q.(locks := q.locks[key := Lock(id, q.now + TtlMillis(ttl))])
  }

  /** The stream after one XADD per ID. */
  function Append(stream: map<nat, Id>, first: nat, ids: seq<Id>): (r: map<nat, Id>)
    ensures forall e :: e in r <==> e in stream || first <= e < first + |ids|
    ensures forall e :: e in stream && e < first ==> r[e] == stream[e]
    ensures forall e :: first <= e < first + |ids| ==> r[e] == ids[e - first]
    decreases |ids|
  {
    if ids == [] then stream else Append(stream[first := ids[0]], first + 1, ids[1..])
  }

  function ForwardAll(q: Queue, z: ZSet, ids: seq<Id>): Queue {
    q.(stream := Append(q.stream, q.nextEntry, ids),
       nextEntry := q.nextEntry + |ids|,
       hash := map id | id in q.hash.Keys + set i | 0 <= i < |ids| :: ids[i]
               :: if id in ids then Body(if id in q.hash then q.hash[id].msg else None, Pending) else q.hash[id],
       zs := map k | k in q.zs && !(k.0 == z && k.1 in ids) :: q.zs[k])
  }

  function Apply(q: Queue, op: Op): Queue {
    match op
    case Enqueue(msg) => Put(q, msg)
    case EnqueueUnique(msg, key, ttl) =>
      if Locked(q, key) then q else Put(TakeLock(q, key, msg.id, ttl), msg)
    case Schedule(msg, at) => PutScheduled(q, msg, at)
    case ScheduleUnique(msg, key, at, ttl) =>
      if Locked(q, key) then q else PutScheduled(TakeLock(q, key, msg.id, ttl), msg, at)
    case EnqueuePeriodic(msg, ttl) =>
      if msg.id in q.dedup && q.now < q.dedup[msg.id] then q
      else Put(q.(dedup := q.dedup[msg.id := q.now + TtlMillis(ttl)]), msg)
    case EnqueueLink(msg) =>
      if msg.id in q.hash then q else XAdd(HSet(q, msg.id, msg, Pending), msg.id)
    case ScheduleLink(msg, at) =>
      if msg.id in q.hash then q else ZAdd(HSet(q, msg.id, msg, Scheduled), ZScheduled, msg.id, at)
    case ReadGroup(upto) =>
      if q.cursor <= upto <= q.nextEntry
      then q.(cursor := upto, pel := q.pel + set e | e in q.stream && q.cursor <= e < upto)
      else q
    case MarkActive(id) => HSetState(q, id, Active)
    case DropOrphan(entry) => XAckDel(q, entry)
    case Requeue(entry, id) =>
      if id in q.hash then XAdd(HSetState(XAckDel(q, entry), id, Pending), id) else XAckDel(q, entry)
    case Finish(entry, id) => Del(XAckDel(q, entry), id)
    case Move(entry, msg, z, score) => ZAdd(HSet(XAckDel(q, entry), msg.id, msg, StateOf(z)), z, msg.id, score)
    case Forward(z, ids) => ForwardAll(q, z, ids)
    case RunTask(id) =>
      if InSomeZSet(q, id) && id in q.hash then HSetState(XAdd(ZRemAll(q, id), id), id, Pending)
      else ZRemAll(q, id)
    case Delete(id) => Del(ZRemAll(q, id), id)
    case Trim(z, ids) =>
      q.(hash := map id | id in q.hash && id !in ids :: q.hash[id],
         zs := map k | k in q.zs && !(k.0 == z && k.1 in ids) :: q.zs[k])
    case ReleaseUnique(key, id) =>
      if Locked(q, key) && q.locks[key].holder == id then q.(locks := q.locks - {key}) else q
    case RenewUnique(key, ttl) =>
      if Locked(q, key) && q.locks[key].deadline - q.now < TtlMillis(ttl)
      then q.(locks := q.locks[key := q.locks[key].(deadline := q.now + TtlMillis(ttl))])
      else q
    case Tick(t) => if q.now <= t then q.(now := t) else q
  }

  // ----- what an operation does to the hashes -----

  /** The body an operation may write. */
  function Written(op: Op): Option<Body> {
    match op
    case Enqueue(msg) => Some(Body(Some(msg), Pending))
    case EnqueueUnique(msg, _, _) => Some(Body(Some(msg), Pending))
    case Schedule(msg, _) => Some(Body(Some(msg), Scheduled))
    case ScheduleUnique(msg, _, _, _) => Some(Body(Some(msg), Scheduled))
    case EnqueuePeriodic(msg, _) => Some(Body(Some(msg), Pending))
    case EnqueueLink(msg) => Some(Body(Some(msg), Pending))
    case ScheduleLink(msg, _) => Some(Body(Some(msg), Scheduled))
    case Move(_, msg, z, _) => Some(Body(Some(msg), StateOf(z)))
    case _ => None
  }

  /** Every body after a step is the one written, or an old message whose state is unchanged
      or back in the pipeline, or has no message. */
  ghost predicate BodiesFrom(h: map<Id, Body>, h': map<Id, Body>, w: Option<Body>) {
    forall id :: id in h' && h'[id].msg.Some? ==>
      || (w.Some? && w.value.msg.Some? && w.value.msg.value.id == id && h'[id] == w.value)
      || (id in h && h'[id].msg == h[id].msg && (h'[id].state == h[id].state || h'[id].state in {Pending, Active}))
  }

  lemma EnqueueBodiesFrom(q: Queue, op: Op)
    requires op.Enqueue? || op.EnqueueUnique? || op.EnqueuePeriodic? || op.EnqueueLink?
    ensures BodiesFrom(q.hash, Apply(q, op).hash, Written(op))
  {
  }

  lemma DelayBodiesFrom(q: Queue, op: Op)
    requires op.Schedule? || op.ScheduleUnique? || op.ScheduleLink? || op.Move?
    ensures BodiesFrom(q.hash, Apply(q, op).hash, Written(op))
  {
  }

  lemma ForwardBodiesFrom(q: Queue, z: ZSet, ids: seq<Id>)
    ensures BodiesFrom(q.hash, ForwardAll(q, z, ids).hash, None)
  {
  }

  lemma ApplyBodies(q: Queue, op: Op)
    ensures BodiesFrom(q.hash, Apply(q, op).hash, Written(op))
  {
    if op.Enqueue? || op.EnqueueUnique? || op.EnqueuePeriodic? || op.EnqueueLink? { EnqueueBodiesFrom(q, op); }
    else if Written(op).Some? { DelayBodiesFrom(q, op); }
    else if op.Forward? { ForwardBodiesFrom(q, op.z, op.ids); }
  }

  /** Only a written body says completed, or one that said so before. */
  lemma ApplyCompleted(q: Queue, op: Op, id: Id)
    requires id in Apply(q, op).hash && Apply(q, op).hash[id].state == Completed
    ensures (Written(op).Some? && Apply(q, op).hash[id] == Written(op).value) || (id in q.hash && Apply(q, op).hash[id] == q.hash[id])
  {
    if op.Forward? { ForwardBodiesFrom(q, op.z, op.ids); }
  }

  /** The operations that can remove a hash. */
  predicate Removes(op: Op, id: Id) {
    match op
    case Finish(_, i) => i == id
    case Delete(i) => i == id
    case Trim(_, ids) => id in ids
    case _ => false
  }

  lemma ForwardKeeps(q: Queue, z: ZSet, ids: seq<Id>, id: Id)
    requires id in q.hash
    ensures id in ForwardAll(q, z, ids).hash && ForwardAll(q, z, ids).hash[id].msg == q.hash[id].msg
  {
  }

  lemma ApplyKeeps(q: Queue, op: Op, id: Id)
    requires id in q.hash && !Removes(op, id)
    ensures id in Apply(q, op).hash
    ensures q.hash[id].msg.Some? ==> Apply(q, op).hash[id].msg.Some?
  {
    if op.Forward? { ForwardKeeps(q, op.z, op.ids, id); }
  }

  /** Any sequence of operations on one queue. */
  ghost predicate IsOpRun(qs: seq<Queue>, ops: seq<Op>) {
    |qs| == |ops| + 1 && forall k :: 0 <= k < |ops| ==> qs[k + 1] == Apply(qs[k], ops[k])
  }
}
