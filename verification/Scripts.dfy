/** The Lua scripts, pipelines and loops of the store as they run on Redis' data, each
    proved against the operation it is in `Store`. */
module Scripts {
  import opened Ids
  import opened Base
  import opened Store

  /** The members of one ZSET. */
  function Members(q: Queue, z: ZSet): set<Id> {
    set k | k in q.zs && k.0 == z :: k.1
  }

  function Score(q: Queue, z: ZSet, id: Id): int
    requires (z, id) in q.zs
  {
    q.zs[(z, id)]
  }

  /** The `ids` are the lowest-scored members with a score up to `cutoff`, as many as there
      are but at most `limit`, in score order. */
  ghost predicate IsRange(q: Queue, z: ZSet, cutoff: Option<int>, limit: nat, ids: seq<Id>) {
    && |ids| <= limit
    && (forall i :: 0 <= i < |ids| ==> (z, ids[i]) in q.zs && InReach(Score(q, z, ids[i]), cutoff))
    && (forall i, j :: 0 <= i < j < |ids| ==> ids[i] != ids[j] && Score(q, z, ids[i]) <= Score(q, z, ids[j]))
    && (forall id, i :: (z, id) in q.zs && id !in ids && 0 <= i < |ids| ==> Score(q, z, ids[i]) <= Score(q, z, id))
    && (|ids| < limit ==> forall id :: (z, id) in q.zs && id !in ids ==> !InReach(Score(q, z, id), cutoff))
  }

  predicate InReach(score: int, cutoff: Option<int>) {
    cutoff.None? || score <= cutoff.value
  }

  function ApplyAll(q: Queue, ops: seq<Op>): Queue {
    if ops == [] then q else Apply(ApplyAll(q, ops[..|ops| - 1]), ops[|ops| - 1])
  }

  lemma ApplyMore(q: Queue, ops: seq<Op>, op: Op)
    ensures ApplyAll(q, ops + [op]) == Apply(ApplyAll(q, ops), op)
  {
    assert (ops + [op])[..|ops|] == ops;
  }

  class Redis {
    var hash: map<Id, Body>
    var stream: map<nat, Id>
    var nextEntry: nat
    var cursor: nat
    var pel: set<nat>
    var zs: map<(ZSet, Id), int>
    var locks: map<UniqueKey, Lock>
    var dedup: map<Id, int>
    var now: int

    ghost function Value(): Queue
      reads this
    {
      Queue(hash, stream, nextEntry, cursor, pel, zs, locks, dedup, now)
    }

    constructor ()
      ensures Value() == EMPTY
    {
      hash, stream, nextEntry, cursor, pel, zs := map[], map[], 0, 0, {}, map[];
      locks, dedup, now := map[], map[], 0;
    }

    // ----- commands -----

    method SetBody(id: Id, msg: TaskMessage, state: TaskState)
      modifies this`hash
      ensures Value() == HSet(old(Value()), id, msg, state)
    {
      hash := hash[id := Body(Some(msg), state)];
    }

    method SetState(id: Id, state: TaskState)
      modifies this`hash
      ensures Value() == HSetState(old(Value()), id, state)
    {
      hash := hash[id := Body(if id in hash then hash[id].msg else None, state)];
    }

    method AddEntry(id: Id)
      modifies this`stream, this`nextEntry
      ensures Value() == XAdd(old(Value()), id)
    {
      stream, nextEntry := stream[nextEntry := id], nextEntry + 1;
    }

    method AckAndDelete(entry: nat)
      modifies this`stream, this`pel
      ensures Value() == XAckDel(old(Value()), entry)
    {
      stream, pel := stream - {entry}, pel - {entry};
    }

    // ----- enqueue scripts -----

    method Enqueue(msg: TaskMessage)
      modifies this
      ensures Value() == Apply(old(Value()), Op.Enqueue(msg))
    {
      SetBody(msg.id, msg, Pending);
      AddEntry(msg.id);
      zs := zs - {(ZCompleted, msg.id)};
      zs := zs - {(ZArchived, msg.id)};
    }

    method Schedule(msg: TaskMessage, at: int)
      modifies this
      ensures Value() == Apply(old(Value()), Op.Schedule(msg, at))
    {
      SetBody(msg.id, msg, Scheduled);
      zs := zs[(ZScheduled, msg.id) := at];
      zs := zs - {(ZCompleted, msg.id)};
      zs := zs - {(ZArchived, msg.id)};
    }

    method TakeUnique(key: UniqueKey, id: Id, ttl: int) returns (taken: bool)
      modifies this`locks
      ensures taken == !Locked(old(Value()), key)
      ensures Value() == if taken then TakeLock(old(Value()), key, id, ttl) else old(Value())
    {
      if key in locks && now < locks[key].deadline { return false; }
      locks := locks[key := Lock(id, now + TtlMillis(ttl))];
      return true;
    }

    /** False is ErrDuplicateTask. */
    method EnqueueUnique(msg: TaskMessage, key: UniqueKey, ttl: int) returns (ok: bool)
      modifies this
      ensures ok == !Locked(old(Value()), key)
      ensures Value() == Apply(old(Value()), Op.EnqueueUnique(msg, key, ttl))
    {
      ok := TakeUnique(key, msg.id, ttl);
      if ok { Enqueue(msg); }
    }

    method ScheduleUnique(msg: TaskMessage, key: UniqueKey, at: int, ttl: int) returns (ok: bool)
      modifies this
      ensures ok == !Locked(old(Value()), key)
      ensures Value() == Apply(old(Value()), Op.ScheduleUnique(msg, key, at, ttl))
    {
      ok := TakeUnique(key, msg.id, ttl);
      if ok { Schedule(msg, at); }
    }

    /** Create a chain successor, at once or delayed; false when it exists already. */
    method EnqueueChainLink(msg: TaskMessage, delay: int, clock: int) returns (created: bool)
      modifies this
      ensures created == (msg.id !in old(hash))
      ensures Value() == Apply(old(Value()), if delay > 0 then ScheduleLink(msg, clock + delay) else EnqueueLink(msg))
    {
      if msg.id in hash { return false; }
      if delay > 0 {
        SetBody(msg.id, msg, Scheduled);
        zs := zs[(ZScheduled, msg.id) := clock + delay];
      } else {
        SetBody(msg.id, msg, Pending);
        AddEntry(msg.id);
      }
      return true;
    }

    // ----- scripts that end or move a delivery -----

    method Requeue(entry: nat, id: Id)
      modifies this
      ensures Value() == Apply(old(Value()), Op.Requeue(entry, id))
    {
      AckAndDelete(entry);
      if id in hash {
        SetState(id, Pending);
        AddEntry(id);
      }
    }

    method MoveToZSet(entry: nat, msg: TaskMessage, z: ZSet, score: int)
      modifies this
      ensures Value() == Apply(old(Value()), Move(entry, msg, z, score))
    {
      AckAndDelete(entry);
      SetBody(msg.id, msg, StateOf(z));
      zs := zs[(z, msg.id) := score];
    }

    method Release(msg: TaskMessage)
      modifies this`locks
      ensures Value() == if msg.uniqueKey.Some? then Apply(old(Value()), ReleaseUnique(msg.uniqueKey.value, msg.id)) else old(Value())
    {
      if msg.uniqueKey.None? { return; }
      var key := msg.uniqueKey.value;
      if key in locks && now < locks[key].deadline && locks[key].holder == msg.id {
        locks := locks - {key};
      }
    }

    /** Acknowledge a success: keep the record for its retention, or drop it. */
    method Done(entry: nat, msg: TaskMessage, completedAt: int)
      modifies this
      ensures var q := Apply(old(Value()), if msg.retention > 0 then Move(entry, msg, ZCompleted, completedAt + msg.retention)
                                           else Finish(entry, msg.id));
              Value() == if msg.uniqueKey.Some? then Apply(q, ReleaseUnique(msg.uniqueKey.value, msg.id)) else q
    {
      if msg.retention > 0 {
        MoveToZSet(entry, msg, ZCompleted, completedAt + msg.retention);
      } else {
        AckAndDelete(entry);
        hash := hash - {msg.id};
      }
      Release(msg);
    }

    // ----- inspector -----

    method RunTask(id: Id) returns (promoted: bool)
      modifies this
      ensures promoted == (InSomeZSet(old(Value()), id) && id in old(hash))
      ensures Value() == Apply(old(Value()), Op.RunTask(id))
    {
      var removed := (ZScheduled, id) in zs || (ZRetry, id) in zs || (ZArchived, id) in zs || (ZCompleted, id) in zs;
      zs := map k | k in zs && k.1 != id :: zs[k];
      if !removed || id !in hash { return false; }
      AddEntry(id);
      SetState(id, Pending);
      return true;
    }

    method DeleteTask(id: Id)
      modifies this
      ensures var q := Apply(old(Value()), Delete(id));
              var msg := if id in old(hash) then old(hash)[id].msg else None;
              Value() == if msg.Some? && msg.value.uniqueKey.Some?
                         then Apply(q, ReleaseUnique(msg.value.uniqueKey.value, msg.value.id)) else q
    {
      var msg := if id in hash then hash[id].msg else None;
      zs := map k | k in zs && k.1 != id :: zs[k];
      hash := hash - {id};
      if msg.Some? { Release(msg.value); }
    }

    method RenewOne(key: UniqueKey, ttl: int)
      modifies this`locks
      ensures Value() == Apply(old(Value()), Op.RenewUnique(key, ttl))
    {
      var ms := TtlMillis(ttl);
      if key in locks && now < locks[key].deadline && locks[key].deadline - now < ms {
        locks := locks[key := locks[key].(deadline := now + ms)];
      }
    }

    /** Raise the TTL of each lock that has less left. */
    method RenewUnique(keys: seq<UniqueKey>, ttl: int)
      modifies this`locks
      ensures Value() == ApplyAll(old(Value()), Renewals(keys, ttl))
    {
      for i := 0 to |keys|
        invariant Value() == ApplyAll(old(Value()), Renewals(keys[..i], ttl))
      {
        RenewOne(keys[i], ttl);
        assert Renewals(keys[..i + 1], ttl) == Renewals(keys[..i], ttl) + [Op.RenewUnique(keys[i], ttl)];
        ApplyMore(old(Value()), Renewals(keys[..i], ttl), Op.RenewUnique(keys[i], ttl));
      }
      assert keys[..|keys|] == keys;
    }

    /** Enqueue a trigger's task unless its dedup key is still there. */
    method EnqueuePeriodic(msg: TaskMessage, ttl: int) returns (ok: bool)
      modifies this
      ensures ok == !(msg.id in old(dedup) && old(now) < old(dedup)[msg.id])
      ensures Value() == Apply(old(Value()), Op.EnqueuePeriodic(msg, ttl))
    {
      if msg.id in dedup && now < dedup[msg.id] { return false; }
      dedup := dedup[msg.id := now + TtlMillis(ttl)];
      Enqueue(msg);
      return true;
    }

    // ----- delivery -----

    /** XREADGROUP ">" COUNT: the next undelivered entries become pending. */
    method ReadGroup(count: nat) returns (entries: seq<nat>)
      requires cursor <= nextEntry
      modifies this`cursor, this`pel
      ensures IsDelivery(old(Value()), cursor, count, entries)
      ensures Value() == Apply(old(Value()), Op.ReadGroup(cursor))
    {
      entries := [];
      ghost var from := cursor;
      while cursor < nextEntry && |entries| < count
        invariant from <= cursor <= nextEntry
        invariant |entries| <= count && forall i :: 0 <= i < |entries| ==> entries[i] < cursor
        invariant forall i, j :: 0 <= i < j < |entries| ==> entries[i] < entries[j]
        invariant forall e :: e in entries <==> e in stream && from <= e < cursor
        invariant pel == old(pel) + set e | e in stream && from <= e < cursor
      {
        if cursor in stream {
          entries, pel := entries + [cursor], pel + {cursor};
        }
        cursor := cursor + 1;
      }
    }

    /** Read up to `count` entries, load their bodies, drop the orphans and mark the rest
        active; no task is the source's ErrNoTask. */
    method DequeueBatch(count: int) returns (tasks: seq<(TaskMessage, nat)>, ghost entries: seq<nat>)
      requires cursor <= nextEntry
      modifies this
      ensures IsDelivery(old(Value()), cursor, if count < 1 then 1 else count, entries)
      ensures var q := Apply(old(Value()), Op.ReadGroup(cursor));
              && tasks == Loaded(q, entries)
              && Value() == ApplyAll(ApplyAll(q, DropOps(Orphans(q, entries))), ActiveOps(tasks))
    {
      var read := ReadGroup(if count < 1 then 1 else count);
      entries, tasks := read, [];
      var orphans: seq<nat> := [];
      ghost var q := Value();
      for i := 0 to |read|
        invariant Value() == q && tasks == Loaded(q, read[..i]) && orphans == Orphans(q, read[..i])
      {
        var e := read[i];
        assert read[..i + 1][..i] == read[..i];
        if e in stream && stream[e] in hash && hash[stream[e]].msg.Some? {
          tasks := tasks + [(hash[stream[e]].msg.value, e)];
        } else {
          orphans := orphans + [e];
        }
      }
      assert read[..|read|] == read;
      DropAll(orphans);
      MarkAll(tasks);
    }

    method DropAll(orphans: seq<nat>)
      modifies this`stream, this`pel
      ensures Value() == ApplyAll(old(Value()), DropOps(orphans))
    {
      for i := 0 to |orphans|
        invariant Value() == ApplyAll(old(Value()), DropOps(orphans[..i]))
      {
        AckAndDelete(orphans[i]);
        assert DropOps(orphans[..i + 1]) == DropOps(orphans[..i]) + [DropOrphan(orphans[i])];
        ApplyMore(old(Value()), DropOps(orphans[..i]), DropOrphan(orphans[i]));
      }
      assert orphans[..|orphans|] == orphans;
    }

    method MarkAll(tasks: seq<(TaskMessage, nat)>)
      modifies this`hash
      ensures Value() == ApplyAll(old(Value()), ActiveOps(tasks))
    {
      for i := 0 to |tasks|
        invariant Value() == ApplyAll(old(Value()), ActiveOps(tasks[..i]))
      {
        SetState(tasks[i].0.id, Active);
        assert ActiveOps(tasks[..i + 1]) == ActiveOps(tasks[..i]) + [MarkActive(tasks[i].0.id)];
        ApplyMore(old(Value()), ActiveOps(tasks[..i]), MarkActive(tasks[i].0.id));
      }
      assert tasks[..|tasks|] == tasks;
    }

    // ----- recovery -----

    method Reclaim(entry: nat, id: Id, at: int) returns (dead: seq<TaskMessage>, retried: nat)
      modifies this
      ensures Value() == Reclaimed(old(Value()), entry, id, at)
      ensures dead == DeadOf(old(Value()), id) && retried == if Retries(old(Value()), id) then 1 else 0
    {
      if id !in hash || hash[id].msg.None? {
        AckAndDelete(entry);
        return [], 0;
      }
      var msg := hash[id].msg.value;
      if msg.retried >= msg.maxRetry {
        MoveToZSet(entry, msg, ZArchived, at);
        Release(msg);
        return [msg], 0;
      }
      MoveToZSet(entry, msg.(retried := msg.retried + 1), ZRetry, at);
      return [], 1;
    }

    /** Treat every entry whose lease lapsed as one failed attempt. */
    method Recover(claimed: seq<(nat, Id)>, at: int) returns (recovered: nat, archived: seq<TaskMessage>)
      modifies this
      ensures Value() == ReclaimedAll(old(Value()), claimed, at)
      ensures Keyed(old(Value())) && Apart(claimed) ==>
                && recovered == |set k | 0 <= k < |claimed| && Retries(old(Value()), claimed[k].1)|
                && archived == AllDead(old(Value()), claimed)
    {
      recovered, archived := 0, [];
      for i := 0 to |claimed|
        invariant Value() == ReclaimedAll(old(Value()), claimed[..i], at)
        invariant Keyed(old(Value())) && Apart(claimed) ==>
          recovered == |set k | 0 <= k < i && Retries(old(Value()), claimed[k].1)| && archived == AllDead(old(Value()), claimed[..i])
      {
        var dead, again := Reclaim(claimed[i].0, claimed[i].1, at);
        assert claimed[..i + 1][..i] == claimed[..i];
        if Keyed(old(Value())) && Apart(claimed) {
          Unclaimed(old(Value()), claimed[..i], at, claimed[i].0, claimed[i].1);
          OneMoreRetry(old(Value()), claimed, i);
        }
        recovered, archived := recovered + again, archived + dead;
      }
      assert claimed[..|claimed|] == claimed;
    }

    // ----- ranges of a ZSET -----

    method Lowest(z: ZSet, ids: set<Id>) returns (low: Id)
      requires ids != {} && forall id :: id in ids ==> (z, id) in zs
      ensures low in ids && forall id :: id in ids ==> zs[(z, low)] <= zs[(z, id)]
    {
      low :| low in ids;
      var rest := ids - {low};
      while rest != {}
        invariant low in ids && rest <= ids
        invariant forall id :: id in ids && id !in rest ==> zs[(z, low)] <= zs[(z, id)]
        decreases |rest|
      {
        var id :| id in rest;
        if zs[(z, id)] < zs[(z, low)] { low := id; }
        rest := rest - {id};
      }
    }

    /** ZRANGEBYSCORE -inf cutoff LIMIT 0 limit, or ZRANGE 0 limit-1 without a cutoff. */
    method Range(z: ZSet, cutoff: Option<int>, limit: nat) returns (ids: seq<Id>)
      ensures IsRange(Value(), z, cutoff, limit, ids)
    {
      ids := [];
      var rest := set k | k in zs && k.0 == z && InReach(zs[k], cutoff) :: k.1;
      while rest != {} && |ids| < limit
        invariant Ranging(Value(), z, cutoff, limit, ids, rest)
        decreases |rest|
      {
        var low := Lowest(z, rest);
        RangeStep(Value(), z, cutoff, limit, ids, rest, low);
        ids := ids + [low];
        rest := rest - {low};
      }
      RangeDone(Value(), z, cutoff, limit, ids, rest);
    }

    // ----- forwarder -----

    method ForwardTask(z: ZSet, id: Id)
      modifies this
      ensures Value() == ZRem(HSetState(XAdd(old(Value()), id), id, Pending), z, id)
    {
      AddEntry(id);
      SetState(id, Pending);
      zs := zs - {(z, id)};
    }

    method ForwardTasks(z: ZSet, ids: seq<Id>)
      modifies this
      ensures Value() == ForwardAll(old(Value()), z, ids)
    {
      ForwardNone(Value(), z);
      for i := 0 to |ids|
        invariant Value() == ForwardAll(old(Value()), z, ids[..i])
      {
        ForwardTask(z, ids[i]);
        ForwardOne(old(Value()), z, ids[..i], ids[i]);
        assert ids[..i + 1] == ids[..i] + [ids[i]];
      }
      assert ids[..|ids|] == ids;
    }

    /** Move the due tasks of a ZSET, at most `max` of them, to the stream. */
    method Forward(z: ZSet, at: int, max: nat) returns (moved: nat, ghost ids: seq<Id>)
      modifies this
      ensures IsRange(old(Value()), z, Some(at), max, ids) && moved == |ids|
      ensures Value() == Apply(old(Value()), Op.Forward(z, ids))
    {
      var due := Range(z, Some(at), max);
      ForwardTasks(z, due);
      ids, moved := due, |due|;
    }

    // ----- janitor -----

    /** DEL and ZREM of every listed task. */
    method Remove(z: ZSet, ids: seq<Id>)
      modifies this
      ensures Value() == Apply(old(Value()), Op.Trim(z, ids))
    {
      TrimNone(Value(), z);
      for i := 0 to |ids|
        invariant Value() == Apply(old(Value()), Op.Trim(z, ids[..i]))
      {
        hash := hash - {ids[i]};
        zs := zs - {(z, ids[i])};
        TrimOne(old(Value()), z, ids[..i], ids[i]);
        assert ids[..i + 1] == ids[..i] + [ids[i]];
      }
      assert ids[..|ids|] == ids;
    }

    method Trim(z: ZSet, cutoff: int, maxSize: int, batch: nat) returns (removed: nat, ghost expired: seq<Id>, ghost excess: seq<Id>)
      modifies this
      ensures IsRange(old(Value()), z, Some(cutoff), batch, expired) && removed == |expired| + |excess|
      ensures var q := Apply(old(Value()), Op.Trim(z, expired));
              && IsRange(q, z, None, OverSize(q, z, maxSize, batch), excess)
              && Value() == Apply(q, Op.Trim(z, excess))
    {
      var old1 := Range(z, Some(cutoff), batch);
      expired, excess := old1, [];
      Remove(z, old1);
      removed := |old1|;
      TrimNone(Value(), z);
      if maxSize >= 0 {
        var over := |set k | k in zs && k.0 == z :: k.1| - maxSize;
        if over > 0 {
          if over > batch { over := batch; }
          var old2 := Range(z, None, over);
          excess := old2;
          Remove(z, old2);
          removed := removed + |old2|;
        }
      }
    }
  }

  function Renewals(keys: seq<UniqueKey>, ttl: int): seq<Op> {
    seq(|keys|, i requires 0 <= i < |keys| => Op.RenewUnique(keys[i], ttl))
  }

  // ----- delivery -----

  /** The entries a delivery up to `upto` hands out, in stream order. */
  ghost predicate IsDelivery(q: Queue, upto: nat, count: nat, entries: seq<nat>) {
    && q.cursor <= upto <= Max(q.cursor, q.nextEntry) && |entries| <= count
    && (forall i, j :: 0 <= i < j < |entries| ==> entries[i] < entries[j])
    && (forall e :: e in entries <==> e in q.stream && q.cursor <= e < upto)
    && (|entries| < count ==> upto >= q.nextEntry)
  }

  function Max(a: nat, b: nat): nat { if a < b then b else a }

  predicate HasBody(q: Queue, entry: nat) {
    entry in q.stream && q.stream[entry] in q.hash && q.hash[q.stream[entry]].msg.Some?
  }

  /** The tasks among some entries, and the entries whose body is gone. */
  function Loaded(q: Queue, entries: seq<nat>): seq<(TaskMessage, nat)> {
    if entries == [] then []
    else
      var e := entries[|entries| - 1];
      Loaded(q, entries[..|entries| - 1]) + if HasBody(q, e) then [(q.hash[q.stream[e]].msg.value, e)] else []
  }

  function Orphans(q: Queue, entries: seq<nat>): seq<nat> {
    if entries == [] then []
    else
      var e := entries[|entries| - 1];
      Orphans(q, entries[..|entries| - 1]) + if HasBody(q, e) then [] else [e]
  }

  function DropOps(entries: seq<nat>): seq<Op> {
    seq(|entries|, i requires 0 <= i < |entries| => DropOrphan(entries[i]))
  }

  function ActiveOps(tasks: seq<(TaskMessage, nat)>): seq<Op> {
    seq(|tasks|, i requires 0 <= i < |tasks| => MarkActive(tasks[i].0.id))
  }

  /** Every entry is either a task or an orphan. */
  lemma {:induction false} LoadedOrOrphan(q: Queue, entries: seq<nat>, e: nat)
    requires e in entries
    ensures if HasBody(q, e) then (q.hash[q.stream[e]].msg.value, e) in Loaded(q, entries) && e !in Orphans(q, entries)
            else e in Orphans(q, entries) && forall t :: t in Loaded(q, entries) ==> t.1 != e
    decreases |entries|
  {
    var n := |entries| - 1;
    assert entries == entries[..n] + [entries[n]];
    if e in entries[..n] { LoadedOrOrphan(q, entries[..n], e); }
    else { NotListed(q, entries[..n], e); }
  }

  lemma {:induction false} NotListed(q: Queue, entries: seq<nat>, e: nat)
    requires e !in entries
    ensures e !in Orphans(q, entries) && forall t :: t in Loaded(q, entries) ==> t.1 != e
    decreases |entries|
  {
    if entries != [] { NotListed(q, entries[..|entries| - 1], e); }
  }

  // ----- recovery -----

  /** What a reclaim does to one entry: a failed attempt, or an orphan dropped. */
  function Reclaimed(q: Queue, entry: nat, id: Id, now: int): Queue {
    if id !in q.hash || q.hash[id].msg.None? then Apply(q, DropOrphan(entry))
    else
      var msg := q.hash[id].msg.value;
      if msg.retried >= msg.maxRetry then
        var r := Apply(q, Move(entry, msg, ZArchived, now));
        if msg.uniqueKey.Some? then Apply(r, ReleaseUnique(msg.uniqueKey.value, msg.id)) else r
      else Apply(q, Move(entry, msg.(retried := msg.retried + 1), ZRetry, now))
  }

  predicate Retries(q: Queue, id: Id) {
    id in q.hash && q.hash[id].msg.Some? && q.hash[id].msg.value.retried < q.hash[id].msg.value.maxRetry
  }

  function DeadOf(q: Queue, id: Id): seq<TaskMessage> {
    if id in q.hash && q.hash[id].msg.Some? && !Retries(q, id) then [q.hash[id].msg.value] else []
  }

  /** The messages of the claimed tasks whose budget is spent, in order. */
  function AllDead(q: Queue, claimed: seq<(nat, Id)>): seq<TaskMessage> {
    if claimed == [] then [] else AllDead(q, claimed[..|claimed| - 1]) + DeadOf(q, claimed[|claimed| - 1].1)
  }

  /** No entry and no task is claimed twice. */
  ghost predicate Apart(claimed: seq<(nat, Id)>) {
    forall i, j :: 0 <= i < j < |claimed| ==> claimed[i].0 != claimed[j].0 && claimed[i].1 != claimed[j].1
  }

  lemma OneMoreRetry(q: Queue, claimed: seq<(nat, Id)>, i: nat)
    requires i < |claimed|
    ensures |set k | 0 <= k < i + 1 && Retries(q, claimed[k].1)| ==
            |set k | 0 <= k < i && Retries(q, claimed[k].1)| + if Retries(q, claimed[i].1) then 1 else 0
  {
    var less := set k | 0 <= k < i && Retries(q, claimed[k].1);
    assert (set k | 0 <= k < i + 1 && Retries(q, claimed[k].1)) == if Retries(q, claimed[i].1) then less + {i} else less;
  }

  function ReclaimedAll(q: Queue, claimed: seq<(nat, Id)>, now: int): Queue {
    if claimed == [] then q
    else
      var c := claimed[|claimed| - 1];
      Reclaimed(ReclaimedAll(q, claimed[..|claimed| - 1], now), c.0, c.1, now)
  }

  /** Every stored message sits under its own ID. */
  ghost predicate Keyed(q: Queue) {
    forall id :: id in q.hash && q.hash[id].msg.Some? ==> q.hash[id].msg.value.id == id
  }

  /** The entry is gone; its task waits for a retry with one attempt used up, or is archived
      with its budget exhausted. */
  ghost predicate Settled(q: Queue, r: Queue, entry: nat, id: Id, now: int) {
    && entry !in r.stream && entry !in r.pel
    && (id in q.hash && q.hash[id].msg.Some? ==>
          var msg := q.hash[id].msg.value;
          && id in r.hash
          && if msg.retried < msg.maxRetry
             then r.hash[id] == Body(Some(msg.(retried := msg.retried + 1)), Retry) && (ZRetry, id) in r.zs && r.zs[(ZRetry, id)] == now
             else r.hash[id] == Body(Some(msg), Archived) && (ZArchived, id) in r.zs && r.zs[(ZArchived, id)] == now)
  }

  lemma MoveIs(q: Queue, entry: nat, msg: TaskMessage, z: ZSet, score: int)
    ensures Apply(q, Move(entry, msg, z, score)) ==
            q.(stream := q.stream - {entry}, pel := q.pel - {entry},
               hash := q.hash[msg.id := Body(Some(msg), StateOf(z))], zs := q.zs[(z, msg.id) := score])
  {
  }

  lemma ReleaseIs(q: Queue, key: UniqueKey, id: Id)
    ensures exists locks :: Apply(q, ReleaseUnique(key, id)) == q.(locks := locks)
  {
    assert Apply(q, ReleaseUnique(key, id)) == q.(locks := Apply(q, ReleaseUnique(key, id)).locks);
  }

  /** The parts of the store a reclaim writes. */
  ghost predicate Wrote(q: Queue, r: Queue, entry: nat, id: Id, body: Body, z: ZSet, score: int) {
    && r.stream == q.stream - {entry} && r.pel == q.pel - {entry}
    && r.hash == q.hash[id := body] && r.zs == q.zs[(z, id) := score]
  }

  lemma ReclaimIs(q: Queue, entry: nat, id: Id, now: int)
    requires Keyed(q)
    ensures var r := Reclaimed(q, entry, id, now);
            if id !in q.hash || q.hash[id].msg.None? then
              r.stream == q.stream - {entry} && r.pel == q.pel - {entry} && r.hash == q.hash && r.zs == q.zs
            else
              var msg := q.hash[id].msg.value;
              if msg.retried < msg.maxRetry then Wrote(q, r, entry, id, Body(Some(msg.(retried := msg.retried + 1)), Retry), ZRetry, now)
              else Wrote(q, r, entry, id, Body(Some(msg), Archived), ZArchived, now)
  {
    if id in q.hash && q.hash[id].msg.Some? {
      var msg := q.hash[id].msg.value;
      MoveIs(q, entry, msg, ZArchived, now);
      MoveIs(q, entry, msg.(retried := msg.retried + 1), ZRetry, now);
      if msg.uniqueKey.Some? { ReleaseIs(Apply(q, Move(entry, msg, ZArchived, now)), msg.uniqueKey.value, msg.id); }
    }
  }

  lemma ReclaimSettles(q: Queue, entry: nat, id: Id, now: int)
    requires Keyed(q)
    ensures Settled(q, Reclaimed(q, entry, id, now), entry, id, now) && Keyed(Reclaimed(q, entry, id, now))
  {
    ReclaimIs(q, entry, id, now);
  }

  lemma ReleaseFrees(q: Queue, key: UniqueKey, id: Id)
    ensures Apply(q, ReleaseUnique(key, id)).locks == if Locked(q, key) && q.locks[key].holder == id then q.locks - {key} else q.locks
  {
  }

  lemma ReclaimLocks(q: Queue, entry: nat, id: Id, now: int)
    requires Keyed(q)
    ensures var r := Reclaimed(q, entry, id, now);
            r.locks == if id !in q.hash || q.hash[id].msg.None? || Retries(q, id) || q.hash[id].msg.value.uniqueKey.None? then q.locks
                       else var key := q.hash[id].msg.value.uniqueKey.value;
                            if Locked(q, key) && q.locks[key].holder == id then q.locks - {key} else q.locks
  {
    if id in q.hash && q.hash[id].msg.Some? {
      var msg := q.hash[id].msg.value;
      MoveIs(q, entry, msg, ZArchived, now);
      MoveIs(q, entry, msg.(retried := msg.retried + 1), ZRetry, now);
      if msg.uniqueKey.Some? { ReleaseFrees(Apply(q, Move(entry, msg, ZArchived, now)), msg.uniqueKey.value, msg.id); }
    }
  }

  /** A task that is archived gives up its lock, and only its own; one that is retried keeps it. */
  lemma ReclaimFrees(q: Queue, entry: nat, id: Id, now: int, key: UniqueKey, r: Queue)
    requires Keyed(q) && r == Reclaimed(q, entry, id, now)
    ensures key in r.locks ==> key in q.locks && r.locks[key] == q.locks[key]
    ensures key in q.locks && key !in r.locks <==>
              && Locked(q, key) && q.locks[key].holder == id && id in q.hash && q.hash[id].msg.Some?
              && !Retries(q, id) && q.hash[id].msg.value.uniqueKey == Some(key)
  {
    ReclaimLocks(q, entry, id, now);
  }

  /** Reclaiming one entry leaves every other task and entry alone. */
  lemma ReclaimFrame(q: Queue, entry: nat, id: Id, now: int, e: nat, x: Id)
    requires Keyed(q) && e != entry && x != id
    ensures var r := Reclaimed(q, entry, id, now);
            && (e in r.stream ==> e in q.stream) && (e in r.pel ==> e in q.pel)
            && (x in r.hash <==> x in q.hash) && (x in q.hash ==> r.hash[x] == q.hash[x])
            && (forall z :: (z, x) in r.zs <==> (z, x) in q.zs) && (forall z :: (z, x) in q.zs ==> r.zs[(z, x)] == q.zs[(z, x)])
  {
    ReclaimIs(q, entry, id, now);
  }

  lemma {:induction false} Unclaimed(q: Queue, claimed: seq<(nat, Id)>, now: int, e: nat, x: Id)
    requires Keyed(q) && forall i :: 0 <= i < |claimed| ==> claimed[i].0 != e && claimed[i].1 != x
    ensures var r := ReclaimedAll(q, claimed, now);
            Keyed(r) && (x in r.hash <==> x in q.hash) && (x in q.hash ==> r.hash[x] == q.hash[x])
    decreases |claimed|
  {
    if claimed != [] {
      var n := |claimed| - 1;
      Unclaimed(q, claimed[..n], now, e, x);
      ReclaimSettles(ReclaimedAll(q, claimed[..n], now), claimed[n].0, claimed[n].1, now);
      ReclaimFrame(ReclaimedAll(q, claimed[..n], now), claimed[n].0, claimed[n].1, now, e, x);
    }
  }

  lemma {:induction false} AlwaysKeyed(q: Queue, claimed: seq<(nat, Id)>, now: int)
    requires Keyed(q)
    ensures Keyed(ReclaimedAll(q, claimed, now))
    decreases |claimed|
  {
    if claimed != [] {
      var n := |claimed| - 1;
      AlwaysKeyed(q, claimed[..n], now);
      ReclaimSettles(ReclaimedAll(q, claimed[..n], now), claimed[n].0, claimed[n].1, now);
    }
  }

  /** A recovery pass settles every entry it claimed, whatever the others are. */
  lemma {:induction false} RecoverSettles(q: Queue, claimed: seq<(nat, Id)>, now: int, k: nat)
    requires Keyed(q) && k < |claimed|
    requires Apart(claimed)
    ensures Settled(q, ReclaimedAll(q, claimed, now), claimed[k].0, claimed[k].1, now)
    decreases |claimed|
  {
    var n := |claimed| - 1;
    var r := ReclaimedAll(q, claimed[..n], now);
    AlwaysKeyed(q, claimed[..n], now);
    if k < n {
      RecoverSettles(q, claimed[..n], now, k);
      ReclaimFrame(r, claimed[n].0, claimed[n].1, now, claimed[k].0, claimed[k].1);
    } else {
      Unclaimed(q, claimed[..n], now, claimed[k].0, claimed[k].1);
      ReclaimSettles(r, claimed[k].0, claimed[k].1, now);
    }
  }

  /** The range so far: `ids` came out, `rest` is still in reach and scored no lower. */
  ghost predicate Ranging(q: Queue, z: ZSet, cutoff: Option<int>, limit: nat, ids: seq<Id>, rest: set<Id>) {
    && |ids| <= limit
    && (forall id :: id in rest ==> (z, id) in q.zs && InReach(Score(q, z, id), cutoff) && id !in ids)
    && (forall id :: (z, id) in q.zs && InReach(Score(q, z, id), cutoff) ==> id in rest || id in ids)
    && (forall i :: 0 <= i < |ids| ==> (z, ids[i]) in q.zs && InReach(Score(q, z, ids[i]), cutoff))
    && (forall i, j :: 0 <= i < j < |ids| ==> ids[i] != ids[j] && Score(q, z, ids[i]) <= Score(q, z, ids[j]))
    && (forall i, id :: 0 <= i < |ids| && id in rest ==> Score(q, z, ids[i]) <= Score(q, z, id))
  }

  lemma RangeStep(q: Queue, z: ZSet, cutoff: Option<int>, limit: nat, ids: seq<Id>, rest: set<Id>, low: Id)
    requires Ranging(q, z, cutoff, limit, ids, rest) && |ids| < limit && low in rest
    requires forall id :: id in rest ==> q.zs[(z, low)] <= q.zs[(z, id)]
    ensures Ranging(q, z, cutoff, limit, ids + [low], rest - {low})
  {
    var ids' := ids + [low];
    forall i | 0 <= i < |ids'| ensures (z, ids'[i]) in q.zs && InReach(Score(q, z, ids'[i]), cutoff) {}
    forall i, j | 0 <= i < j < |ids'| ensures ids'[i] != ids'[j] && Score(q, z, ids'[i]) <= Score(q, z, ids'[j]) {}
  }

  lemma RangeDone(q: Queue, z: ZSet, cutoff: Option<int>, limit: nat, ids: seq<Id>, rest: set<Id>)
    requires Ranging(q, z, cutoff, limit, ids, rest) && (rest == {} || |ids| == limit)
    ensures IsRange(q, z, cutoff, limit, ids)
  {
  }

  /** How many entries the size pass may take. */
  function OverSize(q: Queue, z: ZSet, maxSize: int, batch: nat): nat {
    var over := |Members(q, z)| - maxSize;
    if maxSize < 0 || over <= 0 then 0 else if over > batch then batch else over
  }

  lemma ForwardNone(q: Queue, z: ZSet)
    ensures ForwardAll(q, z, []) == q
  {
    assert ForwardAll(q, z, []).hash == q.hash;
    assert ForwardAll(q, z, []).zs == q.zs;
  }

  lemma {:induction false} AppendOne(stream: map<nat, Id>, first: nat, ids: seq<Id>, id: Id)
    ensures Append(stream, first, ids + [id]) == Append(stream, first, ids)[first + |ids| := id]
    decreases |ids|
  {
    if ids == [] {
      assert (ids + [id])[1..] == [];
    } else {
      assert (ids + [id])[1..] == ids[1..] + [id];
      AppendOne(stream[first := ids[0]], first + 1, ids[1..], id);
    }
  }

  lemma ForwardOneHash(q: Queue, z: ZSet, ids: seq<Id>, id: Id)
    ensures ForwardAll(q, z, ids + [id]).hash == HSetState(ForwardAll(q, z, ids), id, Pending).hash
  {
    var f, g := ForwardAll(q, z, ids).hash, ForwardAll(q, z, ids + [id]).hash;
    forall x ensures x in ids + [id] <==> x in ids || x == id {}
    forall x ensures x in f <==> x in q.hash || x in ids {}
    forall x ensures x in g <==> x in q.hash || x in ids + [id] {}
    assert g.Keys == f.Keys + {id};
  }

  lemma ForwardOne(q: Queue, z: ZSet, ids: seq<Id>, id: Id)
    ensures var f := ForwardAll(q, z, ids);
            ForwardAll(q, z, ids + [id]) == ZRem(HSetState(XAdd(f, id), id, Pending), z, id)
  {
    AppendOne(q.stream, q.nextEntry, ids, id);
    ForwardOneHash(q, z, ids, id);
    ForwardOneZSet(q, z, ids, id);
  }

  lemma ForwardOneZSet(q: Queue, z: ZSet, ids: seq<Id>, id: Id)
    ensures ForwardAll(q, z, ids + [id]).zs == ForwardAll(q, z, ids).zs - {(z, id)}
  {
  }

  lemma TrimNone(q: Queue, z: ZSet)
    ensures Apply(q, Op.Trim(z, [])) == q
  {
    assert Apply(q, Op.Trim(z, [])).hash == q.hash;
    assert Apply(q, Op.Trim(z, [])).zs == q.zs;
  }

  lemma TrimOne(q: Queue, z: ZSet, ids: seq<Id>, id: Id)
    ensures var f := Apply(q, Op.Trim(z, ids));
            Apply(q, Op.Trim(z, ids + [id])) == ZRem(Del(f, id), z, id)
  {
    var f, g := Apply(q, Op.Trim(z, ids)), Apply(q, Op.Trim(z, ids + [id]));
    assert g.hash == f.hash - {id};
    assert g.zs == f.zs - {(z, id)};
  }
}
