/** Runs of one queue under any interleaving of clients, workers, recoverers, forwarders,
    operators and janitors.

    An actor that was handed a stream entry first reads the task body (`Load`) and later
    acts on what it read (`Ack`, `Fail`, ...). Nothing ties these steps together: actors may
    crash, be slow, or work on the same entry at once after a lease lapsed. */
module StoreRuns {
  import opened Ids
  import opened Base
  import opened Store

  /** An actor holding the message it read for an entry. */
  datatype Hold = Hold(entry: nat, msg: TaskMessage, actor: nat)

  /** An entry, the task it names, and the actor it was handed to. */
  type Ticket = (nat, Id, nat)

  /** Deliveries of new entries go to this actor, reclaims to any. */
  const READER: nat := 0

  datatype Sys = Sys(
    q: Queue,
    claims: set<Ticket>,         // entries handed to an actor that has not read the body yet
    holds: set<Hold>,
    doomed: set<nat>,            // entries whose body was missing when read
    attempts: map<Id, nat>)      // deliveries of the task's current life that were resolved

  datatype Event =
    | Client(op: Op)
    | Background(op: Op)
    | Claim(entry: nat, actor: nat)                         // XAUTOCLAIM by a recoverer
    | Load(entry: nat, id: Id, actor: nat)                  // HGET of the body
    | Activate(h: Hold)
    | DropDoomed(entry: nat)
    | PutBack(h: Hold)                                      // shutdown before dispatch
    | Ack(h: Hold)                                          // done, or discarded
    | Keep(h: Hold, result: Bytes, chain: seq<ChainLink>, score: int)   // done, retained
    | Fail(h: Hold, score: int)                             // retry
    | Bury(h: Hold, score: int)                             // archive
    | Vanish(h: Hold)                                       // crash

  const INIT: Sys := Sys(EMPTY, {}, {}, {}, map[])

  predicate ClientOp(op: Op) {
    || op.Enqueue? || op.EnqueueUnique? || op.Schedule? || op.ScheduleUnique?
    || op.EnqueuePeriodic? || op.EnqueueLink? || op.ScheduleLink?
  }

  predicate BackgroundOp(op: Op) {
    || op.ReadGroup? || op.Forward? || op.RunTask? || op.Delete? || op.Trim?
    || op.ReleaseUnique? || op.RenewUnique? || op.Tick?
  }

  predicate Distinct(ids: seq<Id>) {
    forall i, j :: 0 <= i < j < |ids| ==> ids[i] != ids[j]
  }

  predicate Enabled(s: Sys, e: Event) {
    match e
    case Client(op) => ClientOp(op) && op.msg.retried == 0 <= op.msg.maxRetry
    case Background(op) =>
      && BackgroundOp(op)
      && (op.Forward? ==> (op.z.ZScheduled? || op.z.ZRetry?) && Distinct(op.ids)
                          && forall id :: id in op.ids ==> (op.z, id) in s.q.zs)
      && (op.Trim? ==> (op.z.ZArchived? || op.z.ZCompleted?)
                       && forall id :: id in op.ids ==> (op.z, id) in s.q.zs)
    case Claim(entry, actor) => entry in s.q.pel && entry in s.q.stream
    case Load(entry, id, actor) => (entry, id, actor) in s.claims
    case Activate(h) => h in s.holds
    case DropDoomed(entry) => entry in s.doomed
    case PutBack(h) => h in s.holds
    case Ack(h) => h in s.holds
    case Keep(h, _, _, _) => h in s.holds
    case Fail(h, _) => h in s.holds && h.msg.retried < h.msg.maxRetry
    case Bury(h, _) => h in s.holds
    case Vanish(h) => h in s.holds
  }

  function Resolved(s: Sys, id: Id): map<Id, nat> {
    s.attempts[id := (if id in s.attempts then s.attempts[id] else 0) + 1]
  }

  /** The tasks read by XREADGROUP. */
  function Delivered(q: Queue, upto: nat): set<Ticket> {
    set e | e in q.stream && q.cursor <= e < upto :: (e, q.stream[e], READER)
  }

  function Step(s: Sys, e: Event): Sys {
    match e
    case Client(op) =>
      if ClientOp(op)
      then s.(q := Apply(s.q, op),
              attempts := if Apply(s.q, op) == s.q then s.attempts else s.attempts[op.msg.id := 0])
      else s
    case Background(op) =>
      s.(q := Apply(s.q, op),
         claims := s.claims + if op.ReadGroup? && op.upto <= s.q.nextEntry then Delivered(s.q, op.upto) else {})
    case Claim(entry, actor) =>
      if entry in s.q.stream then s.(claims := s.claims + {(entry, s.q.stream[entry], actor)}) else s
    case Load(entry, id, actor) =>
      var t := s.(claims := s.claims - {(entry, id, actor)});
      if id in s.q.hash && s.q.hash[id].msg.Some?
      then t.(holds := t.holds + {Hold(entry, s.q.hash[id].msg.value, actor)})
      else t.(doomed := t.doomed + {entry})
    case Activate(h) => s.(q := Apply(s.q, MarkActive(h.msg.id)))
    case DropDoomed(entry) => s.(q := Apply(s.q, DropOrphan(entry)), doomed := s.doomed - {entry})
    case PutBack(h) => s.(q := Apply(s.q, Requeue(h.entry, h.msg.id)), holds := s.holds - {h})
    case Ack(h) =>
      s.(q := Apply(s.q, Finish(h.entry, h.msg.id)), holds := s.holds - {h}, attempts := Resolved(s, h.msg.id))
    case Keep(h, result, chain, score) =>
      s.(q := Apply(s.q, Move(h.entry, h.msg.(result := result, chain := chain), ZCompleted, score)),
         holds := s.holds - {h}, attempts := Resolved(s, h.msg.id))
    case Fail(h, score) =>
      s.(q := Apply(s.q, Move(h.entry, h.msg.(retried := h.msg.retried + 1), ZRetry, score)),
         holds := s.holds - {h}, attempts := Resolved(s, h.msg.id))
    case Bury(h, score) =>
      s.(q := Apply(s.q, Move(h.entry, h.msg, ZArchived, score)),
         holds := s.holds - {h}, attempts := Resolved(s, h.msg.id))
    case Vanish(h) => s.(holds := s.holds - {h})
  }

  /** `ss` is the sequence of states produced by the enabled events `es`. */
  ghost predicate Run(ss: seq<Sys>, es: seq<Event>) {
    && |ss| == |es| + 1
    && ss[0] == INIT
    && forall k :: 0 <= k < |es| ==> Enabled(ss[k], es[k]) && ss[k + 1] == Step(ss[k], es[k])
  }

  // ----- no stranded task -----

  /** Every stream entry is undelivered or pending in the consumer group. */
  ghost predicate StreamSound(q: Queue) {
    && q.cursor <= q.nextEntry
    && (forall e :: e in q.stream ==> e < q.nextEntry && (e >= q.cursor || e in q.pel))
    && (forall e :: e in q.pel ==> e in q.stream && e < q.cursor)
  }

  ghost predicate HasEntry(q: Queue, doomed: set<nat>, id: Id) {
    exists e :: e in q.stream && e !in doomed && q.stream[e] == id
  }

  /** A hash with a message is referenced by a ZSET, or by a stream entry that nobody is about to
      drop as an orphan. */
  ghost predicate AnchoredAt(q: Queue, doomed: set<nat>, id: Id) {
    id in q.hash && q.hash[id].msg.Some? ==> InSomeZSet(q, id) || HasEntry(q, doomed, id)
  }

  ghost predicate Anchored(q: Queue, doomed: set<nat>) {
    forall id :: id in q.hash ==> AnchoredAt(q, doomed, id)
  }

  /** An entry ID is never reused, so what an actor was told about an entry stays true. */
  ghost predicate Faithful(q: Queue, entry: nat, id: Id) {
    entry < q.nextEntry && (entry in q.stream ==> q.stream[entry] == id)
  }

  ghost predicate NoneStranded(s: Sys) {
    && StreamSound(s.q)
    && Anchored(s.q, s.doomed)
    && (forall e :: e in s.doomed ==> e < s.q.nextEntry)
    && (forall c {:trigger c in s.claims} :: c in s.claims ==> Faithful(s.q, c.0, c.1))
    && (forall h {:trigger h in s.holds} :: h in s.holds ==> Faithful(s.q, h.entry, h.msg.id))
    && (forall id :: id in s.q.hash && s.q.hash[id].msg.Some? ==> s.q.hash[id].msg.value.id == id)
  }

  /** From (q, d) to (q', d') nothing that anchors a task other than `x` is lost. */
  ghost predicate SameElsewhere(q: Queue, d: set<nat>, q': Queue, d': set<nat>, x: Id) {
    && (forall id :: id != x && id in q'.hash && q'.hash[id].msg.Some? ==> id in q.hash && q.hash[id].msg.Some?)
    && (forall k :: k in q.zs && k.1 != x ==> k in q'.zs)
    && (forall e :: e in q.stream && q.stream[e] != x ==>
          e in q'.stream && q'.stream[e] == q.stream[e] && (e in d' ==> e in d))
  }

  lemma AnchorFrame(q: Queue, d: set<nat>, q': Queue, d': set<nat>, x: Id)
    requires Anchored(q, d) && SameElsewhere(q, d, q', d', x) && AnchoredAt(q', d', x)
    ensures Anchored(q', d')
  {
    forall id | id in q'.hash ensures AnchoredAt(q', d', id) {
      if q'.hash[id].msg.Some? && id != x && !InSomeZSet(q, id) {
        var e :| e in q.stream && e !in d && q.stream[e] == id;
        assert e in q'.stream && e !in d' && q'.stream[e] == id;
      }
    }
  }

  /** A step that ends with a fresh stream entry for `x` anchors `x`. */
  lemma FreshEntry(q: Queue, d: set<nat>, entry: nat, x: Id)
    requires entry in q.stream && q.stream[entry] == x && entry !in d
    ensures AnchoredAt(q, d, x)
  {
  }

  lemma PutAnchors(q: Queue, d: set<nat>, msg: TaskMessage)
    requires Anchored(q, d) && forall e :: e in d ==> e < q.nextEntry
    requires forall e :: e in q.stream ==> e < q.nextEntry
    ensures Anchored(Put(q, msg), d)
    ensures Anchored(XAdd(HSet(q, msg.id, msg, Pending), msg.id), d)
  {
    FreshEntry(Put(q, msg), d, q.nextEntry, msg.id);
    AnchorFrame(q, d, Put(q, msg), d, msg.id);
    var link := XAdd(HSet(q, msg.id, msg, Pending), msg.id);
    FreshEntry(link, d, q.nextEntry, msg.id);
    AnchorFrame(q, d, link, d, msg.id);
  }

  lemma PutScheduledAnchors(q: Queue, d: set<nat>, msg: TaskMessage, at: int)
    requires Anchored(q, d)
    ensures Anchored(PutScheduled(q, msg, at), d)
    ensures Anchored(ZAdd(HSet(q, msg.id, msg, Scheduled), ZScheduled, msg.id, at), d)
  {
    AnchorFrame(q, d, PutScheduled(q, msg, at), d, msg.id);
    AnchorFrame(q, d, ZAdd(HSet(q, msg.id, msg, Scheduled), ZScheduled, msg.id, at), d, msg.id);
  }

  lemma ClientAnchors(q: Queue, d: set<nat>, op: Op)
    requires ClientOp(op) && StreamSound(q) && Anchored(q, d) && forall e :: e in d ==> e < q.nextEntry
    ensures Anchored(Apply(q, op), d)
  {
    match op {
      case Enqueue(msg) => PutAnchors(q, d, msg);
      case EnqueueUnique(msg, key, ttl) =>
        UntouchedAnchors(q, d, TakeLock(q, key, msg.id, ttl));
        PutAnchors(TakeLock(q, key, msg.id, ttl), d, msg);
      case Schedule(msg, at) => PutScheduledAnchors(q, d, msg, at);
      case ScheduleUnique(msg, key, at, ttl) =>
        UntouchedAnchors(q, d, TakeLock(q, key, msg.id, ttl));
        PutScheduledAnchors(TakeLock(q, key, msg.id, ttl), d, msg, at);
      case EnqueuePeriodic(msg, ttl) =>
        var q1 := q.(dedup := q.dedup[msg.id := q.now + TtlMillis(ttl)]);
        UntouchedAnchors(q, d, q1);
        PutAnchors(q1, d, msg);
      case EnqueueLink(msg) => PutAnchors(q, d, msg);
      case ScheduleLink(msg, at) => PutScheduledAnchors(q, d, msg, at);
    }
  }

  lemma ForwardAnchors(q: Queue, d: set<nat>, z: ZSet, ids: seq<Id>)
    requires StreamSound(q) && Anchored(q, d) && forall e :: e in d ==> e < q.nextEntry
    ensures Anchored(ForwardAll(q, z, ids), d)
  {
    var q' := ForwardAll(q, z, ids);
    forall id | id in q'.hash ensures AnchoredAt(q', d, id) {
      if id in ids {
        var i :| 0 <= i < |ids| && ids[i] == id;
        FreshEntry(q', d, q.nextEntry + i, id);
      } else if q'.hash[id].msg.Some? && !InSomeZSet(q, id) {
        var e :| e in q.stream && e !in d && q.stream[e] == id;
        assert e in q'.stream && q'.stream[e] == id;
      }
    }
  }

  lemma TrimAnchors(q: Queue, d: set<nat>, z: ZSet, ids: seq<Id>)
    requires Anchored(q, d)
    ensures Anchored(Apply(q, Trim(z, ids)), d)
  {
    var q' := Apply(q, Trim(z, ids));
    forall id | id in q'.hash ensures AnchoredAt(q', d, id) {
      if q'.hash[id].msg.Some? && !InSomeZSet(q, id) {
        var e :| e in q.stream && e !in d && q.stream[e] == id;
        assert e in q'.stream;
      }
    }
  }

  lemma RunTaskAnchors(q: Queue, d: set<nat>, id: Id)
    requires StreamSound(q) && Anchored(q, d) && forall e :: e in d ==> e < q.nextEntry
    ensures Anchored(Apply(q, RunTask(id)), d)
  {
    var q' := Apply(q, RunTask(id));
    if InSomeZSet(q, id) {
      if id in q.hash { FreshEntry(q', d, q.nextEntry, id); }
    } else if id in q.hash && q.hash[id].msg.Some? {
      var e :| e in q.stream && e !in d && q.stream[e] == id;
      FreshEntry(q', d, e, id);
    }
    AnchorFrame(q, d, q', d, id);
  }

  lemma DeleteAnchors(q: Queue, d: set<nat>, id: Id)
    requires Anchored(q, d)
    ensures Anchored(Apply(q, Delete(id)), d)
  {
    AnchorFrame(q, d, Apply(q, Delete(id)), d, id);
  }

  lemma BackgroundAnchors(q: Queue, d: set<nat>, op: Op)
    requires BackgroundOp(op) && StreamSound(q) && Anchored(q, d) && forall e :: e in d ==> e < q.nextEntry
    ensures Anchored(Apply(q, op), d)
  {
    match op {
      case Forward(z, ids) => ForwardAnchors(q, d, z, ids);
      case Trim(z, ids) => TrimAnchors(q, d, z, ids);
      case RunTask(id) => RunTaskAnchors(q, d, id);
      case Delete(id) => DeleteAnchors(q, d, id);
      case _ => UntouchedAnchors(q, d, Apply(q, op));
    }
  }

  lemma UntouchedAnchors(q: Queue, d: set<nat>, q': Queue)
    requires Anchored(q, d) && q'.zs == q.zs && q'.stream == q.stream
    requires forall id :: id in q'.hash && q'.hash[id].msg.Some? ==> id in q.hash && q.hash[id].msg.Some?
    ensures Anchored(q', d)
  {
    forall id | id in q'.hash ensures AnchoredAt(q', d, id) {
      if q'.hash[id].msg.Some? && !InSomeZSet(q, id) {
        var e :| e in q.stream && e !in d && q.stream[e] == id;
        assert e in q'.stream && q'.stream[e] == id;
      }
    }
  }

  /** Acting on an entry one was told about cannot unanchor another task. */
  lemma ActorAnchors(q: Queue, d: set<nat>, op: Op, entry: nat, id: Id)
    requires StreamSound(q) && Anchored(q, d) && Faithful(q, entry, id) && forall e :: e in d ==> e < q.nextEntry
    requires op == Requeue(entry, id) || op == Finish(entry, id) || (op.Move? && op.entry == entry && op.msg.id == id)
    ensures Anchored(Apply(q, op), d)
  {
    var q' := Apply(q, op);
    if op.Requeue? && id in q.hash { FreshEntry(q', d, q.nextEntry, id); }
    AnchorFrame(q, d, q', d, id);
  }

  lemma DropAnchors(q: Queue, d: set<nat>, entry: nat)
    requires Anchored(q, d) && entry in d
    ensures Anchored(Apply(q, DropOrphan(entry)), d - {entry})
  {
    var q' := Apply(q, DropOrphan(entry));
    forall id | id in q'.hash ensures AnchoredAt(q', d - {entry}, id) {
      if q'.hash[id].msg.Some? && !InSomeZSet(q, id) {
        var e :| e in q.stream && e !in d && q.stream[e] == id;
        assert e in q'.stream && q'.stream[e] == id;
      }
    }
  }

  /** Judging an entry an orphan is safe: its task has no message at that moment. */
  lemma DoomAnchors(q: Queue, d: set<nat>, entry: nat, id: Id)
    requires Anchored(q, d) && Faithful(q, entry, id) && !(id in q.hash && q.hash[id].msg.Some?)
    ensures Anchored(q, d + {entry})
  {
    AnchorFrame(q, d, q, d + {entry}, id);
  }

  lemma StepAnchors(s: Sys, e: Event)
    requires NoneStranded(s) && Enabled(s, e)
    ensures Anchored(Step(s, e).q, Step(s, e).doomed)
  {
    match e {
      case Client(op) => ClientAnchors(s.q, s.doomed, op);
      case Background(op) => BackgroundAnchors(s.q, s.doomed, op);
      case Claim(_, _) =>
      case Load(entry, id, actor) =>
        assert Faithful(s.q, (entry, id, actor).0, (entry, id, actor).1);
        if !(id in s.q.hash && s.q.hash[id].msg.Some?) { DoomAnchors(s.q, s.doomed, entry, id); }
      case Activate(h) => UntouchedAnchors(s.q, s.doomed, Step(s, e).q);
      case DropDoomed(entry) => DropAnchors(s.q, s.doomed, entry);
      case PutBack(h) => ActorAnchors(s.q, s.doomed, Requeue(h.entry, h.msg.id), h.entry, h.msg.id);
      case Ack(h) => ActorAnchors(s.q, s.doomed, Finish(h.entry, h.msg.id), h.entry, h.msg.id);
      case Keep(h, result, chain, score) =>
        ActorAnchors(s.q, s.doomed, Move(h.entry, h.msg.(result := result, chain := chain), ZCompleted, score), h.entry, h.msg.id);
      case Fail(h, score) =>
        ActorAnchors(s.q, s.doomed, Move(h.entry, h.msg.(retried := h.msg.retried + 1), ZRetry, score), h.entry, h.msg.id);
      case Bury(h, score) =>
        ActorAnchors(s.q, s.doomed, Move(h.entry, h.msg, ZArchived, score), h.entry, h.msg.id);
      case Vanish(_) =>
    }
  }

  /** `q'` differs from `q` by stream commands only in these ways. */
  ghost predicate StreamStep(q: Queue, q': Queue) {
    && StreamSound(q')
    && q.nextEntry <= q'.nextEntry
    && forall e :: e in q'.stream && e < q.nextEntry ==> e in q.stream && q'.stream[e] == q.stream[e]
  }

  lemma XAddSound(q: Queue, id: Id)
    requires StreamSound(q)
    ensures StreamStep(q, XAdd(q, id))
  {
  }

  lemma XAckDelSound(q: Queue, entry: nat)
    requires StreamSound(q)
    ensures StreamStep(q, XAckDel(q, entry))
  {
  }

  lemma RequeueSound(q: Queue, entry: nat, id: Id)
    requires StreamSound(q)
    ensures StreamStep(q, Apply(q, Requeue(entry, id)))
  {
    XAckDelSound(q, entry);
    XAddSound(XAckDel(q, entry), id);
  }

  lemma ForwardSound(q: Queue, z: ZSet, ids: seq<Id>)
    requires StreamSound(q)
    ensures StreamStep(q, ForwardAll(q, z, ids))
  {
  }

  lemma ReadSound(q: Queue, upto: nat)
    requires StreamSound(q)
    ensures StreamStep(q, Apply(q, ReadGroup(upto)))
  {
  }

  lemma ClientSound(q: Queue, op: Op)
    requires StreamSound(q) && ClientOp(op)
    ensures StreamStep(q, Apply(q, op))
  {
    XAddSound(q, op.msg.id);
  }

  lemma BackgroundSound(q: Queue, op: Op)
    requires StreamSound(q) && BackgroundOp(op)
    ensures StreamStep(q, Apply(q, op))
  {
    match op {
      case ReadGroup(upto) => ReadSound(q, upto);
      case Forward(z, ids) => ForwardSound(q, z, ids);
      case RunTask(id) => XAddSound(q, id);
      case _ =>
    }
  }

  lemma StepSound(s: Sys, e: Event)
    requires StreamSound(s.q) && Enabled(s, e)
    ensures StreamStep(s.q, Step(s, e).q)
  {
    match e {
      case Client(op) => ClientSound(s.q, op);
      case Background(op) => BackgroundSound(s.q, op);
      case DropDoomed(entry) => XAckDelSound(s.q, entry);
      case PutBack(h) => RequeueSound(s.q, h.entry, h.msg.id);
      case Ack(h) => XAckDelSound(s.q, h.entry);
      case Keep(h, _, _, _) => XAckDelSound(s.q, h.entry);
      case Fail(h, _) => XAckDelSound(s.q, h.entry);
      case Bury(h, _) => XAckDelSound(s.q, h.entry);
      case _ =>
    }
  }

  lemma StepBooks(s: Sys, e: Event)
    requires NoneStranded(s) && Enabled(s, e) && StreamStep(s.q, Step(s, e).q)
    ensures var t := Step(s, e);
            && (forall d :: d in t.doomed ==> d < t.q.nextEntry)
            && (forall c {:trigger c in t.claims} :: c in t.claims ==> Faithful(t.q, c.0, c.1))
            && (forall h {:trigger h in t.holds} :: h in t.holds ==> Faithful(t.q, h.entry, h.msg.id))
  {
    var t := Step(s, e);
    forall c | c in s.claims ensures Faithful(t.q, c.0, c.1) {}
    forall h | h in s.holds ensures Faithful(t.q, h.entry, h.msg.id) {}
  }

  /** The operation an event runs against the store, if any. */
  function OpOf(e: Event): Option<Op> {
    match e
    case Client(op) => Some(op)
    case Background(op) => Some(op)
    case Claim(_, _) => None
    case Load(_, _, _) => None
    case Activate(h) => Some(MarkActive(h.msg.id))
    case DropDoomed(entry) => Some(DropOrphan(entry))
    case PutBack(h) => Some(Requeue(h.entry, h.msg.id))
    case Ack(h) => Some(Finish(h.entry, h.msg.id))
    case Keep(h, result, chain, score) =>
      Some(Move(h.entry, h.msg.(result := result, chain := chain), ZCompleted, score))
    case Fail(h, score) => Some(Move(h.entry, h.msg.(retried := h.msg.retried + 1), ZRetry, score))
    case Bury(h, score) => Some(Move(h.entry, h.msg, ZArchived, score))
    case Vanish(_) => None
  }

  lemma StepQueue(s: Sys, e: Event)
    requires Enabled(s, e)
    ensures Step(s, e).q == if OpOf(e).Some? then Apply(s.q, OpOf(e).value) else s.q
  {
  }

  lemma StepKeepsKeys(s: Sys, e: Event)
    requires NoneStranded(s) && Enabled(s, e)
    ensures var q := Step(s, e).q;
            forall id :: id in q.hash && q.hash[id].msg.Some? ==> q.hash[id].msg.value.id == id
  {
    StepQueue(s, e);
    if OpOf(e).Some? { ApplyBodies(s.q, OpOf(e).value); }
  }

  lemma StepKeepsNoneStranded(s: Sys, e: Event)
    requires NoneStranded(s) && Enabled(s, e)
    ensures NoneStranded(Step(s, e))
  {
    StepAnchors(s, e);
    StepSound(s, e);
    StepBooks(s, e);
    StepKeepsKeys(s, e);
  }

  /** No stranded task, in every run: a stored message is always referenced by a ZSET or by a
      stream entry, and every stream entry is undelivered or pending. */
  lemma {:induction false} NeverStranded(ss: seq<Sys>, es: seq<Event>, k: nat)
    requires Run(ss, es) && k < |ss|
    ensures NoneStranded(ss[k])
  {
    if k > 0 {
      NeverStranded(ss, es, k - 1);
      StepKeepsNoneStranded(ss[k - 1], es[k - 1]);
    }
  }

  // ----- one location per task -----

  /** The leases hold (an entry has one actor), an ID is reused only after its task reached
      the completed or archived set, and only tasks waiting in a ZSET are deleted. */
  ghost predicate Disciplined(s: Sys, e: Event) {
    match e
    case Client(op) => ClientOp(op) && (op.EnqueueLink? || op.ScheduleLink? || Reusable(s.q, op.msg.id))
    case Background(op) => op.Delete? ==> InSomeZSet(s.q, op.id)
    case Claim(entry, actor) => Unattended(s, entry)
    case _ => true
  }

  predicate Reusable(q: Queue, id: Id) {
    id !in q.hash || (ZArchived, id) in q.zs || (ZCompleted, id) in q.zs
  }

  ghost predicate Unattended(s: Sys, entry: nat) {
    && (forall c {:trigger c in s.claims} :: c in s.claims ==> c.0 != entry)
    && (forall h {:trigger h in s.holds} :: h in s.holds ==> h.entry != entry)
  }

  predicate InPipeline(state: TaskState) {
    state == Pending || state == Active
  }

  /** Every reference leads to a body whose state names the place it was found in, and no two
      stream entries lead to the same task. */
  ghost predicate Located(q: Queue) {
    && (forall k {:trigger k in q.zs} :: k in q.zs ==> k.1 in q.hash && q.hash[k.1].state == StateOf(k.0))
    && (forall e :: e in q.stream ==> q.stream[e] in q.hash && InPipeline(q.hash[q.stream[e]].state))
    && (forall e :: e in q.stream && e >= q.cursor ==> q.hash[q.stream[e]].state == Pending)
    && (forall e, f :: e in q.stream && f in q.stream && q.stream[e] == q.stream[f] ==> e == f)
    && (forall id :: id in q.hash ==> q.hash[id].msg.Some?)
  }

  /** Each entry has at most one actor, and that actor's entry is still there. */
  ghost predicate Leased(s: Sys) {
    && s.doomed == {}
    && (forall c {:trigger c in s.claims} :: c in s.claims ==> c.0 in s.q.stream && c.0 in s.q.pel)
    && (forall h {:trigger h in s.holds} :: h in s.holds ==> h.entry in s.q.stream && h.entry in s.q.pel)
    && Exclusive(s.claims, s.holds)
  }

  ghost predicate Exclusive(claims: set<Ticket>,    holds: set<Hold>) {
    && (forall c, d {:trigger c in claims, d in claims} :: c in claims && d in claims && c.0 == d.0 ==> c == d)
    && (forall h, g {:trigger h in holds, g in holds} :: h in holds && g in holds && h.entry == g.entry ==> h == g)
    && (forall c, h {:trigger c in claims, h in holds} :: c in claims && h in holds ==> c.0 != h.entry)
  }

  ghost predicate SingleLocation(s: Sys) {
    NoneStranded(s) && Located(s.q) && Leased(s)
  }

  /** The state of a body names its one place. */
  lemma OnePlace(q: Queue, z: ZSet, id: Id)
    requires Located(q) && (z, id) in q.zs
    ensures forall y :: (y, id) in q.zs ==> y == z
    ensures forall e :: e in q.stream ==> q.stream[e] != id
  {
    assert q.hash[(z, id).1].state == StateOf(z);
    forall y | (y, id) in q.zs ensures y == z { assert q.hash[(y, id).1].state == StateOf(y); }
  }

  lemma Nowhere(q: Queue, id: Id)
    requires Located(q) && id !in q.hash
    ensures forall y :: (y, id) !in q.zs
    ensures forall e :: e in q.stream ==> q.stream[e] != id
  {
    forall y ensures (y, id) !in q.zs { assert (y, id) in q.zs ==> (y, id).1 in q.hash; }
  }

  lemma ReusablePlace(q: Queue, id: Id)
    requires Located(q) && Reusable(q, id)
    ensures (ZScheduled, id) !in q.zs && (ZRetry, id) !in q.zs
    ensures forall e :: e in q.stream ==> q.stream[e] != id
  {
    if (ZArchived, id) in q.zs { OnePlace(q, ZArchived, id); }
    else if (ZCompleted, id) in q.zs { OnePlace(q, ZCompleted, id); }
    else { Nowhere(q, id); }
  }

  lemma PutLocated(q: Queue, msg: TaskMessage)
    requires StreamSound(q) && Located(q) && Reusable(q, msg.id)
    ensures Located(Put(q, msg))
  {
    ReusablePlace(q, msg.id);
  }

  lemma PutScheduledLocated(q: Queue, msg: TaskMessage, at: int)
    requires StreamSound(q) && Located(q) && Reusable(q, msg.id)
    ensures Located(PutScheduled(q, msg, at))
  {
    ReusablePlace(q, msg.id);
  }

  lemma LinkLocated(q: Queue, msg: TaskMessage, at: int)
    requires StreamSound(q) && Located(q)
    ensures Located(Apply(q, EnqueueLink(msg))) && Located(Apply(q, ScheduleLink(msg, at)))
  {
    if msg.id !in q.hash { Nowhere(q, msg.id); }
  }

  lemma ClientLocated(q: Queue, op: Op)
    requires ClientOp(op) && StreamSound(q) && Located(q)
    requires op.EnqueueLink? || op.ScheduleLink? || Reusable(q, op.msg.id)
    ensures Located(Apply(q, op))
  {
    match op {
      case Enqueue(msg) => PutLocated(q, msg);
      case EnqueueUnique(msg, key, ttl) => PutLocated(TakeLock(q, key, msg.id, ttl), msg);
      case Schedule(msg, at) => PutScheduledLocated(q, msg, at);
      case ScheduleUnique(msg, key, at, ttl) => PutScheduledLocated(TakeLock(q, key, msg.id, ttl), msg, at);
      case EnqueuePeriodic(msg, ttl) => PutLocated(q.(dedup := q.dedup[msg.id := q.now + TtlMillis(ttl)]), msg);
      case EnqueueLink(msg) => LinkLocated(q, msg, 0);
      case ScheduleLink(msg, at) => LinkLocated(q, msg, at);
    }
  }

  lemma ForwardLocated(q: Queue, z: ZSet, ids: seq<Id>)
    requires StreamSound(q) && Located(q) && Distinct(ids) && forall id :: id in ids ==> (z, id) in q.zs
    ensures Located(ForwardAll(q, z, ids))
  {
    forall id | id in ids ensures (forall y :: (y, id) in q.zs ==> y == z) && forall e :: e in q.stream ==> q.stream[e] != id {
      OnePlace(q, z, id);
    }
  }

  lemma TrimLocated(q: Queue, z: ZSet, ids: seq<Id>)
    requires StreamSound(q) && Located(q) && forall id :: id in ids ==> (z, id) in q.zs
    ensures Located(Apply(q, Trim(z, ids)))
  {
    forall id | id in ids ensures (forall y :: (y, id) in q.zs ==> y == z) && forall e :: e in q.stream ==> q.stream[e] != id {
      OnePlace(q, z, id);
    }
  }

  ghost function SomeZSet(q: Queue, id: Id): (z: ZSet)
    requires InSomeZSet(q, id)
    ensures (z, id) in q.zs
  {
    if (ZScheduled, id) in q.zs then ZScheduled else if (ZRetry, id) in q.zs then ZRetry
    else if (ZArchived, id) in q.zs then ZArchived else ZCompleted
  }

  lemma RunTaskLocated(q: Queue, id: Id)
    requires StreamSound(q) && Located(q)
    ensures Located(Apply(q, RunTask(id)))
  {
    if InSomeZSet(q, id) { OnePlace(q, SomeZSet(q, id), id); }
  }

  lemma DeleteLocated(q: Queue, id: Id)
    requires StreamSound(q) && Located(q) && InSomeZSet(q, id)
    ensures Located(Apply(q, Delete(id)))
  {
    OnePlace(q, SomeZSet(q, id), id);
  }

  lemma BackgroundLocated(q: Queue, op: Op)
    requires BackgroundOp(op) && StreamSound(q) && Located(q)
    requires op.Forward? ==> Distinct(op.ids) && forall id :: id in op.ids ==> (op.z, id) in q.zs
    requires op.Trim? ==> forall id :: id in op.ids ==> (op.z, id) in q.zs
    requires op.Delete? ==> InSomeZSet(q, op.id)
    ensures Located(Apply(q, op))
  {
    match op {
      case Forward(z, ids) => ForwardLocated(q, z, ids);
      case Trim(z, ids) => TrimLocated(q, z, ids);
      case RunTask(id) => RunTaskLocated(q, id);
      case Delete(id) => DeleteLocated(q, id);
      case _ =>
    }
  }

  lemma MarkActiveLocated(q: Queue, entry: nat, id: Id)
    requires StreamSound(q) && Located(q) && entry in q.stream && q.stream[entry] == id && entry in q.pel
    ensures Located(Apply(q, MarkActive(id)))
  {
    forall z | (z, id) in q.zs ensures false { OnePlace(q, z, id); }
  }

  lemma RequeueLocated(q: Queue, entry: nat, id: Id)
    requires StreamSound(q) && Located(q) && entry in q.stream && q.stream[entry] == id
    ensures Located(Apply(q, Requeue(entry, id)))
  {
    forall z | (z, id) in q.zs ensures false { OnePlace(q, z, id); }
  }

  lemma FinishLocated(q: Queue, entry: nat, id: Id)
    requires StreamSound(q) && Located(q) && entry in q.stream && q.stream[entry] == id
    ensures Located(Apply(q, Finish(entry, id)))
  {
    forall z | (z, id) in q.zs ensures false { OnePlace(q, z, id); }
  }

  lemma MoveLocated(q: Queue, entry: nat, msg: TaskMessage, z: ZSet, score: int)
    requires StreamSound(q) && Located(q) && entry in q.stream && q.stream[entry] == msg.id
    ensures Located(Apply(q, Move(entry, msg, z, score)))
  {
    forall y | (y, msg.id) in q.zs ensures false { OnePlace(q, y, msg.id); }
  }

  /** The operations an actor runs on its own entry. */
  predicate ActorOp(op: Op, entry: nat, id: Id) {
    || op == MarkActive(id) || op == Requeue(entry, id) || op == Finish(entry, id)
    || (op.Move? && op.entry == entry && op.msg.id == id)
  }

  lemma ActorLocated(q: Queue, op: Op, entry: nat, id: Id)
    requires StreamSound(q) && Located(q) && entry in q.stream && q.stream[entry] == id && entry in q.pel
    requires ActorOp(op, entry, id)
    ensures Located(Apply(q, op))
  {
    match op {
      case MarkActive(_) => MarkActiveLocated(q, entry, id);
      case Requeue(_, _) => RequeueLocated(q, entry, id);
      case Finish(_, _) => FinishLocated(q, entry, id);
      case Move(_, msg, z, score) => MoveLocated(q, entry, msg, z, score);
    }
  }

  /** The actor behind an event. */
  predicate IsActor(e: Event) {
    e.Activate? || e.PutBack? || e.Ack? || e.Keep? || e.Fail? || e.Bury?
  }

  lemma ActorEvent(s: Sys, e: Event)
    requires Enabled(s, e) && IsActor(e)
    ensures e.h in s.holds && OpOf(e).Some? && ActorOp(OpOf(e).value, e.h.entry, e.h.msg.id)
  {
  }

  lemma StepLocated(s: Sys, e: Event)
    requires SingleLocation(s) && Enabled(s, e) && Disciplined(s, e)
    ensures Located(Step(s, e).q)
  {
    StepQueue(s, e);
    if IsActor(e) {
      ActorEvent(s, e);
      ActorLocated(s.q, OpOf(e).value, e.h.entry, e.h.msg.id);
    } else if e.Client? {
      ClientLocated(s.q, e.op);
    } else if e.Background? {
      BackgroundLocated(s.q, e.op);
    }
  }

  /** An operation leaves pending every entry it does not acknowledge. */
  lemma ApplyKeepsEntry(q: Queue, op: Op, entry: nat)
    requires StreamSound(q) && entry in q.pel
    requires op.DropOrphan? || op.Requeue? || op.Finish? || op.Move? ==> op.entry != entry
    ensures entry in Apply(q, op).pel && entry in Apply(q, op).stream
  {
  }

  lemma StepKeepsEntry(s: Sys, e: Event, entry: nat)
    requires StreamSound(s.q) && Enabled(s, e) && entry in s.q.pel
    requires IsActor(e) && !e.Activate? ==> e.h.entry != entry
    requires e.DropDoomed? ==> e.entry != entry
    ensures entry in Step(s, e).q.pel && entry in Step(s, e).q.stream
  {
    StepQueue(s, e);
    if OpOf(e).Some? { ApplyKeepsEntry(s.q, OpOf(e).value, entry); }
  }

  lemma FewerExclusive(claims: set<Ticket>, holds: set<Hold>, claims': set<Ticket>, holds': set<Hold>)
    requires Exclusive(claims, holds) && claims' <= claims && holds' <= holds
    ensures Exclusive(claims', holds')
  {
  }

  /** New entries were with nobody. */
  lemma ReadExclusive(s: Sys, upto: nat)
    requires StreamSound(s.q) && Leased(s)
    ensures Exclusive(s.claims + Delivered(s.q, upto), s.holds)
  {
    forall c | c in Delivered(s.q, upto) ensures c.0 >= s.q.cursor && c.0 in s.q.stream && c == (c.0, s.q.stream[c.0], READER) {}
    forall c | c in s.claims ensures c.0 < s.q.cursor { assert c.0 in s.q.pel; }
    forall h | h in s.holds ensures h.entry < s.q.cursor { assert h.entry in s.q.pel; }
  }

  lemma LoadExclusive(claims: set<Ticket>, holds: set<Hold>, c: Ticket, h: Hold)
    requires Exclusive(claims, holds) && c in claims && h.entry == c.0
    ensures Exclusive(claims - {c}, holds + {h})
  {
  }

  lemma ClaimExclusive(claims: set<Ticket>, holds: set<Hold>, c: Ticket)
    requires Exclusive(claims, holds)
    requires (forall d {:trigger d in claims} :: d in claims ==> d.0 != c.0) && (forall h {:trigger h in holds} :: h in holds ==> h.entry != c.0)
    ensures Exclusive(claims + {c}, holds)
  {
  }

  /** What an event does to the books. */
  lemma StepBooksAre(s: Sys, e: Event)
    requires Enabled(s, e)
    ensures var t := Step(s, e);
            match e
            case Background(op) =>
              t.holds == s.holds && (t.claims == s.claims || (op.ReadGroup? && t.claims == s.claims + Delivered(s.q, op.upto)))
            case Claim(entry, actor) => t.holds == s.holds && t.claims == s.claims + {(entry, s.q.stream[entry], actor)}
            case Load(entry, id, actor) =>
              && t.claims == s.claims - {(entry, id, actor)}
              && (t.holds == s.holds || exists m :: t.holds == s.holds + {Hold(entry, m, actor)})
            case _ => t.claims == s.claims && t.holds <= s.holds
  {
  }

  lemma StepExclusive(s: Sys, e: Event)
    requires SingleLocation(s) && Enabled(s, e) && Disciplined(s, e)
    ensures Exclusive(Step(s, e).claims, Step(s, e).holds)
  {
    StepBooksAre(s, e);
    BooksExclusive(s, e, Step(s, e).claims, Step(s, e).holds);
  }

  lemma BooksExclusive(s: Sys, e: Event, claims: set<Ticket>, holds: set<Hold>)
    requires StreamSound(s.q) && Leased(s) && Enabled(s, e) && (e.Claim? ==> Unattended(s, e.entry))
    requires claims == Step(s, e).claims && holds == Step(s, e).holds
    ensures Exclusive(claims, holds)
  {
    StepBooksAre(s, e);
    match e {
      case Background(op) => if op.ReadGroup? { ReadExclusive(s, op.upto); }
      case Claim(entry, actor) => ClaimExclusive(s.claims, s.holds, (entry, s.q.stream[entry], actor));
      case Load(entry, id, actor) =>
        if holds != s.holds {
          var m :| holds == s.holds + {Hold(entry, m, actor)};
          LoadExclusive(s.claims, s.holds, (entry, id, actor), Hold(entry, m, actor));
        } else {
          FewerExclusive(s.claims, s.holds, claims, holds);
        }
      case _ => FewerExclusive(s.claims, s.holds, claims, holds);
    }
  }

  lemma OldClaim(s: Sys, e: Event, c: Ticket)
    requires StreamSound(s.q) && Leased(s) && Enabled(s, e) && c in s.claims
    ensures c.0 in Step(s, e).q.stream && c.0 in Step(s, e).q.pel
  {
    assert c.0 in s.q.pel;
    StepKeepsEntry(s, e, c.0);
  }

  lemma NewClaim(s: Sys, e: Event, c: Ticket)
    requires StreamSound(s.q) && Enabled(s, e) && c in Step(s, e).claims && c !in s.claims
    ensures c.0 in Step(s, e).q.stream && c.0 in Step(s, e).q.pel
  {
    StepBooksAre(s, e);
    if e.Background? { assert c in Delivered(s.q, e.op.upto); }
  }

  lemma StepClaims(s: Sys, e: Event, c: Ticket)
    requires SingleLocation(s) && Enabled(s, e) && c in Step(s, e).claims
    ensures c.0 in Step(s, e).q.stream && c.0 in Step(s, e).q.pel
  {
    if c in s.claims { OldClaim(s, e, c); } else { NewClaim(s, e, c); }
  }

  lemma OldHold(s: Sys, e: Event, h: Hold)
    requires StreamSound(s.q) && Leased(s) && Enabled(s, e) && h in s.holds && h in Step(s, e).holds
    ensures h.entry in Step(s, e).q.stream && h.entry in Step(s, e).q.pel
  {
    assert h.entry in s.q.pel;
    StepKeepsEntry(s, e, h.entry);
  }

  lemma NewHold(s: Sys, e: Event, h: Hold)
    requires Leased(s) && Enabled(s, e) && h !in s.holds && h in Step(s, e).holds
    ensures h.entry in Step(s, e).q.stream && h.entry in Step(s, e).q.pel
  {
    StepBooksAre(s, e);
    assert (e.entry, e.id, e.actor) in s.claims;
  }

  lemma StepHolds(s: Sys, e: Event, h: Hold)
    requires SingleLocation(s) && Enabled(s, e) && h in Step(s, e).holds
    ensures h.entry in Step(s, e).q.stream && h.entry in Step(s, e).q.pel
  {
    if h in s.holds { OldHold(s, e, h); } else { NewHold(s, e, h); }
  }

  /** A claimed entry leads to a body with a message, so nothing is judged an orphan. */
  lemma StepDoomsNothing(s: Sys, e: Event)
    requires SingleLocation(s) && Enabled(s, e)
    ensures Step(s, e).doomed == {}
  {
    if e.Load? { assert Faithful(s.q, (e.entry, e.id, e.actor).0, (e.entry, e.id, e.actor).1); }
  }

  lemma StepLeased(s: Sys, e: Event)
    requires SingleLocation(s) && Enabled(s, e) && Disciplined(s, e)
    ensures Leased(Step(s, e))
  {
    StepDoomsNothing(s, e);
    StepExclusive(s, e);
    forall c | c in Step(s, e).claims ensures c.0 in Step(s, e).q.stream && c.0 in Step(s, e).q.pel { StepClaims(s, e, c); }
    forall h | h in Step(s, e).holds ensures h.entry in Step(s, e).q.stream && h.entry in Step(s, e).q.pel { StepHolds(s, e, h); }
  }

  lemma StepKeepsSingleLocation(s: Sys, e: Event)
    requires SingleLocation(s) && Enabled(s, e) && Disciplined(s, e)
    ensures SingleLocation(Step(s, e))
  {
    StepKeepsNoneStranded(s, e);
    StepLocated(s, e);
    StepLeased(s, e);
  }

  ghost predicate DisciplinedRun(ss: seq<Sys>, es: seq<Event>) {
    Run(ss, es) && forall k :: 0 <= k < |es| ==> Disciplined(ss[k], es[k])
  }

  /** One location, in every disciplined run. */
  lemma {:induction false} AlwaysSingleLocation(ss: seq<Sys>, es: seq<Event>, k: nat)
    requires DisciplinedRun(ss, es) && k < |ss|
    ensures SingleLocation(ss[k])
  {
    if k > 0 {
      AlwaysSingleLocation(ss, es, k - 1);
      StepKeepsSingleLocation(ss[k - 1], es[k - 1]);
    }
  }

  /** The places that refer to a task. */
  function Places(q: Queue, id: Id): (r: set<Place>) {
    (set z | z in {ZScheduled, ZRetry, ZArchived, ZCompleted} && (z, id) in q.zs :: Waiting(z)) +
    (set e | e in q.stream && q.stream[e] == id :: InStream(e))
  }

  datatype Place = Waiting(z: ZSet) | InStream(entry: nat)

  /** What single location means for one task: exactly one place, named by its state. */
  lemma ExactlyOnePlace(s: Sys, id: Id)
    requires SingleLocation(s) && id in s.q.hash
    ensures exists p :: Places(s.q, id) == {p} &&
                        (p.Waiting? ==> s.q.hash[id].state == StateOf(p.z)) &&
                        (p.InStream? ==> InPipeline(s.q.hash[id].state))
  {
    var q := s.q;
    if InSomeZSet(q, id) {
      var z := SomeZSet(q, id);
      OnePlace(q, z, id);
      assert q.hash[(z, id).1].state == StateOf(z);
      assert Places(q, id) == {Waiting(z)};
    } else {
      assert HasEntry(q, s.doomed, id);
      var e :| e in q.stream && q.stream[e] == id;
      assert Places(q, id) == {InStream(e)};
    }
  }

  /** So a janitor pass deletes no body of a task still in the pipeline, waiting to run, or
      held by a worker. */
  lemma JanitorSparesThePipeline(s: Sys, z: ZSet, ids: seq<Id>, id: Id)
    requires SingleLocation(s) && Enabled(s, Background(Trim(z, ids)))
    requires id in s.q.hash && id !in Apply(s.q, Trim(z, ids)).hash
    ensures s.q.hash[id].state == Archived || s.q.hash[id].state == Completed
    ensures forall e :: e in s.q.stream ==> s.q.stream[e] != id
    ensures forall h {:trigger h in s.holds} :: h in s.holds ==> h.msg.id != id
  {
    OnePlace(s.q, z, id);
    assert s.q.hash[(z, id).1].state == StateOf(z);
  }
}
