/** The fetch loop: the order in which a round asks the queues, and the accounting of worker
    slots while workers finish at any time. */
module Fetch {
  import opened Wrr

  // ----- queue order -----

  /** Weight descending, then name ascending. */
  predicate Before(queues: map<string, int>, a: string, b: string)
    requires a in queues && b in queues
  {
    var wa, wb := NormalizeWeight(queues[a]), NormalizeWeight(queues[b]);
    wa > wb || (wa == wb && Less(a, b))
  }

  ghost predicate Named(queues: map<string, int>, names: seq<string>) {
    forall i :: 0 <= i < |names| ==> names[i] in queues
  }

  ghost predicate ByWeight(queues: map<string, int>, names: seq<string>) {
    Named(queues, names) && forall i, j :: 0 <= i < j < |names| ==> Before(queues, names[i], names[j])
  }

  lemma BeforeTransitive(queues: map<string, int>, a: string, b: string, c: string)
    requires a in queues && b in queues && c in queues && Before(queues, a, b) && Before(queues, b, c)
    ensures Before(queues, a, c)
  {
    if Less(a, b) && Less(b, c) { LessTransitive(a, b, c); }
  }

  lemma BeforeTotal(queues: map<string, int>, a: string, b: string)
    requires a in queues && b in queues && a != b
    ensures Before(queues, a, b) || Before(queues, b, a)
  {
    LessTotal(a, b);
  }

  lemma BeforeIrreflexive(queues: map<string, int>, a: string)
    requires a in queues
    ensures !Before(queues, a, a)
  {
    LessIrreflexive(a);
  }

  /** Put a new queue at its place. */
  method Place(queues: map<string, int>, names: seq<string>, q: string) returns (r: seq<string>)
    requires ByWeight(queues, names) && q in queues && q !in names
    ensures ByWeight(queues, r) && forall x :: x in r <==> x in names || x == q
  {
    var i := 0;
    while i < |names| && Before(queues, names[i], q)
      invariant i <= |names| && forall j :: 0 <= j < i ==> Before(queues, names[j], q)
    {
      i := i + 1;
    }
    r := names[..i] + [q] + names[i..];
    forall j | i <= j < |names| ensures Before(queues, q, names[j]) {
      BeforeTotal(queues, names[i], q);
      if i < j { BeforeTransitive(queues, q, names[i], names[j]); }
    }
    forall x ensures x in r <==> x in names || x == q {
      assert names == names[..i] + names[i..];
    }
  }

  method QueuesByWeight(queues: map<string, int>) returns (names: seq<string>)
    ensures ByWeight(queues, names) && forall q :: q in names <==> q in queues
  {
    names := [];
    var rest := queues.Keys;
    while rest != {}
      invariant rest <= queues.Keys && ByWeight(queues, names)
      invariant forall q :: q in names <==> q in queues && q !in rest
      decreases |rest|
    {
      var q :| q in rest;
      names := Place(queues, names, q);
      rest := rest - {q};
    }
  }

  lemma FirstIsLeast(queues: map<string, int>, a: seq<string>, b: seq<string>)
    requires ByWeight(queues, a) && ByWeight(queues, b) && a != [] && b != [] && (forall q :: q in a <==> q in b)
    ensures a[0] == b[0]
  {
    assert a[0] in b && b[0] in a;
    var i :| 0 <= i < |b| && b[i] == a[0];
    var j :| 0 <= j < |a| && a[j] == b[0];
    if i > 0 && j > 0 {
      BeforeTransitive(queues, a[0], b[0], a[0]);
      BeforeIrreflexive(queues, a[0]);
    }
  }

  lemma NotAgain(queues: map<string, int>, a: seq<string>)
    requires ByWeight(queues, a) && a != []
    ensures a[0] !in a[1..]
  {
    if a[0] in a[1..] {
      var i :| 0 <= i < |a[1..]| && a[1..][i] == a[0];
      assert Before(queues, a[0], a[i + 1]);
      BeforeIrreflexive(queues, a[0]);
    }
  }

  /** The order depends on the configuration alone, not on the iteration order of the map. */
  lemma {:induction false} ByWeightUnique(queues: map<string, int>, a: seq<string>, b: seq<string>)
    requires ByWeight(queues, a) && ByWeight(queues, b) && (forall q :: q in a <==> q in b)
    ensures a == b
  {
    if a == [] {
      if b != [] { HasElement(b); }
    } else if b == [] {
      HasElement(a);
    } else {
      FirstIsLeast(queues, a, b);
      NotAgain(queues, a);
      NotAgain(queues, b);
      assert a == [a[0]] + a[1..] && b == [b[0]] + b[1..];
      forall q ensures q in a[1..] <==> q in b[1..] {
        assert q in a <==> q == a[0] || q in a[1..];
        assert q in b <==> q == b[0] || q in b[1..];
      }
      ByWeightUnique(queues, a[1..], b[1..]);
    }
  }

  // ----- the order of one round -----

  function Unpaused(names: seq<string>, paused: set<string>): seq<string> {
    if names == [] then []
    else Unpaused(names[..|names| - 1], paused) + if names[|names| - 1] in paused then [] else [names[|names| - 1]]
  }

  /** Strict priority sweeps by weight; otherwise the picked queue comes first. */
  function RoundOrder(byWeight: seq<string>, strict: bool, primary: string, paused: set<string>): seq<string> {
    Unpaused(if strict then byWeight else [primary] + Unpaused(byWeight, {primary}), paused)
  }

  method ComputeOrder(byWeight: seq<string>, strict: bool, primary: string, paused: set<string>) returns (order: seq<string>)
    ensures order == RoundOrder(byWeight, strict, primary, paused)
  {
    if strict {
      order := byWeight;
    } else {
      var rest := Filter(byWeight, {primary});
      order := [primary] + rest;
    }
    if paused != {} {
      order := Filter(order, paused);
    } else {
      NothingPaused(order);
    }
  }

  method Filter(names: seq<string>, out: set<string>) returns (kept: seq<string>)
    ensures kept == Unpaused(names, out)
  {
    kept := [];
    for i := 0 to |names|
      invariant kept == Unpaused(names[..i], out)
    {
      assert names[..i + 1][..i] == names[..i];
      if names[i] !in out { kept := kept + [names[i]]; }
    }
    assert names[..|names|] == names;
  }

  lemma {:induction false} NothingPaused(names: seq<string>)
    ensures Unpaused(names, {}) == names
  {
    if names != [] { NothingPaused(names[..|names| - 1]); }
  }

  /** Filtering keeps exactly the queues that are not paused, as often as they occur. */
  lemma {:induction false} UnpausedCounts(names: seq<string>, paused: set<string>, q: string)
    ensures multiset(Unpaused(names, paused))[q] == if q in paused then 0 else multiset(names)[q]
  {
    if names != [] {
      UnpausedCounts(names[..|names| - 1], paused, q);
      assert names == names[..|names| - 1] + [names[|names| - 1]];
    }
  }

  /** In the order by weight every queue occurs once. */
  lemma {:induction false} NamedOnce(queues: map<string, int>, names: seq<string>, q: string)
    requires ByWeight(queues, names)
    ensures multiset(names)[q] == if q in names then 1 else 0
  {
    if names != [] {
      NotAgain(queues, names);
      NamedOnce(queues, names[1..], q);
      assert names == [names[0]] + names[1..];
    }
  }

  /** Every queue that is not paused is asked exactly once in every round, the picked queue
      first, so that no worker idles while a queue has work. */
  lemma RoundAsksEveryQueue(queues: map<string, int>, byWeight: seq<string>, strict: bool, primary: string, paused: set<string>, q: string)
    requires ByWeight(queues, byWeight) && primary in byWeight
    ensures multiset(RoundOrder(byWeight, strict, primary, paused))[q] == if q in byWeight && q !in paused then 1 else 0
    ensures !strict && primary !in paused ==>
              var order := RoundOrder(byWeight, strict, primary, paused); order != [] && order[0] == primary
  {
    var sweep := if strict then byWeight else [primary] + Unpaused(byWeight, {primary});
    NamedOnce(queues, byWeight, q);
    NamedOnce(queues, byWeight, primary);
    UnpausedCounts(byWeight, {primary}, q);
    UnpausedCounts(sweep, paused, q);
    if !strict && primary !in paused { FilteredFront(primary, Unpaused(byWeight, {primary}), paused); }
  }

  /** Leaving queues out keeps the order by weight. */
  lemma {:induction false} FilteredByWeight(queues: map<string, int>, names: seq<string>, out: set<string>)
    requires ByWeight(queues, names)
    ensures ByWeight(queues, Unpaused(names, out)) && forall q :: q in Unpaused(names, out) ==> q in names
  {
    if names != [] {
      var n := |names| - 1;
      FilteredByWeight(queues, names[..n], out);
      var front := Unpaused(names[..n], out);
      forall i | 0 <= i < |front| ensures Before(queues, front[i], names[n]) {
        assert front[i] in names[..n];
        var k :| 0 <= k < n && names[k] == front[i];
      }
    }
  }

  lemma {:induction false} FilteredFront(q: string, rest: seq<string>, out: set<string>)
    ensures Unpaused([q] + rest, out) == (if q in out then [] else [q]) + Unpaused(rest, out)
    decreases |rest|
  {
    var all := [q] + rest;
    if rest == [] {
      assert all[..0] == [] && all[0] == q;
    } else {
      assert all[..|all| - 1] == [q] + rest[..|rest| - 1];
      FilteredFront(q, rest[..|rest| - 1], out);
    }
  }

  /** A strict round asks the queues by weight, then by name. Otherwise the picked queue is asked
      first, unless it is paused, and all the others by weight, then by name. */
  lemma RoundOrderByWeight(queues: map<string, int>, byWeight: seq<string>, strict: bool, primary: string, paused: set<string>, order: seq<string>)
    requires ByWeight(queues, byWeight) && order == RoundOrder(byWeight, strict, primary, paused)
    ensures strict || primary in paused ==> ByWeight(queues, order)
    ensures !strict && primary !in paused ==> order != [] && order[0] == primary && primary !in order[1..] && ByWeight(queues, order[1..])
  {
    if strict {
      FilteredByWeight(queues, byWeight, paused);
    } else {
      var rest := Unpaused(byWeight, {primary});
      FilteredByWeight(queues, byWeight, {primary});
      FilteredByWeight(queues, rest, paused);
      FilteredFront(primary, rest, paused);
      UnpausedCounts(byWeight, {primary}, primary);
      assert primary !in rest;
    }
  }

  // ----- slots -----

  const MAX_FETCH_BATCH: nat := 128

  datatype At =
    | Top
    | Holding                                  // one slot taken for this round
    | Sized(batch: int)                        // about to dequeue up to `batch` tasks
    | Dispatching(left: nat, first: bool)      // claimed tasks not started; the first uses the held slot
    | Exited

  /** `used` is the length of the semaphore channel, `size` its capacity. */
  datatype Loop = Loop(size: nat, used: nat, running: nat, at: At)

  datatype Event =
    | Take                      // acquire a slot for the round
    | Quit                      // cancelled before a slot was taken
    | AllPaused(stop: bool)     // nothing to ask: give the slot back
    | Size
    | Claim(n: nat)             // a dequeue returned n tasks
    | NoTask                    // empty, failed or timed out: give the slot back
    | Cancelled                 // cancelled in a dequeue: give the slot back and exit
    | StartWorker
    | PutBack                   // no slot could be had for a claimed task
    | Finished                  // a worker returns, at any time

  function BatchOf(size: nat, used: nat): int {
    var free := 1 + size - used;
    if free < 1 then 1 else if free > MAX_FETCH_BATCH then MAX_FETCH_BATCH else free
  }

  predicate Enabled(l: Loop, e: Event) {
    match e
    case Take => l.at == Top && l.used < l.size
    case Quit => l.at == Top
    case AllPaused(_) => l.at == Holding
    case Size => l.at == Holding
    case Claim(n) => l.at.Sized? && 1 <= n <= l.at.batch
    case NoTask => l.at.Sized?
    case Cancelled => l.at.Sized?
    case StartWorker => l.at.Dispatching? && l.at.left > 0 && (l.at.first || l.used < l.size)
    case PutBack => l.at.Dispatching? && l.at.left > 0 && !l.at.first && l.used >= l.size
    case Finished => l.running > 0 && l.used > 0
  }

  function Release(l: Loop): Loop {
    l.(used := if l.used > 0 then l.used - 1 else 0)
  }

  function Step(l: Loop, e: Event): Loop
    requires Enabled(l, e)
  {
    match e
    case Take => l.(used := l.used + 1, at := Holding)
    case Quit => l.(at := Exited)
    case AllPaused(stop) => Release(l).(at := if stop then Exited else Top)
    case Size => l.(at := Sized(BatchOf(l.size, l.used)))
    case Claim(n) => l.(at := Dispatching(n, true))
    case NoTask => Release(l).(at := Top)
    case Cancelled => Release(l).(at := Exited)
    case StartWorker =>
      var used := if l.at.first then l.used else l.used + 1;
      Loop(l.size, used, l.running + 1, if l.at.left == 1 then Top else Dispatching(l.at.left - 1, false))
    case PutBack => l.(at := Exited)
    case Finished => Release(l).(running := l.running - 1)
  }

  ghost predicate IsRun(size: nat, ls: seq<Loop>, es: seq<Event>) {
    && |ls| == |es| + 1 && ls[0] == Loop(size, 0, 0, Top)
    && forall k :: 0 <= k < |es| ==> Enabled(ls[k], es[k]) && ls[k + 1] == Step(ls[k], es[k])
  }

  function HeldSlots(at: At): nat {
    if at == Holding || at.Sized? || (at.Dispatching? && at.first) then 1 else 0
  }

  /** The channel counts exactly the running workers and the slot held for the round, and
      what is still to start always fits into the free slots. */
  predicate Inv(l: Loop) {
    && l.used == l.running + HeldSlots(l.at)
    && l.used <= l.size
    && (l.at.Sized? ==> 1 <= l.at.batch <= 1 + l.size - l.used && l.at.batch <= MAX_FETCH_BATCH)
    && (l.at.Dispatching? ==> 1 <= l.at.left <= HeldSlots(l.at) + l.size - l.used)
  }

  lemma {:induction false} AlwaysInv(size: nat, ls: seq<Loop>, es: seq<Event>, k: nat)
    requires IsRun(size, ls, es) && k < |ls|
    ensures Inv(ls[k]) && ls[k].size == size
  {
    if k > 0 {
      AlwaysInv(size, ls, es, k - 1);
      assert ls[k] == Step(ls[k - 1], es[k - 1]);
    }
  }

  /** No slot is leaked and none is waited for: workers never exceed the concurrency, every
      claimed task can start at once, no claimed task is ever put back for want of a slot,
      and between rounds and after the loop the channel counts the workers only. */
  lemma SlotsAreExact(size: nat, ls: seq<Loop>, es: seq<Event>, k: nat)
    requires IsRun(size, ls, es) && k < |ls|
    ensures ls[k].running <= size
    ensures ls[k].at.Dispatching? ==> Enabled(ls[k], StartWorker)
    ensures !Enabled(ls[k], PutBack)
    ensures ls[k].at == Top || ls[k].at == Exited ==> ls[k].used == ls[k].running
    ensures k < |es| ==> es[k] != PutBack
  {
    AlwaysInv(size, ls, es, k);
  }

  /** A round asks for as many tasks as there are slots without a worker, at most 128. */
  lemma BatchFillsSlots(size: nat, ls: seq<Loop>, es: seq<Event>, k: nat)
    requires IsRun(size, ls, es) && k < |es| && es[k] == Size
    ensures var free := size - ls[k].running;
            free >= 1 && ls[k + 1].at == Sized(if free > 128 then 128 else free)
  {
    AlwaysInv(size, ls, es, k);
  }

  /** The server's semaphore and its workers. */
  class Slots {
    const size: nat
    var used: nat
    var running: nat

    constructor (concurrency: nat)
      ensures size == concurrency && used == 0 && running == 0
    {
      size, used, running := concurrency, 0, 0;
    }

    /** Start a worker for every claimed task, the first on the held slot; `finished[i]`
        workers return before the i-th start. A task that finds no free slot, and those
        after it, go back to the stream; a batch that was sized to the free slots has none. */
    method Dispatch<T>(tasks: seq<T>, finished: seq<nat>) returns (started: seq<T>, putBack: seq<T>)
      requires used == running + 1 && used <= size && |finished| == |tasks|
      modifies this
      ensures started + putBack == tasks && running <= size
      ensures tasks != [] ==> used == running
      ensures |tasks| <= BatchOf(size, old(used)) ==> putBack == []
    {
      started, putBack := [], [];
      var i := 0;
      while i < |tasks|
        invariant i <= |tasks|
        invariant started == tasks[..i] && putBack == []
        invariant used == running + (if i == 0 then 1 else 0) && used <= size
        invariant |tasks| <= BatchOf(size, old(used)) ==> used + (|tasks| - i) <= size + (if i == 0 then 1 else 0)
      {
        var back := if finished[i] <= running then finished[i] else running;
        running, used := running - back, used - back;
        if i > 0 {
          if used >= size {
            putBack := tasks[i..];
            return;
          }
          used := used + 1;
        }
        running := running + 1;
        started := started + [tasks[i]];
        i := i + 1;
      }
    }
  }
}
