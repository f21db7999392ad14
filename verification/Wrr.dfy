/** The smooth weighted round-robin picker of the fetch loop.

    A run of the picker is the sequence `cs` of its counters and the sequence `bs` of the
    queues it chose; `Run` says they belong together, and every promise about the picker
    is proved for all runs. */
module Wrr {

  const MAX_WEIGHT: int := 0x10_0000

  /** Any configured weight, moved into [1, MAX_WEIGHT]. */
  function NormalizeWeight(w: int): (r: int)
    ensures 1 <= r <= MAX_WEIGHT
    ensures 1 <= w <= MAX_WEIGHT ==> r == w
    ensures w < 1 ==> r == 1
    ensures w > MAX_WEIGHT ==> r == MAX_WEIGHT
  {
    if w <= 0 then 1 else if w > MAX_WEIGHT then MAX_WEIGHT else w
  }

  // ----- queue names in byte order -----

  predicate Less(a: string, b: string) {
    b != [] && (a == [] || a[0] < b[0] || (a[0] == b[0] && Less(a[1..], b[1..])))
  }

  lemma {:induction false} LessIrreflexive(a: string)
    ensures !Less(a, a)
  {
    if a != [] { LessIrreflexive(a[1..]); }
  }

  lemma {:induction false} LessTransitive(a: string, b: string, c: string)
    requires Less(a, b) && Less(b, c)
    ensures Less(a, c)
  {
    if a != [] && a[0] == b[0] && b[0] == c[0] { LessTransitive(a[1..], b[1..], c[1..]); }
  }

  lemma {:induction false} LessTotal(a: string, b: string)
    ensures a == b || Less(a, b) || Less(b, a)
  {
    if a != [] && b != [] && a[0] == b[0] {
      LessTotal(a[1..], b[1..]);
      assert a == [a[0]] + a[1..] && b == [b[0]] + b[1..];
    }
  }

  predicate Sorted(names: seq<string>) {
    forall i, j :: 0 <= i < j < |names| ==> Less(names[i], names[j])
  }

  lemma {:induction false} HasElement(b: seq<string>)
    requires b != []
    ensures exists q :: q in b
  {
    assert b[0] in b;
  }

  /** A set of names has one sorted listing, so two pickers over one map agree. */
  lemma {:induction false} SortedUnique(a: seq<string>, b: seq<string>)
    requires Sorted(a) && Sorted(b)
    requires forall q :: q in a <==> q in b
    ensures a == b
  {
    if a == [] {
      if b != [] {
        HasElement(b);
        assert false;
      }
    } else {
      assert a[0] in b;
      var i :| 0 <= i < |b| && b[i] == a[0];
      assert b[0] in a;
      var j :| 0 <= j < |a| && a[j] == b[0];
      if i > 0 && j > 0 { LessTransitive(a[0], b[0], a[0]); }
      LessIrreflexive(a[0]);
      LessIrreflexive(b[0]);
      assert a[0] == b[0];
      forall q ensures q in a[1..] <==> q in b[1..] {
        assert q in a[1..] ==> q in a && Less(a[0], q);
        assert q in b[1..] ==> q in b && Less(b[0], q);
      }
      SortedUnique(a[1..], b[1..]);
      assert a == [a[0]] + a[1..] && b == [b[0]] + b[1..];
    }
  }

  // ----- one pick, on values -----

  ghost predicate Weights(w: seq<int>) {
    |w| > 0 && forall i :: 0 <= i < |w| ==> w[i] >= 1
  }

  function Sum(s: seq<int>): int {
    if s == [] then 0 else Sum(s[..|s| - 1]) + s[|s| - 1]
  }

  function Raise(c: seq<int>, w: seq<int>): (r: seq<int>)
    requires |c| == |w|
  {
    seq(|c|, i requires 0 <= i < |c| => c[i] + w[i])
  }

  /** `b` is the first index holding the largest score. */
  predicate FirstMax(s: seq<int>, b: int) {
    && 0 <= b < |s|
    && (forall i :: 0 <= i < |s| ==> s[i] <= s[b])
    && (forall i :: 0 <= i < b ==> s[i] < s[b])
  }

  /** One pick: raise every counter by its weight, choose the first maximum, charge it `t`. */
  ghost predicate Pick(w: seq<int>, t: int, c: seq<int>, b: int, c': seq<int>) {
    && |c| == |w| == |c'|
    && FirstMax(Raise(c, w), b)
    && c' == Raise(c, w)[b := c[b] + w[b] - t]
  }

  function Zeros(n: nat): (r: seq<int>)
    ensures |r| == n
  {
    seq(n, _ => 0)
  }

  /** `cs` and `bs` are the counters and choices of a fresh picker with weights `w`. */
  ghost predicate Run(w: seq<int>, cs: seq<seq<int>>, bs: seq<int>) {
    && Weights(w)
    && |cs| == |bs| + 1
    && cs[0] == Zeros(|w|)
    && forall k :: 0 <= k < |bs| ==> Pick(w, Sum(w), cs[k], bs[k], cs[k + 1])
  }

  /** How often queue `i` occurs among the choices `bs`. */
  function Tally(bs: seq<int>, i: int): (n: nat)
    ensures n <= |bs|
  {
    if bs == [] then 0 else Tally(bs[..|bs| - 1], i) + if bs[|bs| - 1] == i then 1 else 0
  }

  // ----- sums and tallies -----

  lemma {:induction false} SumRaise(c: seq<int>, w: seq<int>)
    requires |c| == |w|
    ensures Sum(Raise(c, w)) == Sum(c) + Sum(w)
  {
    if |c| > 0 {
      var n := |c| - 1;
      assert Raise(c, w)[..n] == Raise(c[..n], w[..n]);
      SumRaise(c[..n], w[..n]);
    }
  }

  lemma {:induction false} SumUpdate(s: seq<int>, b: nat, v: int)
    requires b < |s|
    ensures Sum(s[b := v]) == Sum(s) - s[b] + v
  {
    var n := |s| - 1;
    if b == n {
      assert s[b := v][..n] == s[..n];
    } else {
      assert s[b := v][..n] == s[..n][b := v];
      SumUpdate(s[..n], b, v);
    }
  }

  lemma {:induction false} SumZeros(n: nat)
    ensures Sum(Zeros(n)) == 0
  {
    if n > 0 {
      assert Zeros(n)[..n - 1] == Zeros(n - 1);
      SumZeros(n - 1);
    }
  }

  lemma {:induction false} SumAtMost(s: seq<int>, bound: int)
    requires forall i :: 0 <= i < |s| ==> s[i] <= bound
    ensures Sum(s) <= |s| * bound
  {
    if s != [] { SumAtMost(s[..|s| - 1], bound); }
  }

  lemma {:induction false} SumAtLeast(s: seq<int>, bound: int)
    requires forall i :: 0 <= i < |s| ==> s[i] >= bound
    ensures Sum(s) >= |s| * bound
  {
    if s != [] { SumAtLeast(s[..|s| - 1], bound); }
  }

  /** Pointwise below and equal in sum means equal everywhere. */
  lemma {:induction false} SquashedEqual(a: seq<int>, b: seq<int>)
    requires |a| == |b| && forall i :: 0 <= i < |a| ==> a[i] <= b[i]
    ensures Sum(a) <= Sum(b)
    ensures Sum(a) == Sum(b) ==> a == b
  {
    if a != [] {
      var n := |a| - 1;
      SquashedEqual(a[..n], b[..n]);
      assert a == a[..n] + [a[n]] && b == b[..n] + [b[n]];
    }
  }

  lemma {:induction false} TotalPositive(w: seq<int>)
    requires Weights(w)
    ensures Sum(w) >= |w| >= 1
  {
    SumAtLeast(w, 1);
  }

  lemma {:induction false} TallyStep(bs: seq<int>, k: nat, i: int)
    requires k < |bs|
    ensures Tally(bs[..k + 1], i) == Tally(bs[..k], i) + if bs[k] == i then 1 else 0
  {
    assert bs[..k + 1][..k] == bs[..k];
  }

  function Tallies(bs: seq<int>, n: nat): (r: seq<int>)
    ensures |r| == n && forall i :: 0 <= i < n ==> r[i] == Tally(bs, i)
  {
    seq(n, i => Tally(bs, i))
  }

  lemma {:induction false} TalliesSum(bs: seq<int>, n: nat)
    requires forall k :: 0 <= k < |bs| ==> 0 <= bs[k] < n
    ensures Sum(Tallies(bs, n)) == |bs|
  {
    if bs == [] {
      assert Tallies(bs, n) == Zeros(n);
      SumZeros(n);
    } else {
      var rest, b := bs[..|bs| - 1], bs[|bs| - 1];
      TalliesSum(rest, n);
      assert Tallies(bs, n) == Tallies(rest, n)[b := Tallies(rest, n)[b] + 1];
      SumUpdate(Tallies(rest, n), b, Tallies(rest, n)[b] + 1);
    }
  }

  // ----- what every run keeps -----

  /** The counters always sum to zero. */
  lemma {:induction false} SumIsZero(w: seq<int>, cs: seq<seq<int>>, bs: seq<int>, k: nat)
    requires Run(w, cs, bs) && k < |cs|
    ensures |cs[k]| == |w| && Sum(cs[k]) == 0
  {
    if k == 0 {
      SumZeros(|w|);
    } else {
      SumIsZero(w, cs, bs, k - 1);
      var c, b := cs[k - 1], bs[k - 1];
      assert Pick(w, Sum(w), c, b, cs[k]);
      SumRaise(c, w);
      SumUpdate(Raise(c, w), b, c[b] + w[b] - Sum(w));
    }
  }

  /** The winner's raised score is positive: the raised scores sum to the total. */
  lemma {:induction false} WinnerPositive(w: seq<int>, c: seq<int>, b: int)
    requires Weights(w) && |c| == |w| && Sum(c) == 0 && FirstMax(Raise(c, w), b)
    ensures c[b] + w[b] > 0
  {
    SumRaise(c, w);
    TotalPositive(w);
    if c[b] + w[b] <= 0 { SumAtMost(Raise(c, w), 0); }
  }

  /** Over any stretch of picks a counter moves by its queue's due share minus what the
      queue was given; from pick 0 this is the counter itself. */
  lemma {:induction false} CounterMeaning(w: seq<int>, cs: seq<seq<int>>, bs: seq<int>, offset: nat, k: nat, i: nat)
    requires Run(w, cs, bs) && offset + k < |cs| && i < |w|
    ensures |cs[offset]| == |cs[offset + k]| == |w|
    ensures cs[offset + k][i] == cs[offset][i] + k * w[i] - Sum(w) * Tally(bs[offset..offset + k], i)
    ensures cs[0][i] == 0
  {
    OneCounterEach(w, cs, bs, offset);
    if k == 0 {
      assert bs[offset..offset] == [];
    } else {
      var last := offset + k - 1;
      CounterMeaning(w, cs, bs, offset, k - 1, i);
      OneMorePick(w, cs, bs, offset, last, i, k - 1);
    }
  }

  lemma {:induction false} OneCounterEach(w: seq<int>, cs: seq<seq<int>>, bs: seq<int>, k: nat)
    requires Run(w, cs, bs) && k < |cs|
    ensures |cs[k]| == |w| && |cs[0]| == |w| && forall i :: 0 <= i < |w| ==> cs[0][i] == 0
  {
    if k > 0 { assert Pick(w, Sum(w), cs[k - 1], bs[k - 1], cs[k]); }
  }

  lemma {:induction false} OneMorePick(w: seq<int>, cs: seq<seq<int>>, bs: seq<int>, offset: nat, last: nat, i: nat, k: int)
    requires Run(w, cs, bs) && offset <= last < |bs| && i < |w| && |cs[offset]| == |cs[last]| == |w|
    requires cs[last][i] == cs[offset][i] + k * w[i] - Sum(w) * Tally(bs[offset..last], i)
    ensures |cs[last + 1]| == |w|
    ensures cs[last + 1][i] == cs[offset][i] + (k + 1) * w[i] - Sum(w) * Tally(bs[offset..last + 1], i)
  {
    PickMoves(w, cs, bs, last, i);
    TallyMore(bs, offset, last, i);
    OwedStep(cs[offset][i], cs[last][i], cs[last + 1][i], k, w[i], Sum(w), Tally(bs[offset..last], i), bs[last] == i);
  }

  lemma {:induction false} PickMoves(w: seq<int>, cs: seq<seq<int>>, bs: seq<int>, k: nat, i: nat)
    requires Run(w, cs, bs) && k < |bs| && i < |w|
    ensures |cs[k]| == |cs[k + 1]| == |w|
    ensures cs[k + 1][i] == cs[k][i] + w[i] - if bs[k] == i then Sum(w) else 0
  {
    assert Pick(w, Sum(w), cs[k], bs[k], cs[k + 1]);
  }

  lemma {:induction false} TallyMore(bs: seq<int>, from: nat, k: nat, i: nat)
    requires from <= k < |bs|
    ensures Tally(bs[from..k + 1], i) == Tally(bs[from..k], i) + if bs[k] == i then 1 else 0
  {
    assert bs[from..k + 1][..k - from] == bs[from..k];
  }

  lemma {:induction false} OwedStep(start: int, prev: int, next: int, k: int, share: int, t: int, n: int, chosen: bool)
    requires prev == start + k * share - t * n && next == prev + share - if chosen then t else 0
    ensures next == start + (k + 1) * share - t * (n + if chosen then 1 else 0)
  {
    assert t * (n + 1) == t * n + t;
    assert (k + 1) * share == k * share + share;
  }

  /** Every counter stays above minus the total. */
  lemma {:induction false} LowerBound(w: seq<int>, cs: seq<seq<int>>, bs: seq<int>, k: nat, i: nat)
    requires Run(w, cs, bs) && k < |cs| && i < |w|
    ensures |cs[k]| == |w| && cs[k][i] > -Sum(w)
  {
    TotalPositive(w);
    if k > 0 {
      LowerBound(w, cs, bs, k - 1, i);
      SumIsZero(w, cs, bs, k - 1);
      assert Pick(w, Sum(w), cs[k - 1], bs[k - 1], cs[k]);
      WinnerPositive(w, cs[k - 1], bs[k - 1]);
    }
  }

  /** Every counter stays below (n-1) times the total. */
  lemma {:induction false} UpperBound(w: seq<int>, cs: seq<seq<int>>, bs: seq<int>, k: nat, i: nat)
    requires Run(w, cs, bs) && k < |cs| && i < |w|
    ensures |cs[k]| == |w| && cs[k][i] <= (|w| - 1) * (Sum(w) - 1)
  {
    SumIsZero(w, cs, bs, k);
    forall j | 0 <= j < |w| ensures cs[k][j] >= -(Sum(w) - 1) { LowerBound(w, cs, bs, k, j); }
    OneAgainstTheRest(cs[k], i, Sum(w) - 1);
  }

  /** If no element is below -m and the sum is zero, no element exceeds (n-1)*m. */
  lemma {:induction false} OneAgainstTheRest(c: seq<int>, i: nat, m: int)
    requires i < |c| && Sum(c) == 0 && forall j :: 0 <= j < |c| ==> c[j] >= -m
    ensures c[i] <= (|c| - 1) * m
  {
    var d := c[i := -m];
    SumUpdate(c, i, -m);
    SumAtLeast(d, -m);
    assert |c| * -m == -((|c| - 1) * m) - m;
  }

  /** With normalised weights and fewer than 2^21 queues no counter leaves 64 bits, even
      while it is raised, however long the picker runs. */
  lemma {:induction false} NeverOverflows(w: seq<int>, cs: seq<seq<int>>, bs: seq<int>, k: nat, i: nat)
    requires Run(w, cs, bs) && k < |cs| && i < |w| < 0x20_0000
    requires forall j :: 0 <= j < |w| ==> w[j] <= MAX_WEIGHT
    ensures |cs[k]| == |w|
    ensures -0x8000_0000_0000_0000 <= cs[k][i] && cs[k][i] + w[i] < 0x8000_0000_0000_0000
  {
    SumAtMost(w, MAX_WEIGHT);
    TotalPositive(w);
    LowerBound(w, cs, bs, k, i);
    UpperBound(w, cs, bs, k, i);
    MulMonotone(|w|, MAX_WEIGHT, 0x20_0000, MAX_WEIGHT);
    MulMonotone(|w| - 1, Sum(w) - 1, 0x20_0000, 0x20_0000 * MAX_WEIGHT);
  }

  lemma {:induction false} MulMonotone(a: int, b: int, c: int, d: int)
    requires 0 <= a <= c && 0 <= b <= d
    ensures a * b <= c * d
  {
    assert a * b <= c * b <= c * d;
  }

  // ----- exact fairness -----

  /** Within the first `total` picks no queue exceeds its weight: once it has had its share
      its raised score is not positive, while the winner's is. */
  lemma {:induction false} NeverOverServed(w: seq<int>, cs: seq<seq<int>>, bs: seq<int>, k: nat, i: nat)
    requires Run(w, cs, bs) && k < |cs| && k <= Sum(w) && i < |w|
    ensures Tally(bs[..k], i) <= w[i]
  {
    if k > 0 {
      NeverOverServed(w, cs, bs, k - 1, i);
      TallyStep(bs, k - 1, i);
      if bs[k - 1] == i && Tally(bs[..k - 1], i) == w[i] {
        CounterMeaning(w, cs, bs, 0, k - 1, i);
        assert bs[0..k - 1] == bs[..k - 1];
        SumIsZero(w, cs, bs, k - 1);
        assert Pick(w, Sum(w), cs[k - 1], bs[k - 1], cs[k]);
        WinnerPositive(w, cs[k - 1], i);
        ShareSpent(k, w[i], Sum(w));
        assert false;
      }
    }
  }

  lemma {:induction false} ShareSpent(k: nat, share: int, total: int)
    requires k <= total && share >= 1
    ensures (k - 1) * share - total * share + share <= 0
  {
    assert (k - 1) * share - total * share + share == (k - total) * share;
  }

  lemma {:induction false} ChoicesInRange(w: seq<int>, cs: seq<seq<int>>, bs: seq<int>, k: nat)
    requires Run(w, cs, bs) && k < |bs|
    ensures 0 <= bs[k] < |w|
  {
    assert Pick(w, Sum(w), cs[k], bs[k], cs[k + 1]);
  }

  /** One cycle of `total` picks serves every queue exactly its weight and ends at zero. */
  lemma {:induction false} FullCycle(w: seq<int>, cs: seq<seq<int>>, bs: seq<int>)
    requires Run(w, cs, bs) && 0 <= Sum(w) <= |bs|
    ensures Tallies(bs[..Sum(w)], |w|) == w
    ensures cs[Sum(w)] == Zeros(|w|)
  {
    var t := Sum(w);
    var got := Tallies(bs[..t], |w|);
    forall i | 0 <= i < |w| ensures got[i] <= w[i] { NeverOverServed(w, cs, bs, t, i); }
    forall k | 0 <= k < t ensures 0 <= bs[..t][k] < |w| { ChoicesInRange(w, cs, bs, k); }
    TalliesSum(bs[..t], |w|);
    SquashedEqual(got, w);
    SumIsZero(w, cs, bs, t);
    forall i | 0 <= i < |w| ensures cs[t][i] == 0 {
      CounterMeaning(w, cs, bs, 0, t, i);
      assert bs[0..t] == bs[..t];
      assert got[i] == w[i];
    }
    assert cs[t] == Zeros(|w|);
  }

  /** From equal counters a pick makes the same choice and leaves the same counters. */
  lemma {:induction false} PickDeterministic(w: seq<int>, t: int, c: seq<int>, b1: int, c1: seq<int>, b2: int, c2: seq<int>)
    requires Pick(w, t, c, b1, c1) && Pick(w, t, c, b2, c2)
    ensures b1 == b2 && c1 == c2
  {
    var up := Raise(c, w);
    assert up[b1] <= up[b2] <= up[b1];
  }

  /** The run repeats every `total` picks. */
  lemma {:induction false} Periodic(w: seq<int>, cs: seq<seq<int>>, bs: seq<int>, k: nat)
    requires Run(w, cs, bs) && 0 <= Sum(w) && k + Sum(w) <= |bs|
    ensures cs[k + Sum(w)] == cs[k]
    ensures k + Sum(w) < |bs| ==> bs[k + Sum(w)] == bs[k]
  {
    var t := Sum(w);
    if k == 0 {
      FullCycle(w, cs, bs);
    } else {
      Periodic(w, cs, bs, k - 1);
      assert Pick(w, t, cs[k - 1], bs[k - 1], cs[k]);
      assert Pick(w, t, cs[k - 1 + t], bs[k - 1 + t], cs[k - 1 + t + 1]);
    }
    if k + t < |bs| {
      TotalPositive(w);
      assert Pick(w, t, cs[k], bs[k], cs[k + 1]);
      assert Pick(w, t, cs[k + t], bs[k + t], cs[k + t + 1]);
      PickDeterministic(w, t, cs[k], bs[k], cs[k + 1], bs[k + t], cs[k + t + 1]);
    }
  }

  /** Exact weighted fairness: every window of `total` consecutive picks, at any offset,
      chooses each queue exactly its weight times. */
  lemma {:induction false} WindowFairness(w: seq<int>, cs: seq<seq<int>>, bs: seq<int>, offset: nat, i: nat)
    requires Run(w, cs, bs) && 0 <= Sum(w) && offset + Sum(w) <= |bs| && i < |w|
    ensures Tally(bs[offset..offset + Sum(w)], i) == w[i]
  {
    var t := Sum(w);
    TotalPositive(w);
    Periodic(w, cs, bs, offset);
    CounterMeaning(w, cs, bs, offset, t, i);
    Cancel(t, w[i], Tally(bs[offset..offset + t], i));
  }

  lemma {:induction false} Cancel(t: int, a: int, b: int)
    requires t >= 1 && t * a - t * b == 0
    ensures a == b
  {
    assert t * (a - b) == 0;
  }

  /** No queue starves: any `total` consecutive picks choose it. */
  lemma {:induction false} NoStarvation(w: seq<int>, cs: seq<seq<int>>, bs: seq<int>, offset: nat, i: nat)
    requires Run(w, cs, bs) && 0 <= Sum(w) && offset + Sum(w) <= |bs| && i < |w|
    ensures i in bs[offset..offset + Sum(w)]
  {
    WindowFairness(w, cs, bs, offset, i);
    var window := bs[offset..offset + Sum(w)];
    assert Tally(window, i) == w[i] > 0;
    TallyPositive(window, i);
  }

  lemma {:induction false} TallyPositive(bs: seq<int>, i: int)
    requires Tally(bs, i) > 0
    ensures i in bs
  {
    if bs[|bs| - 1] != i { TallyPositive(bs[..|bs| - 1], i); }
  }

  // ----- how far a counter can rise -----

  /** With at most three queues every counter stays within the total in magnitude. */
  lemma {:induction false} WithinTotal(w: seq<int>, cs: seq<seq<int>>, bs: seq<int>, k: nat, i: nat)
    requires Run(w, cs, bs) && k < |cs| && i < |w| <= 3
    ensures |cs[k]| == |w| && -Sum(w) < cs[k][i] < Sum(w)
  {
    TotalPositive(w);
    LowerBound(w, cs, bs, k, i);
    if k > 0 {
      WithinTotal(w, cs, bs, k - 1, i);
      var b := bs[k - 1];
      assert Pick(w, Sum(w), cs[k - 1], b, cs[k]);
      SumIsZero(w, cs, bs, k);
      forall j | 0 <= j < |w| ensures cs[k][j] > -Sum(w) { LowerBound(w, cs, bs, k, j); }
      WeightBelowTotal(w, i);
      if b != i { AgainstTheWinner(cs[k], i, b, Sum(w)); }
    }
  }

  lemma {:induction false} WeightBelowTotal(w: seq<int>, i: nat)
    requires Weights(w) && i < |w|
    ensures w[i] <= Sum(w)
  {
    SumUpdate(w, i, 0);
    SumAtLeast(w[i := 0], 0);
  }

  /** A loser is at most `t` above the charged winner; with one queue left over, and that
      one above -t, the loser is below t. */
  lemma {:induction false} AgainstTheWinner(c: seq<int>, i: nat, b: nat, t: int)
    requires i < |c| <= 3 && b < |c| && i != b && t >= 1 && Sum(c) == 0
    requires c[b] >= c[i] - t && forall j :: 0 <= j < |c| ==> c[j] > -t
    ensures c[i] < t
  {
    assert Sum(c[..1]) == c[0] by { assert c[..1][..0] == []; }
    assert Sum(c[..2]) == c[0] + c[1] by { assert c[..2][..1] == c[..1]; }
    if |c| == 2 { assert c[..2] == c; }
  }

  lemma {:induction false} Extend(w: seq<int>, cs: seq<seq<int>>, bs: seq<int>, b: int, c: seq<int>)
    requires Run(w, cs, bs) && Pick(w, Sum(w), cs[|cs| - 1], b, c)
    ensures Run(w, cs + [c], bs + [b])
  {
  }

  // ----- with four queues and more a counter can rise above the total -----

  datatype Quad = Quad(a: int, b: int, c: int, d: int)

  function At(q: Quad, i: nat): int
    requires i < 4
  {
    if i == 0 then q.a else if i == 1 then q.b else if i == 2 then q.c else q.d
  }

  function Raised(q: Quad): Quad { Quad(q.a + 1, q.b + 5, q.c + 37, q.d + 37) }

  function Moved(q: Quad, i: nat, step: int): Quad
    requires i < 4
  {
    match i
    case 0 => q.(a := q.a + step)
    case 1 => q.(b := q.b + step)
    case 2 => q.(c := q.c + step)
    case _ => q.(d := q.d + step)
  }

  function Scale(extra: nat): int { 100 * (extra + 1) }

  /** A scaled counter, less what its picks cost on top. */
  function Counter(extra: nat, x: int, picks: int): int { Scale(extra) * x - extra * picks }

  lemma {:induction false} CounterAdds(extra: nat, x: int, p: int, y: int, r: int)
    ensures Counter(extra, x + y, p + r) == Counter(extra, x, p) + Counter(extra, y, r)
  {
    Distributes(Scale(extra), x, y);
    Distributes(extra, p, r);
  }

  lemma {:induction false} Distributes(m: int, x: int, y: int)
    ensures m * (x + y) == m * x + m * y
  {
  }

  /** Four counters, and those of the other queues, which have not been picked yet. */
  function Climbed(extra: nat, q: Quad, picks: Quad, rest: int): (s: seq<int>)
    ensures |s| == 4 + extra
  {
    [Counter(extra, q.a, picks.a), Counter(extra, q.b, picks.b), Counter(extra, q.c, picks.c), Counter(extra, q.d, picks.d)]
      + seq(extra, _ => rest)
  }

  /** Weights 1, 5, 37 and 37, scaled up, and any number of queues of weight 1. */
  function LongWeights(extra: nat): (w: seq<int>)
    ensures |w| == 4 + extra
  {
    Climbed(extra, Quad(1, 5, 37, 37), Quad(0, 0, 0, 0), 1)
  }

  lemma {:induction false} SumOfTail(head: seq<int>, extra: nat)
    ensures Sum(head + seq(extra, _ => 1)) == Sum(head) + extra
  {
    var s := head + seq(extra, _ => 1);
    if extra == 0 {
      assert s == head;
    } else {
      SumOfTail(head, extra - 1);
      assert s[..|s| - 1] == head + seq(extra - 1, _ => 1);
    }
  }

  lemma {:induction false} LongTotal(extra: nat)
    ensures Weights(LongWeights(extra)) && Sum(LongWeights(extra)) == -Counter(extra, -80, 1)
  {
    var m := Scale(extra);
    var head := [m, 5 * m, 37 * m, 37 * m];
    assert head[..3] == [m, 5 * m, 37 * m];
    assert head[..3][..2] == [m, 5 * m];
    assert [m, 5 * m][..1] == [m];
    assert [m][..0] == [];
    assert Sum([m]) == m;
    assert Sum([m, 5 * m]) == 6 * m;
    assert Sum([m, 5 * m, 37 * m]) == 43 * m;
    assert Sum(head) == 80 * m;
    SumOfTail(head, extra);
    assert LongWeights(extra) == head + seq(extra, _ => 1);
  }

  /** Queue `i` is behind queue `b`: in the proportion, or by place and not by picks. */
  predicate IsBehind(q: Quad, picks: Quad, b: nat, i: nat)
    requires b < 4 && i < 4
  {
    At(q, i) < At(q, b) || (At(q, i) == At(q, b) && b <= i && At(picks, b) <= At(picks, i))
  }

  predicate Leads(q: Quad, picks: Quad, b: nat)
    requires b < 4
  {
    At(q, b) >= 1 && IsBehind(q, picks, b, 0) && IsBehind(q, picks, b, 1) && IsBehind(q, picks, b, 2) && IsBehind(q, picks, b, 3)
  }

  predicate FewPicks(picks: Quad) {
    0 <= picks.a <= 30 && 0 <= picks.b <= 30 && 0 <= picks.c <= 30 && 0 <= picks.d <= 30
  }

  lemma {:induction false} Product(e: nat, p: int, r: int)
    requires p <= r
    ensures e * p <= e * r
  {
    assert e * (r - p) >= 0;
    Distributes(e, r, -p);
  }

  lemma {:induction false} Ordered(extra: nat, x: int, px: int, y: int, py: int)
    requires 0 <= px <= 30 && 0 <= py <= 30
    ensures x < y ==> Counter(extra, x, px) + 30 < Counter(extra, y, py)
    ensures x == y && py <= px ==> Counter(extra, x, px) <= Counter(extra, y, py)
  {
    Product(extra, 0, px);
    Product(extra, py, 30);
    if x < y {
      Product(Scale(extra), x, y - 1);
      Distributes(Scale(extra), y, -1);
    } else if py <= px {
      Product(extra, py, px);
    }
  }

  lemma {:induction false} LeaderIsMax(extra: nat, q: Quad, picks: Quad, rest: int, b: nat)
    requires b < 4 && Leads(q, picks, b) && FewPicks(picks) && rest <= 30
    ensures FirstMax(Climbed(extra, q, picks, rest), b)
  {
    var s := Climbed(extra, q, picks, rest);
    forall i: nat | i < 4 ensures s[i] == Counter(extra, At(q, i), At(picks, i)) {}
    forall i: nat | i < 4 ensures s[i] <= s[b] && (i < b ==> s[i] < s[b]) {
      Ordered(extra, At(q, i), At(picks, i), At(q, b), At(picks, b));
      assert IsBehind(q, picks, b, i);
    }
    Ordered(extra, 0, 0, At(q, b), At(picks, b));
    assert Counter(extra, 0, 0) == 0;
  }

  lemma {:induction false} RaiseClimbed(extra: nat, q: Quad, picks: Quad, rest: int)
    ensures Raise(Climbed(extra, q, picks, rest), LongWeights(extra)) == Climbed(extra, Raised(q), picks, rest + 1)
  {
    CounterAdds(extra, q.a, picks.a, 1, 0);
    CounterAdds(extra, q.b, picks.b, 5, 0);
    CounterAdds(extra, q.c, picks.c, 37, 0);
    CounterAdds(extra, q.d, picks.d, 37, 0);
  }

  lemma {:induction false} ChargeClimbed(extra: nat, q: Quad, picks: Quad, rest: int, b: nat)
    requires b < 4
    ensures var s := Climbed(extra, q, picks, rest);
            s[b := s[b] + Counter(extra, -80, 1)] == Climbed(extra, Moved(q, b, -80), Moved(picks, b, 1), rest)
  {
    CounterAdds(extra, At(q, b), At(picks, b), -80, 1);
  }

  /** One pick of the climb. */
  lemma {:induction false} Climb(extra: nat, cs: seq<seq<int>>, bs: seq<int>, q: Quad, picks: Quad, rest: int, b: nat)
    returns (cs': seq<seq<int>>, bs': seq<int>)
    requires Run(LongWeights(extra), cs, bs) && cs[|cs| - 1] == Climbed(extra, q, picks, rest)
    requires b < 4 && Leads(Raised(q), picks, b) && FewPicks(picks) && rest < 30
    ensures Run(LongWeights(extra), cs', bs') && |cs'| == |cs| + 1
    ensures cs'[|cs|] == Climbed(extra, Moved(Raised(q), b, -80), Moved(picks, b, 1), rest + 1)
  {
    LongTotal(extra);
    RaiseClimbed(extra, q, picks, rest);
    LeaderIsMax(extra, Raised(q), picks, rest + 1, b);
    ChargeClimbed(extra, Raised(q), picks, rest + 1, b);
    var c := Climbed(extra, Moved(Raised(q), b, -80), Moved(picks, b, 1), rest + 1);
    Extend(LongWeights(extra), cs, bs, b, c);
    cs', bs' := cs + [c], bs + [b];
  }

  lemma {:induction false} NothingClimbed(extra: nat)
    ensures Climbed(extra, Quad(0, 0, 0, 0), Quad(0, 0, 0, 0), 0) == Zeros(4 + extra)
  {
    assert Counter(extra, 0, 0) == 0;
    var s := Climbed(extra, Quad(0, 0, 0, 0), Quad(0, 0, 0, 0), 0);
    forall i | 0 <= i < |s| ensures s[i] == 0 {}
  }

  lemma {:induction false} ClimbStart(extra: nat) returns (cs: seq<seq<int>>, bs: seq<int>)
    ensures Run(LongWeights(extra), cs, bs) && |cs| == 1 && cs[0] == Climbed(extra, Quad(0, 0, 0, 0), Quad(0, 0, 0, 0), 0)
  {
    LongTotal(extra);
    cs, bs := [Zeros(4 + extra)], [];
    NothingClimbed(extra);
  }

  lemma {:induction false} ClimbFirst(extra: nat) returns (cs: seq<seq<int>>, bs: seq<int>)
    ensures Run(LongWeights(extra), cs, bs) && |cs| == 8 && cs[7] == Climbed(extra, Quad(7, -45, 19, 19), Quad(0, 1, 3, 3), 7)
  {
    cs, bs := ClimbStart(extra);
    cs, bs := Climb(extra, cs, bs, Quad(0, 0, 0, 0), Quad(0, 0, 0, 0), 0, 2);
    cs, bs := Climb(extra, cs, bs, Quad(1, 5, -43, 37), Quad(0, 0, 1, 0), 1, 3);
    cs, bs := Climb(extra, cs, bs, Quad(2, 10, -6, -6), Quad(0, 0, 1, 1), 2, 2);
    cs, bs := Climb(extra, cs, bs, Quad(3, 15, -49, 31), Quad(0, 0, 2, 1), 3, 3);
    cs, bs := Climb(extra, cs, bs, Quad(4, 20, -12, -12), Quad(0, 0, 2, 2), 4, 1);
    cs, bs := Climb(extra, cs, bs, Quad(5, -55, 25, 25), Quad(0, 1, 2, 2), 5, 2);
    cs, bs := Climb(extra, cs, bs, Quad(6, -50, -18, 62), Quad(0, 1, 3, 2), 6, 3);
  }

  lemma {:induction false} ClimbSecond(extra: nat) returns (cs: seq<seq<int>>, bs: seq<int>)
    ensures Run(LongWeights(extra), cs, bs) && |cs| == 15 && cs[14] == Climbed(extra, Quad(14, -10, -42, 38), Quad(0, 1, 7, 6), 14)
  {
    cs, bs := ClimbFirst(extra);
    cs, bs := Climb(extra, cs, bs, Quad(7, -45, 19, 19), Quad(0, 1, 3, 3), 7, 2);
    cs, bs := Climb(extra, cs, bs, Quad(8, -40, -24, 56), Quad(0, 1, 4, 3), 8, 3);
    cs, bs := Climb(extra, cs, bs, Quad(9, -35, 13, 13), Quad(0, 1, 4, 4), 9, 2);
    cs, bs := Climb(extra, cs, bs, Quad(10, -30, -30, 50), Quad(0, 1, 5, 4), 10, 3);
    cs, bs := Climb(extra, cs, bs, Quad(11, -25, 7, 7), Quad(0, 1, 5, 5), 11, 2);
    cs, bs := Climb(extra, cs, bs, Quad(12, -20, -36, 44), Quad(0, 1, 6, 5), 12, 3);
    cs, bs := Climb(extra, cs, bs, Quad(13, -15, 1, 1), Quad(0, 1, 6, 6), 13, 2);
  }

  lemma {:induction false} ClimbThird(extra: nat) returns (cs: seq<seq<int>>, bs: seq<int>)
    ensures Run(LongWeights(extra), cs, bs) && |cs| == 21 && cs[20] == Climbed(extra, Quad(-60, 20, 20, 20), Quad(1, 1, 9, 9), 20)
  {
    cs, bs := ClimbSecond(extra);
    cs, bs := Climb(extra, cs, bs, Quad(14, -10, -42, 38), Quad(0, 1, 7, 6), 14, 3);
    cs, bs := Climb(extra, cs, bs, Quad(15, -5, -5, -5), Quad(0, 1, 7, 7), 15, 2);
    cs, bs := Climb(extra, cs, bs, Quad(16, 0, -48, 32), Quad(0, 1, 8, 7), 16, 3);
    cs, bs := Climb(extra, cs, bs, Quad(17, 5, -11, -11), Quad(0, 1, 8, 8), 17, 2);
    cs, bs := Climb(extra, cs, bs, Quad(18, 10, -54, 26), Quad(0, 1, 9, 8), 18, 3);
    cs, bs := Climb(extra, cs, bs, Quad(19, 15, -17, -17), Quad(0, 1, 9, 9), 19, 0);
  }

  lemma {:induction false} ClimbLast(extra: nat) returns (cs: seq<seq<int>>, bs: seq<int>)
    ensures Run(LongWeights(extra), cs, bs) && |cs| == 27 && cs[26] == Climbed(extra, Quad(-54, -30, 2, 82), Quad(1, 2, 12, 11), 26)
  {
    cs, bs := ClimbThird(extra);
    cs, bs := Climb(extra, cs, bs, Quad(-60, 20, 20, 20), Quad(1, 1, 9, 9), 20, 2);
    cs, bs := Climb(extra, cs, bs, Quad(-59, 25, -23, 57), Quad(1, 1, 10, 9), 21, 3);
    cs, bs := Climb(extra, cs, bs, Quad(-58, 30, 14, 14), Quad(1, 1, 10, 10), 22, 2);
    cs, bs := Climb(extra, cs, bs, Quad(-57, 35, -29, 51), Quad(1, 1, 11, 10), 23, 3);
    cs, bs := Climb(extra, cs, bs, Quad(-56, 40, 8, 8), Quad(1, 1, 11, 11), 24, 1);
    cs, bs := Climb(extra, cs, bs, Quad(-55, -35, 45, 45), Quad(1, 2, 11, 11), 25, 2);
  }

  /** With four queues or more a counter can rise above the total. */
  lemma {:induction false} AboveTotal(n: nat) returns (w: seq<int>, cs: seq<seq<int>>, bs: seq<int>)
    requires n >= 4
    ensures Run(w, cs, bs) && |w| == n && |cs| == 27
    ensures |cs[26]| == n && cs[26][3] > Sum(w)
  {
    var extra := n - 4;
    w := LongWeights(extra);
    cs, bs := ClimbLast(extra);
    LongTotal(extra);
  }

  /** Every counter is at most the total. */
  ghost predicate StaysWithin(w: seq<int>, cs: seq<seq<int>>) {
    forall k, i :: 0 <= k < |cs| && 0 <= i < |cs[k]| ==> cs[k][i] <= Sum(w)
  }

  /** The counters of all pickers over `n` queues stay within the total exactly for n <= 3. */
  lemma {:induction false} WithinTotalExactly(n: nat)
    requires n >= 1
    ensures (forall w, cs, bs :: Run(w, cs, bs) && |w| == n ==> StaysWithin(w, cs)) <==> n <= 3
  {
    if n <= 3 {
      forall w, cs, bs | Run(w, cs, bs) && |w| == n ensures StaysWithin(w, cs) {
        forall k, i | 0 <= k < |cs| && 0 <= i < |cs[k]| ensures cs[k][i] <= Sum(w) {
          SumIsZero(w, cs, bs, k);
          WithinTotal(w, cs, bs, k, i);
        }
      }
    } else {
      var w, cs, bs := AboveTotal(n);
      assert !StaysWithin(w, cs);
    }
  }

  // ----- the picker itself -----

  /** The queue names in sorted order, whatever order the map is iterated in. */
  method SortedNames(queues: map<string, int>) returns (names: seq<string>)
    ensures Sorted(names) && forall q :: q in names <==> q in queues
  {
    names := [];
    var rest := queues.Keys;
    while rest != {}
      invariant rest <= queues.Keys && Sorted(names)
      invariant forall q :: q in names <==> q in queues && q !in rest
      decreases |rest|
    {
      var q :| q in rest;
      names := Insert(names, q);
      rest := rest - {q};
    }
  }

  method Insert(names: seq<string>, q: string) returns (r: seq<string>)
    requires Sorted(names) && q !in names
    ensures Sorted(r) && forall x :: x in r <==> x in names || x == q
  {
    var i := 0;
    while i < |names| && Less(names[i], q)
      invariant 0 <= i <= |names|
      invariant forall j :: 0 <= j < i ==> Less(names[j], q)
    {
      i := i + 1;
    }
    if i < |names| { LessTotal(names[i], q); }
    forall j | i <= j < |names| ensures Less(q, names[j]) {
      if j > i { LessTransitive(q, names[i], names[j]); }
    }
    r := names[..i] + [q] + names[i..];
    forall x ensures x in r <==> x in names || x == q {
      assert names == names[..i] + names[i..];
    }
  }

  /** The weights a picker over `queues` gives to `names`. */
  function WeightsOf(queues: map<string, int>, names: seq<string>): (w: seq<int>)
    requires forall q :: q in names ==> q in queues
    ensures |w| == |names|
    ensures forall i :: 0 <= i < |w| ==> w[i] == NormalizeWeight(queues[names[i]])
  {
    seq(|names|, i requires 0 <= i < |names| => NormalizeWeight(queues[names[i]]))
  }

  /** The queue served is the one owed most, and of several the first by name; every queue earns its
      weight and the one served pays the total. */
  ghost predicate Served(names: seq<string>, w: seq<int>, total: int, c: seq<int>, c': seq<int>, b: int) {
    && |names| == |w| == |c| == |c'| && 0 <= b < |names|
    && (forall i :: 0 <= i < |names| ==> c[i] + w[i] <= c[b] + w[b])
    && (forall i :: 0 <= i < |names| && i != b && c[i] + w[i] == c[b] + w[b] ==> Less(names[b], names[i]))
    && (forall i :: 0 <= i < |names| ==> c'[i] == c[i] + w[i] - if i == b then total else 0)
  }

  lemma PickServes(names: seq<string>, w: seq<int>, total: int, c: seq<int>, b: int, c': seq<int>)
    requires Sorted(names) && |names| == |w| && Pick(w, total, c, b, c')
    ensures Served(names, w, total, c, c', b)
  {
    var s := Raise(c, w);
    forall i | 0 <= i < |names| ensures c[i] + w[i] <= c[b] + w[b] && c'[i] == c[i] + w[i] - if i == b then total else 0 {
      assert s[i] <= s[b];
    }
    forall i | 0 <= i < |names| && i != b && c[i] + w[i] == c[b] + w[b] ensures Less(names[b], names[i]) {
      assert s[i] == s[b];
    }
  }

  class Picker {
    const names: seq<string>
    const weights: array<int>
    const current: array<int>
    var total: int

    // every counter state and choice so far
    ghost var counters: seq<seq<int>>
    ghost var choices: seq<int>

    ghost predicate Valid()
      reads this, weights, current
    {
      && weights != current
      && Sorted(names)
      && |names| == weights.Length == current.Length
      && total == Sum(weights[..])
      && (names == [] ==> choices == [])
      && (names != [] ==>
            && Run(weights[..], counters, choices)
            && current[..] == counters[|counters| - 1])
    }

    constructor (queues: map<string, int>)
      ensures Valid() && fresh(weights) && fresh(current)
      ensures forall q :: q in names <==> q in queues
      ensures weights[..] == WeightsOf(queues, names)
      ensures choices == []
    {
      var ns := SortedNames(queues);
      var ws := new int[|ns|];
      var sum := 0;
      for i := 0 to |ns|
        invariant forall j :: 0 <= j < i ==> ws[j] == NormalizeWeight(queues[ns[j]])
        invariant sum == Sum(ws[..i])
      {
        ws[i] := NormalizeWeight(queues[ns[i]]);
        sum := sum + ws[i];
        assert ws[..i + 1][..i] == ws[..i];
      }
      assert ws[..] == ws[..|ns|];
      names := ns;
      weights := ws;
      current := new int[|ns|](_ => 0);
      total := sum;
      counters := [Zeros(|ns|)];
      choices := [];
      new;
      assert current[..] == Zeros(|names|);
    }

    /** The next queue of the sequence, or "" from an empty picker. */
    method Pick() returns (q: string)
      requires Valid()
      modifies this`counters, this`choices, current
      ensures Valid()
      ensures names == [] ==> q == "" && choices == old(choices)
      ensures names != [] ==> |choices| == |old(choices)| + 1 && choices[..|old(choices)|] == old(choices)
      ensures names != [] ==> 0 <= choices[|choices| - 1] < |names| && q == names[choices[|choices| - 1]]
      ensures weights[..] == old(weights[..]) && total == old(total)
      ensures names != [] ==> Served(names, weights[..], total, old(current[..]), current[..], choices[|choices| - 1])
    {
      if |names| == 0 { return ""; }
      ghost var before, w := current[..], weights[..];
      var best := 0;
      for i := 0 to |names|
        invariant 0 <= best < |names| && (i > 0 ==> best < i) && (i == 0 ==> best == 0)
        invariant forall j :: 0 <= j < i ==> current[j] == before[j] + w[j]
        invariant forall j :: i <= j < |names| ==> current[j] == before[j]
        invariant forall j :: 0 <= j < i ==> current[j] <= current[best]
        invariant forall j :: 0 <= j < best ==> current[j] < current[best]
        modifies current
      {
        current[i] := current[i] + weights[i];
        if current[i] > current[best] {
          best := i;
        }
      }
      assert current[..] == Raise(before, w);
      current[best] := current[best] - total;
      assert current[..] == Raise(before, w)[best := before[best] + w[best] - total];
      PickServes(names, w, total, before, best, current[..]);
      Extend(w, counters, choices, best, current[..]);
      counters := counters + [current[..]];
      choices := choices + [best];
      q := names[best];
    }
  }
}
