/** Repeated trims of a state ZSET: what one removes, and that they converge. */
module Janitor {
  import opened Ids
  import opened Base
  import opened Store
  import opened Scripts

  /** One call of the trim script took `q` to `r`: it removed `expired` by age, then `excess`
      by size. */
  ghost predicate Trims(q: Queue, z: ZSet, cutoff: int, maxSize: int, batch: nat, expired: seq<Id>, excess: seq<Id>, r: Queue) {
    && IsRange(q, z, Some(cutoff), batch, expired)
    && var m := Apply(q, Trim(z, expired));
       && IsRange(m, z, None, OverSize(m, z, maxSize, batch), excess)
       && r == Apply(m, Trim(z, excess))
  }

  function SetOf(ids: seq<Id>): set<Id> { set i | 0 <= i < |ids| :: ids[i] }

  lemma {:induction false} DistinctCount(ids: seq<Id>)
    requires forall i, j :: 0 <= i < j < |ids| ==> ids[i] != ids[j]
    ensures |SetOf(ids)| == |ids|
  {
    if ids != [] {
      var n := |ids| - 1;
      DistinctCount(ids[..n]);
      assert SetOf(ids) == SetOf(ids[..n]) + {ids[n]};
    }
  }

  lemma SubsetSize(a: set<Id>, b: set<Id>)
    requires b <= a
    ensures |a - b| == |a| - |b|
  {
    assert a == (a - b) + b;
  }

  lemma TrimScores(q: Queue, z: ZSet, ids: seq<Id>, id: Id)
    ensures var r := Apply(q, Trim(z, ids));
            && ((z, id) in r.zs <==> (z, id) in q.zs && id !in ids)
            && ((z, id) in r.zs ==> r.zs[(z, id)] == q.zs[(z, id)])
            && (id in ids ==> id !in r.hash)
  {
  }

  lemma MembersAfter(q: Queue, z: ZSet, ids: seq<Id>)
    ensures Members(Apply(q, Trim(z, ids)), z) == Members(q, z) - SetOf(ids)
  {
    var r := Apply(q, Trim(z, ids));
    forall id ensures id in Members(r, z) <==> id in Members(q, z) && id !in ids {
      TrimScores(q, z, ids, id);
      MemberIs(q, z, id);
      MemberIs(r, z, id);
    }
  }

  lemma RangeIsSubset(q: Queue, z: ZSet, cutoff: Option<int>, limit: nat, ids: seq<Id>)
    requires IsRange(q, z, cutoff, limit, ids)
    ensures SetOf(ids) <= Members(q, z) && |SetOf(ids)| == |ids|
  {
    forall i | 0 <= i < |ids| ensures ids[i] in Members(q, z) { MemberIs(q, z, ids[i]); }
    DistinctCount(ids);
  }

  /** Removing a range of a ZSET takes exactly its members away. */
  lemma RemoveRange(q: Queue, z: ZSet, cutoff: Option<int>, limit: nat, ids: seq<Id>)
    requires IsRange(q, z, cutoff, limit, ids)
    ensures |Members(Apply(q, Trim(z, ids)), z)| == |Members(q, z)| - |ids|
  {
    MembersAfter(q, z, ids);
    RangeIsSubset(q, z, cutoff, limit, ids);
    SubsetSize(Members(q, z), SetOf(ids));
  }

  lemma MemberIs(q: Queue, z: ZSet, id: Id)
    ensures id in Members(q, z) <==> (z, id) in q.zs
  {
    if (z, id) in q.zs { assert (z, id) in q.zs && (z, id).0 == z; }
  }

  /** Each call removes at most two batches and returns exactly the drop in size. */
  lemma TrimReturnsDrop(q: Queue, z: ZSet, cutoff: int, maxSize: int, batch: nat, expired: seq<Id>, excess: seq<Id>, r: Queue)
    requires Trims(q, z, cutoff, maxSize, batch, expired, excess, r)
    ensures |expired| + |excess| == |Members(q, z)| - |Members(r, z)| <= 2 * batch
  {
    var m := Apply(q, Trim(z, expired));
    RemoveRange(q, z, Some(cutoff), batch, expired);
    RemoveRange(m, z, None, OverSize(m, z, maxSize, batch), excess);
  }

  /** What stays keeps its score. */
  lemma TrimKeepsScores(q: Queue, z: ZSet, cutoff: int, maxSize: int, batch: nat, expired: seq<Id>, excess: seq<Id>, r: Queue)
    requires Trims(q, z, cutoff, maxSize, batch, expired, excess, r)
    ensures forall id :: (z, id) in r.zs ==> (z, id) in q.zs && r.zs[(z, id)] == q.zs[(z, id)]
  {
    forall id | (z, id) in r.zs ensures (z, id) in q.zs && r.zs[(z, id)] == q.zs[(z, id)] {
      TrimScores(q, z, expired, id);
      TrimScores(Apply(q, Trim(z, expired)), z, excess, id);
    }
  }

  /** The age pass removes only tasks past the cutoff, the size pass only tasks scored no
      higher than any that stays, and both take the body along. */
  lemma TrimRemovesOldest(q: Queue, z: ZSet, cutoff: int, maxSize: int, batch: nat, expired: seq<Id>, excess: seq<Id>, r: Queue, gone: Id, kept: Id)
    requires Trims(q, z, cutoff, maxSize, batch, expired, excess, r)
    requires (z, gone) in q.zs && (z, gone) !in r.zs && (z, kept) in r.zs
    ensures gone !in r.hash
    ensures q.zs[(z, gone)] <= cutoff || q.zs[(z, gone)] <= q.zs[(z, kept)]
  {
    var m := Apply(q, Trim(z, expired));
    TrimScores(q, z, expired, gone);
    TrimScores(q, z, expired, kept);
    TrimScores(m, z, excess, gone);
    TrimScores(m, z, excess, kept);
    if gone in expired {
      var i :| 0 <= i < |expired| && expired[i] == gone;
      assert InReach(Score(q, z, expired[i]), Some(cutoff));
    } else {
      var i :| 0 <= i < |excess| && excess[i] == gone;
      assert Score(m, z, excess[i]) <= Score(m, z, kept);
    }
  }

  /** Nothing left to trim. */
  ghost predicate Clean(q: Queue, z: ZSet, cutoff: int, maxSize: int) {
    && (forall id :: (z, id) in q.zs ==> q.zs[(z, id)] > cutoff)
    && (maxSize >= 0 ==> |Members(q, z)| <= maxSize)
  }

  /** A call that has something to trim trims something; a call that has nothing does nothing. */
  lemma TrimMakesProgress(q: Queue, z: ZSet, cutoff: int, maxSize: int, batch: nat, expired: seq<Id>, excess: seq<Id>, r: Queue)
    requires Trims(q, z, cutoff, maxSize, batch, expired, excess, r) && batch >= 1
    ensures Clean(q, z, cutoff, maxSize) <==> |Members(r, z)| == |Members(q, z)|
    ensures Clean(q, z, cutoff, maxSize) ==> Clean(r, z, cutoff, maxSize)
  {
    TrimReturnsDrop(q, z, cutoff, maxSize, batch, expired, excess, r);
    TrimKeepsScores(q, z, cutoff, maxSize, batch, expired, excess, r);
    if expired == [] { TrimNone(q, z); }
    if Clean(q, z, cutoff, maxSize) {
      if expired != [] { SomeExpired(q, z, cutoff, batch, expired); }
      assert expired == [];
      assert OverSize(q, z, maxSize, batch) == 0;
      assert excess == [];
    } else if expired == [] && excess == [] {
      forall id | (z, id) in q.zs ensures q.zs[(z, id)] > cutoff { assert !InReach(Score(q, z, id), Some(cutoff)); }
      if OverSize(q, z, maxSize, batch) > 0 { NonEmpty(q, z, maxSize, batch); }
    }
  }

  lemma SomeExpired(q: Queue, z: ZSet, cutoff: int, batch: nat, ids: seq<Id>)
    requires IsRange(q, z, Some(cutoff), batch, ids) && ids != []
    ensures exists id :: (z, id) in q.zs && q.zs[(z, id)] <= cutoff
  {
    assert (z, ids[0]) in q.zs && InReach(Score(q, z, ids[0]), Some(cutoff));
  }

  /** A ZSET over its cap has a lowest-scored member to remove. */
  lemma NonEmpty(q: Queue, z: ZSet, maxSize: int, batch: nat)
    requires OverSize(q, z, maxSize, batch) > 0
    ensures !IsRange(q, z, None, OverSize(q, z, maxSize, batch), [])
  {
    assert |Members(q, z)| > 0;
    var id :| id in Members(q, z);
    MemberIs(q, z, id);
    assert InReach(Score(q, z, id), None);
  }

  ghost predicate TrimRun(qs: seq<Queue>, z: ZSet, cutoff: int, maxSize: int, batch: nat) {
    forall k :: 0 <= k < |qs| - 1 ==> TrimmedTo(qs[k], z, cutoff, maxSize, batch, qs[k + 1])
  }

  ghost predicate TrimmedTo(q: Queue, z: ZSet, cutoff: int, maxSize: int, batch: nat, r: Queue) {
    exists expired, excess :: Trims(q, z, cutoff, maxSize, batch, expired, excess, r)
  }

  lemma {:induction false} ShrinksOrClean(qs: seq<Queue>, z: ZSet, cutoff: int, maxSize: int, batch: nat, k: nat)
    requires TrimRun(qs, z, cutoff, maxSize, batch) && batch >= 1 && k < |qs|
    ensures Clean(qs[k], z, cutoff, maxSize) || |Members(qs[k], z)| + k <= |Members(qs[0], z)|
  {
    if k > 0 {
      ShrinksOrClean(qs, z, cutoff, maxSize, batch, k - 1);
      assert TrimmedTo(qs[k - 1], z, cutoff, maxSize, batch, qs[k]);
      var expired, excess :| Trims(qs[k - 1], z, cutoff, maxSize, batch, expired, excess, qs[k]);
      TrimMakesProgress(qs[k - 1], z, cutoff, maxSize, batch, expired, excess, qs[k]);
      TrimReturnsDrop(qs[k - 1], z, cutoff, maxSize, batch, expired, excess, qs[k]);
    }
  }

  lemma EmptyIsClean(q: Queue, z: ZSet, cutoff: int, maxSize: int)
    requires |Members(q, z)| == 0
    ensures Clean(q, z, cutoff, maxSize)
  {
    forall id ensures (z, id) !in q.zs { MemberIs(q, z, id); }
  }

  /** Convergence: with no arrivals, after as many trims as the ZSET had members none is past
      the cutoff and the ZSET is within its cap. */
  lemma TrimsConverge(qs: seq<Queue>, z: ZSet, cutoff: int, maxSize: int, batch: nat, k: nat)
    requires TrimRun(qs, z, cutoff, maxSize, batch) && batch >= 1 && k < |qs| && |Members(qs[0], z)| <= k
    ensures Clean(qs[k], z, cutoff, maxSize)
  {
    ShrinksOrClean(qs, z, cutoff, maxSize, batch, k);
    if |Members(qs[k], z)| == 0 { EmptyIsClean(qs[k], z, cutoff, maxSize); }
  }
}
