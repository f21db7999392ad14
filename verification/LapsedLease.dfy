/** Why a task is in one place only while leases hold: a run in which a lease lapses leaves a
    task waiting for its retry without a body. */
module LapsedLease {
  import opened Ids
  import opened Base
  import opened Store
  import opened StoreRuns

  const TASK: Id := Root("task")

  /** A task with one retry. */
  function Message(retried: int): TaskMessage {
    Plain(TASK, "kind", [], "queue", 1, false, 0).(retried := retried)
  }

  ghost predicate RunTo(ss: seq<Sys>, es: seq<Event>, s: Sys) {
    Run(ss, es) && ss[|es|] == s
  }

  lemma Extend(ss: seq<Sys>, es: seq<Event>, s: Sys, e: Event) returns (ss': seq<Sys>, es': seq<Event>)
    requires RunTo(ss, es, s) && Enabled(s, e)
    ensures RunTo(ss', es', Step(s, e)) && es' == es + [e] && ss' == ss + [Step(s, e)]
  {
    ss', es' := ss + [Step(s, e)], es + [e];
    forall k | 0 <= k < |es'| ensures Enabled(ss'[k], es'[k]) && ss'[k + 1] == Step(ss'[k], es'[k]) {
      if k < |es| { assert ss'[k] == ss[k] && ss'[k + 1] == ss[k + 1] && es'[k] == es[k]; }
    }
  }

  /** The task was delivered as entry 0 and read by one actor. */
  function Held(): Sys {
    Sys(EMPTY.(hash := map[TASK := Body(Some(Message(0)), Pending)], stream := map[0 := TASK], nextEntry := 1, cursor := 1, pel := {0}),
        {}, {Hold(0, Message(0), READER)}, {}, map[TASK := 0])
  }

  lemma Deliver() returns (ss: seq<Sys>, es: seq<Event>)
    ensures RunTo(ss, es, Held()) && |es| == 3
  {
    var op := Enqueue(Message(0));
    ss, es := [INIT], [];
    ss, es := Extend(ss, es, INIT, Client(op));
    var s1 := Step(INIT, Client(op));
    assert s1.q == EMPTY.(hash := map[TASK := Body(Some(Message(0)), Pending)], stream := map[0 := TASK], nextEntry := 1);
    ss, es := Extend(ss, es, s1, Background(ReadGroup(1)));
    var s2 := Step(s1, Background(ReadGroup(1)));
    assert 0 in s1.q.stream && (0, s1.q.stream[0], READER) in Delivered(s1.q, 1);
    assert Delivered(s1.q, 1) == {(0, TASK, READER)};
    assert s2.claims == {(0, TASK, READER)};
    assert s2.q.pel == {0};
    ss, es := Extend(ss, es, s2, Load(0, TASK, READER));
    var s3 := Step(s2, Load(0, TASK, READER));
    assert s3 == Held();
  }

  /** The recoverer reclaims the entry while its worker still runs; the worker's failure then
      schedules a retry, and the recoverer, reading after that, archives the task. */
  function Twice(): Sys {
    Sys(EMPTY.(hash := map[TASK := Body(Some(Message(1)), Archived)], nextEntry := 1, cursor := 1,
               zs := map[(ZRetry, TASK) := 10, (ZArchived, TASK) := 5]),
        {}, {}, {}, map[TASK := 2])
  }

  lemma FailAndBury(ss: seq<Sys>, es: seq<Event>) returns (ss': seq<Sys>, es': seq<Event>)
    requires RunTo(ss, es, Held()) && |es| == 3
    ensures RunTo(ss', es', Twice()) && |es'| == 7 && ss'[3] == Held() && es'[3] == Claim(0, 1)
  {
    var h0, h1 := Hold(0, Message(0), READER), Hold(0, Message(1), 1);
    var s := Held();
    ss', es' := Extend(ss, es, s, Claim(0, 1));
    var s1 := Step(s, Claim(0, 1));
    assert s1 == s.(claims := {(0, TASK, 1)});
    ss', es' := Extend(ss', es', s1, Fail(h0, 10));
    var s2 := Step(s1, Fail(h0, 10));
    assert Message(0).(retried := 1) == Message(1);
    var q2 := EMPTY.(hash := map[TASK := Body(Some(Message(1)), Retry)], nextEntry := 1, cursor := 1, zs := map[(ZRetry, TASK) := 10]);
    assert s2 == Sys(q2, {(0, TASK, 1)}, {}, {}, map[TASK := 1]);
    ss', es' := Extend(ss', es', s2, Load(0, TASK, 1));
    var s3 := Step(s2, Load(0, TASK, 1));
    assert s3 == Sys(q2, {}, {h1}, {}, map[TASK := 1]);
    ss', es' := Extend(ss', es', s3, Bury(h1, 5));
    var s4 := Step(s3, Bury(h1, 5));
    assert s4.q.zs == map[(ZRetry, TASK) := 10, (ZArchived, TASK) := 5];
    assert s4 == Twice();
  }

  /** After a lapsed lease a task can be in two places, and the janitor, trimming the
      archived one, deletes the body of the retry that is still to come. */
  lemma LapseLosesBody() returns (ss: seq<Sys>, es: seq<Event>)
    ensures Run(ss, es) && |es| == 8
    ensures var q := ss[7].q; (ZRetry, TASK) in q.zs && (ZArchived, TASK) in q.zs && TASK in q.hash
    ensures es[7] == Background(Trim(ZArchived, [TASK]))
    ensures var q := ss[8].q; (ZRetry, TASK) in q.zs && TASK !in q.hash
    ensures es[3] == Claim(0, 1) && !Unattended(ss[3], 0)
  {
    ss, es := Deliver();
    ss, es := FailAndBury(ss, es);
    assert Hold(0, Message(0), READER) in ss[3].holds;
    ss, es := Extend(ss, es, Twice(), Background(Trim(ZArchived, [TASK])));
  }
}
