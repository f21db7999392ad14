/** What the builders guarantee holds at run time, in every run: no succeeded task is ever
    stuck on a message it can neither hand on, report nor finish, and a member chain is
    reported by its last link, unless a mid-link was retained. */
module WellFormed {
  import opened Ids
  import opened Base
  import opened Flow
  import opened World
  import opened Shape

  lemma SucceededGoesOn(p: Plan, w: World, x: Worker)
    requires ValidPlan(p) && WorkerShaped(p, x) && x.phase.Succeeded?
    ensures CanAdvance(w, x) || CanFinish(x)
  {
    if x.msg.chain != [] {
      NextNewborn(p, x.msg);
    } else if x.msg.groupId.Some? {
      GroupedKnows(p, x.msg, []);
    }
  }

  /** In every run a task whose handler succeeded always has a next call: to its successor,
      to its stage, to its group, or the acknowledgement. The error returns for a missing
      callback snapshot or a foreign callback queue are never taken. */
  lemma NeverStuck(p: Plan, ws: seq<World>, es: seq<Event>, k: nat, wid: nat)
    requires ValidPlan(p) && IsRun(p, ws, es) && k < |ws| && wid in ws[k].workers
    requires var ph := ws[k].workers[wid].phase; !ph.Running? && !ph.Failed?
    ensures CanAdvance(ws[k], ws[k].workers[wid]) || CanFinish(ws[k].workers[wid])
  {
    AlwaysShaped(p, ws, es, k);
    var x := ws[k].workers[wid];
    assert WorkerShaped(p, x);
    if x.phase.Succeeded? {
      SucceededGoesOn(p, ws[k], x);
    } else if HandingOff(x.phase) {
      NextNewborn(p, x.msg);
      if x.phase.DrainReporting? {
        var j := x.phase.j;
        assert Newborn(p, MemberMessage(x.msg, j));
        GroupedKnows(p, x.phase.stored, []);
      }
    }
  }

  /** In every run the slot of a member chain is reported by its last link, or by a mid-link
      that was kept after success and is run again. */
  lemma LastLinkReports(p: Plan, ws: seq<World>, es: seq<Event>, k: nat, wid: nat, u: string, j: nat)
    requires ValidPlan(p) && IsRun(p, ws, es) && k < |ws| && wid in ws[k].workers
    requires u in p.flows && p.flows[u].GroupFlow? && j < |p.flows[u].members| && p.flows[u].members[j].Seq?
    requires var x := ws[k].workers[wid]; x.phase.Succeeded? && x.msg.chain == [] && CanReport(x.msg) && SlotOf(x.msg) == Member(Root(u), j)
    ensures var links := p.flows[u].members[j].links;
            exists i :: 0 <= i < |links| && ws[k].workers[wid].msg.id == Indexed(Member(Root(u), j), i) &&
                        (i == |links| - 1 || links[i].retention > 0)
  {
    AlwaysShaped(p, ws, es, k);
    var m := ws[k].workers[wid].msg;
    assert WorkerShaped(p, ws[k].workers[wid]);
    ReporterIs(p, m, u, j);
  }

  lemma ReporterIs(p: Plan, m: TaskMessage, u: string, j: nat)
    requires ValidPlan(p) && Shaped(p, m) && CutShort(p, m) && m.chain == [] && m.groupId.Some? && SlotOf(m) == Member(Root(u), j)
    requires u in p.flows && p.flows[u].GroupFlow? && j < |p.flows[u].members| && p.flows[u].members[j].Seq?
    ensures var links := p.flows[u].members[j].links;
            exists i :: 0 <= i < |links| && m.id == Indexed(Member(Root(u), j), i) && (i == |links| - 1 || links[i].retention > 0)
  {
    var b := Birth(p, m.id).value;
    assert m.groupMemberId == b.groupMemberId;
    RootOfDerived(u, 0, j);
    match m.id {
      case Indexed(Member(Root(v), i), n) =>
        RootOfDerived(v, n, i);
        assert ValidMember(p.flows[v].members[i]);
        assert 0 <= n < |p.flows[u].members[j].links| && m.id == Indexed(Member(Root(u), j), n);
      case Member(Indexed(Root(v), n), i) => RootOfDerived(v, n, i);
      case Member(Root(v), i) => RootOfDerived(v, i, i);
      case Callback(Indexed(Root(v), n)) => RootOfDerived(v, n, n);
      case Callback(Root(v)) => RootOfDerived(v, j, j);
      case Indexed(Root(v), n) => RootOfDerived(v, n, n);
      case _ =>
    }
  }
}
