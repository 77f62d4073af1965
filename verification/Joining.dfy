/**
  How a group forms round a master: everybody it calls becomes its client, whoever loses a probe
  becomes one too, and a device whose role has ended may take part again.
 */
module Joining {
  import opened Runs
  import opened Election
  import opened ElectionRounds

  predicate IsClient(d: Device) { d.conected && d.client && !d.master }

  /** Not connected, and not in the middle of a probe. */
  predicate Unconnected(d: Device) { !d.conected && !d.phase.Probing? }

  /** The call of p to q is on its way unless q is p itself. */
  predicate Called(s: State, p: nat, q: nat) { q != p ==> Start(p, q) in s.net }

  /** One device that was not connected hears the call and starts its client. */
  lemma OneJoins(s: State, p: nat, q: nat) returns (steps: seq<Step>, t: State)
    requires s.WellFormed() && p < |s.devices| && q < |s.devices| && q != p && Start(p, q) in s.net
    ensures Exec(Plain, s, steps) == Some(t) && t.WellFormed() && |t.devices| == |s.devices|
    ensures !s.devices[q].conected ==> IsClient(t.devices[q])
    ensures forall r :: 0 <= r < |s.devices| && r != q ==> t.devices[r] == s.devices[r]
    ensures forall m :: m in s.net && m != Start(p, q) ==> m in t.net
  {
    var m := Start(p, q);
    t := Next(s, Deliver(m));
    ExecOne(Plain, s, Deliver(m), []);
    steps := [Deliver(m)] + [];
    if !s.devices[q].conected {
      ExecSnoc(Plain, s, steps, t, StartClientTask(q));
      steps, t := steps + [StartClientTask(q)], Next(t, StartClientTask(q));
    }
  }

  /** All that are called and were not connected become clients; the caller stays as it is. */
  lemma {:induction false} AllJoin(s: State, p: nat, n: nat) returns (steps: seq<Step>, t: State)
    requires s.WellFormed() && p < |s.devices| && n <= |s.devices|
    requires forall q :: 0 <= q < n ==> Called(s, p, q)
    ensures Exec(Plain, s, steps) == Some(t) && t.WellFormed() && |t.devices| == |s.devices|
    ensures forall q :: 0 <= q < n && q != p && !s.devices[q].conected ==> IsClient(t.devices[q])
    ensures forall q :: 0 <= q < |s.devices| && (q == p || q >= n) ==> t.devices[q] == s.devices[q]
    ensures forall m :: m in s.net && !(m.Start? && m.src == p && m.dst < n) ==> m in t.net
  {
    if n == 0 {
      steps, t := [], s;
    } else {
      var u;
      steps, u := AllJoin(s, p, n - 1);
      if n - 1 == p {
        t := u;
      } else {
        assert Called(s, p, n - 1);
        var more;
        more, t := OneJoins(u, p, n - 1);
        ExecConcat(Plain, s, steps, more);
        steps := steps + more;
      }
    }
  }

  /** What a device that wins its probe does: it calls everybody, and serves. */
  lemma WinnerCalls(s: State, p: nat) returns (t: State)
    requires s.WellFormed() && p < |s.devices| && s.devices[p].phase == Probing(ROUNDS, false) && s.devices[p].master
    ensures Enabled(s, Leave(p, true)) && t == Next(s, Leave(p, true))
    ensures t.devices[p].ServingAsMaster() && forall q :: 0 <= q < |s.devices| ==> Called(t, p, q)
    ensures forall q :: 0 <= q < |s.devices| && q != p ==> t.devices[q] == s.devices[q]
  {
    t := Next(s, Leave(p, true));
    forall q: nat | q < |s.devices| ensures Called(t, p, q) { }
  }

  /**
    The winner of a probe gathers the group: once its calls have arrived, every device that was not
    connected is a client, and the winner serves as master.
   */
  lemma GroupForms(s: State, p: nat) returns (steps: seq<Step>, t: State)
    requires s.WellFormed() && p < |s.devices| && s.devices[p].phase == Probing(ROUNDS, false) && s.devices[p].master
    ensures Enabled(s, Leave(p, true)) && Exec(Plain, Next(s, Leave(p, true)), steps) == Some(t)
    ensures |t.devices| == |s.devices| && t.devices[p].ServingAsMaster()
    ensures forall q :: 0 <= q < |s.devices| && q != p && !s.devices[q].conected ==> IsClient(t.devices[q])
  {
    var u := WinnerCalls(s, p);
    steps, t := AllJoin(u, p, |s.devices|);
  }

  /** A prober that is told of a master stops at its next check and becomes a client. */
  lemma LoserJoins(s: State, p: nat, q: nat) returns (steps: seq<Step>, t: State)
    requires s.WellFormed() && p < |s.devices| && q < |s.devices| && Reply(q, p) in s.net
    requires s.devices[p].Up() && s.devices[p].phase.Probing? && s.devices[p].phase.waiting
    ensures Exec(Plain, s, steps) == Some(t) && |t.devices| == |s.devices|
    ensures IsClient(t.devices[p]) && t.devices[p].phase.Idle?
    ensures forall r :: 0 <= r < |s.devices| && r != p ==> t.devices[r] == s.devices[r]
  {
    var m := Reply(q, p);
    var told := Next(s, Deliver(m));
    var stopped := Next(told, Check(p));
    t := Next(stopped, StartClientTask(p));
    steps := [Deliver(m), Check(p), StartClientTask(p)];
    ExecThree(Plain, s, Deliver(m), told, Check(p), stopped, StartClientTask(p), t);
  }

  /** A master that is asked answers, and the question changes nothing else. */
  lemma MasterAnswers(s: State, p: nat, q: nat)
    requires s.WellFormed() && p < |s.devices| && q < |s.devices| && Query(p, q) in s.net
    ensures var t := Next(s, Deliver(Query(p, q)));
      && t.devices == s.devices && t.lost == s.lost
      && (s.devices[q].conected && s.devices[q].master ==> Reply(q, p) in t.net)
      && (!(s.devices[q].conected && s.devices[q].master) ==> t.net <= s.net)
  {
  }

  // ----- when a role ends

  /** A client whose task has ended can be flagged as master and probe. */
  lemma ClientMayProbeAgain(s: State, p: nat) returns (steps: seq<Step>, t: State)
    requires s.WellFormed() && p < |s.devices| && s.devices[p].client && s.devices[p].phase.Idle?
    ensures Exec(Plain, s, steps) == Some(t) && |t.devices| == |s.devices|
    ensures t.devices[p].Up() && t.devices[p].phase == Probing(0, false) && !t.devices[p].client
  {
    var ended := Next(s, EndClient(p));
    var raised := Next(ended, RaiseMaster(p));
    t := Next(raised, StartProbe(p));
    steps := [EndClient(p), RaiseMaster(p), StartProbe(p)];
    ExecThree(Plain, s, EndClient(p), ended, RaiseMaster(p), raised, StartProbe(p), t);
  }

  /** A master whose server has stopped probes again, unless its group was deleted: then it is no master. */
  lemma MasterMayProbeAgain(s: State, p: nat, deleted: bool) returns (t: State)
    requires s.WellFormed() && p < |s.devices| && s.devices[p].ServingAsMaster()
    ensures Enabled(s, StopServing(p, deleted)) && t == Next(s, StopServing(p, deleted))
    ensures !t.devices[p].conected && t.devices[p].phase.Idle?
    ensures if deleted then !t.devices[p].master && !Enabled(t, StartProbe(p)) else Enabled(t, StartProbe(p))
  {
    t := Next(s, StopServing(p, deleted));
  }

  /** A winner that is not in its own group gives up, and calls nobody. */
  lemma OutsiderGivesUp(s: State, p: nat)
    requires s.WellFormed() && p < |s.devices| && s.devices[p].phase == Probing(ROUNDS, false) && s.devices[p].master
    ensures var t := Next(s, Leave(p, false));
      && Unconnected(t.devices[p]) && !t.devices[p].master && t.net == s.net
      && forall q :: 0 <= q < |s.devices| && q != p ==> t.devices[q] == s.devices[q]
  {
  }
}
