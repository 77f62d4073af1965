/**
  Why no answer to a prober may be in flight or lost when it leaves: it asks a running master in
  every round, hears nothing back, and serves beside it.
 */
module AnswersNeeded {
  import opened Runs
  import opened Election
  import opened ElectionRounds
  import opened TwoServers

  /** Everybody has handled a question of p. */
  predicate AllHandled(s: State, p: nat)
    requires s.WellFormed() && p < |s.devices|
  {
    s.devices[p].conected && forall q: nat :: q < |s.devices| && q != p ==> q in s.processed[p]
  }

  /** The delivery window without its part about answers in flight. */
  function FlightIgnored(s: State, e: Step): Option<State> {
    if && s.WellFormed() && Enabled(s, e)
       && (e.Leave? ==>
             AllHandled(s, e.p) && forall q: nat :: q < |s.devices| && q != e.p ==> Reply(q, e.p) !in s.lost)
    then Some(Next(s, e)) else None
  }

  /** The delivery window without its part about lost answers. */
  function LossIgnored(s: State, e: Step): Option<State> {
    if && s.WellFormed() && Enabled(s, e)
       && (e.Leave? ==>
             AllHandled(s, e.p) && forall q: nat :: q < |s.devices| && q != e.p ==> Reply(q, e.p) !in s.net)
    then Some(Next(s, e)) else None
  }

  /** Any step but leaving a probe. */
  function Stays(s: State, e: Step): Option<State> {
    if s.WellFormed() && Enabled(s, e) && !e.Leave? then Some(Next(s, e)) else None
  }

  ghost predicate AllowsStays(step: (State, Step) -> Option<State>) { forall x, e :: AgreesAt(Stays, step, x, e) }

  lemma StaysAllowsPlain(step: (State, Step) -> Option<State>)
    requires AllowsStays(step)
    ensures AllowsPlain(step)
  {
    forall x, e ensures AgreesAt(Plain, step, x, e) { assert AgreesAt(Stays, step, x, e); }
  }

  // ----- rounds of questions to a device that answers

  lemma IsAnswered(step: (State, Step) -> Option<State>, s: State, p: nat, d: Device, o: Device,
                   rest: multiset<Message>)
    returns (t: State)
    requires AllowsStays(step)
    requires Two(s, p, d, o) && o.Up() && s.net == rest + multiset{Query(p, 1 - p)}
    ensures step(s, Deliver(Query(p, 1 - p))) == Some(t) && Two(t, p, d, o) && t.lost == s.lost
    ensures t.net == rest + multiset{Reply(1 - p, p)} && 1 - p in t.processed[p]
  {
    t := Next(s, Deliver(Query(p, 1 - p)));
    assert AgreesAt(Stays, step, s, Deliver(Query(p, 1 - p)));
    assert s.net - multiset{Query(p, 1 - p)} == rest;
  }

  lemma AnswerLost(step: (State, Step) -> Option<State>, s: State, p: nat, d: Device, o: Device,
                   rest: multiset<Message>)
    returns (t: State)
    requires AllowsStays(step)
    requires Two(s, p, d, o) && s.net == rest + multiset{Reply(1 - p, p)} && 1 - p in s.processed[p]
    ensures step(s, Lose(Reply(1 - p, p))) == Some(t) && Two(t, p, d, o)
    ensures t.net == rest && 1 - p in t.processed[p]
  {
    t := Next(s, Lose(Reply(1 - p, p)));
    assert AgreesAt(Stays, step, s, Lose(Reply(1 - p, p)));
    assert s.net - multiset{Reply(1 - p, p)} == rest;
  }

  /** A question and its answer, which stays in flight or is lost. */
  lemma AsksInVain(step: (State, Step) -> Option<State>, s: State, p: nat, d: Device, o: Device, k: nat, lossy: bool)
    returns (steps: seq<Step>, t: State)
    requires AllowsStays(step)
    requires Two(s, p, InRound(d, k, false), o) && k < ROUNDS && o.Up()
    ensures Exec(step, s, steps) == Some(t) && Two(t, p, InRound(d, k + 1, true), o)
    ensures (if lossy then t.net == s.net else t.lost == s.lost) && 1 - p in t.processed[p]
  {
    StaysAllowsPlain(step);
    var asked := Asks(step, s, p, d, o, k);
    ExecOne(step, s, Ask(p), []);
    steps := [Ask(p)] + [];
    t := IsAnswered(step, asked, p, InRound(d, k + 1, true), o, s.net);
    ExecSnoc(step, s, steps, asked, Deliver(Query(p, 1 - p)));
    steps := steps + [Deliver(Query(p, 1 - p))];
    if lossy {
      var u := AnswerLost(step, t, p, InRound(d, k + 1, true), o, s.net);
      ExecSnoc(step, s, steps, t, Lose(Reply(1 - p, p)));
      steps, t := steps + [Lose(Reply(1 - p, p))], u;
    }
  }

  lemma AnsweredRound(step: (State, Step) -> Option<State>, s: State, p: nat, d: Device, o: Device, k: nat, lossy: bool)
    returns (steps: seq<Step>, t: State)
    requires AllowsStays(step)
    requires Two(s, p, InRound(d, k, false), o) && k < ROUNDS && d.master && o.Up()
    ensures Exec(step, s, steps) == Some(t) && Two(t, p, InRound(d, k + 1, false), o)
    ensures (if lossy then t.net == s.net else t.lost == s.lost) && 1 - p in t.processed[p]
  {
    var u;
    steps, u := AsksInVain(step, s, p, d, o, k, lossy);
    StaysAllowsPlain(step);
    t := Checks(step, u, p, d, o, k + 1);
    ExecSnoc(step, s, steps, u, Check(p));
    steps := steps + [Check(p)];
  }

  lemma {:induction false} AnsweredRounds(step: (State, Step) -> Option<State>, s: State, p: nat, d: Device, o: Device,
                                          k: nat, lossy: bool)
    returns (steps: seq<Step>, t: State)
    requires AllowsStays(step)
    requires Two(s, p, InRound(d, k, false), o) && k < ROUNDS && d.master && o.Up()
    ensures Exec(step, s, steps) == Some(t) && Two(t, p, InRound(d, ROUNDS, false), o)
    ensures (if lossy then t.net == s.net else t.lost == s.lost) && 1 - p in t.processed[p]
    decreases ROUNDS - k
  {
    steps, t := AnsweredRound(step, s, p, d, o, k, lossy);
    if k + 1 < ROUNDS {
      var more, u := AnsweredRounds(step, t, p, d, o, k + 1, lossy);
      ExecConcat(step, s, steps, more);
      steps, t := steps + more, u;
    }
  }

  // ----- the runs

  /** Beside a serving master another device goes through all its rounds. */
  lemma ProbesBeside(step: (State, Step) -> Option<State>, s: State, net: multiset<Message>, lossy: bool)
    returns (steps: seq<Step>, t: State)
    requires AllowsStays(step)
    requires Pair(s, Resting, Serves, net)
    ensures Exec(step, s, steps) == Some(t) && t.WellFormed()
    ensures Two(t, 0, Asked, Serves) && 1 in t.processed[0]
    ensures if lossy then t.net == net else t.lost == {}
  {
    StaysAllowsPlain(step);
    var u := Starts(step, s, 0, Resting, Serves);
    ExecOne(step, s, StartProbe(0), []);
    var rounds, v := AnsweredRounds(step, u, 0, Prober(false), Serves, 0, lossy);
    ExecConcat(step, s, [StartProbe(0)] + [], rounds);
    steps, t := [StartProbe(0)] + [] + rounds, v;
  }

  lemma LeavesBeside(s: State, lossy: bool) returns (t: State)
    requires s.WellFormed() && Two(s, 0, Asked, Serves) && 1 in s.processed[0]
    requires if lossy then s.net == multiset{Start(1, 0)} else s.lost == {}
    ensures if lossy then LossIgnored(s, Leave(0, true)) == Some(t) else FlightIgnored(s, Leave(0, true)) == Some(t)
    ensures !AtMostOneMaster(t)
  {
    t := Next(s, Leave(0, true));
    assert AllHandled(s, 0);
    BothServe(t);
  }

  /** The first becomes master inside the window, and the second asks it ten times in vain. */
  lemma AllButLeaving(step: (State, Step) -> Option<State>, s: State, lossy: bool) returns (steps: seq<Step>, t: State)
    requires AllowsStrict(step) && AllowsStays(step) && Pair(s, Resting, Resting, multiset{})
    ensures Exec(step, s, steps) == Some(t)
    ensures t.WellFormed() && Two(t, 0, Asked, Serves) && 1 in t.processed[0]
    ensures if lossy then t.net == multiset{Start(1, 0)} else t.lost == {}
  {
    var a, u := BecomesServer(step, s, 1, Resting);
    var b;
    b, t := ProbesBeside(step, u, multiset{Start(1, 0)}, lossy);
    ExecConcat(step, s, a, b);
    steps := a + b;
  }

  /** Answers still in flight when a prober leaves: two masters. */
  lemma TwoMastersWithAnswersInFlight(s: State) returns (steps: seq<Step>, t: State)
    requires Pair(s, Resting, Resting, multiset{})
    ensures Exec(FlightIgnored, s, steps) == Some(t) && !AtMostOneMaster(t)
  {
    forall x, e ensures AgreesAt(Strict, FlightIgnored, x, e) && AgreesAt(Stays, FlightIgnored, x, e) { }
    var u;
    steps, u := AllButLeaving(FlightIgnored, s, false);
    t := LeavesBeside(u, false);
    ExecSnoc(FlightIgnored, s, steps, u, Leave(0, true));
    steps := steps + [Leave(0, true)];
  }

  /** Answers lost before a prober leaves: two masters. */
  lemma TwoMastersWithAnswersLost(s: State) returns (steps: seq<Step>, t: State)
    requires Pair(s, Resting, Resting, multiset{})
    ensures Exec(LossIgnored, s, steps) == Some(t) && !AtMostOneMaster(t)
  {
    forall x, e ensures AgreesAt(Strict, LossIgnored, x, e) && AgreesAt(Stays, LossIgnored, x, e) { }
    var u;
    steps, u := AllButLeaving(LossIgnored, s, true);
    t := LeavesBeside(u, true);
    ExecSnoc(LossIgnored, s, steps, u, Leave(0, true));
    steps := steps + [Leave(0, true)];
  }
}
