/**
  Why a prober must still be flagged as connected when it leaves its probe: a run of two devices in
  which each meets only silence, and both end up serving.
 */
module FlagNeeded {
  import opened Runs
  import opened Election
  import opened ElectionRounds

  /** A step, refused only if a prober leaves without having met silence. */
  function Unflagged(s: State, e: Step): Option<State> {
    if s.WellFormed() && Enabled(s, e) && (e.Leave? ==> Unanswered(s, e.p)) then Some(Next(s, e)) else None
  }

  const Client := Device(true, false, false, false, true, Probing(1, true))
  const Leftover := Device(false, false, false, false, true, Idle)
  const Unseen := Device(false, true, false, false, false, Probing(0, false))

  /** Told twice to start a client while it probes, a device still asks once more. */
  lemma BecomesClient(step: (State, Step) -> Option<State>, s: State) returns (steps: seq<Step>, t: State)
    requires AllowsPlain(step) && Pair(s, Resting, Resting, multiset{})
    ensures Exec(step, s, steps) == Some(t) && Pair(t, Client, Resting, multiset{Query(0, 1)})
  {
    var u := Starts(step, s, 0, Resting, Resting);
    var a, v := TellTwice(step, u, 0, Prober(false), Resting);
    t := Asks(step, v, 0, Told(Told(Prober(false))), Resting, 0);
    ExecOne(step, s, StartProbe(0), []);
    ExecConcat(step, s, [StartProbe(0)] + [], a);
    ExecSnoc(step, s, [StartProbe(0)] + [] + a, v, Ask(0));
    steps := [StartProbe(0)] + [] + a + [Ask(0)];
  }

  /** It stops probing, with the client task still there. */
  lemma StopsProbing(step: (State, Step) -> Option<State>, s: State) returns (steps: seq<Step>, t: State)
    requires AllowsPlain(step) && Pair(s, Client, Resting, multiset{Query(0, 1)})
    ensures Exec(step, s, steps) == Some(t) && Pair(t, Leftover, Resting, multiset{})
  {
    var u := Next(s, Check(0));
    assert AgreesAt(Plain, step, s, Check(0));
    assert multiset{} + multiset{Query(0, 1)} == multiset{Query(0, 1)};
    t := HearsNothing(step, u, 0, Leftover, Resting, multiset{});
    ExecOne(step, s, Check(0), []);
    ExecSnoc(step, s, [Check(0)] + [], u, Deliver(Query(0, 1)));
    steps := [Check(0)] + [] + [Deliver(Query(0, 1))];
  }

  /** Its client task ends in the middle of its next probe and takes the flag down. */
  lemma LosesFlag(step: (State, Step) -> Option<State>, s: State) returns (steps: seq<Step>, t: State)
    requires AllowsPlain(step) && Pair(s, Leftover, Resting, multiset{})
    ensures Exec(step, s, steps) == Some(t) && Pair(t, Unseen, Resting, multiset{})
  {
    var raised := Next(s, RaiseMaster(0));
    var u := Starts(step, raised, 0, Leftover.(master := true), Resting);
    t := Next(u, EndClient(0));
    assert AgreesAt(Plain, step, s, RaiseMaster(0)) && AgreesAt(Plain, step, u, EndClient(0));
    steps := [RaiseMaster(0), StartProbe(0), EndClient(0)];
    ExecThree(step, s, RaiseMaster(0), raised, StartProbe(0), u, EndClient(0), t);
  }

  /** Without its flag it does not answer the other, and both meet only silence. */
  lemma BothMeetSilence(step: (State, Step) -> Option<State>, s: State) returns (steps: seq<Step>, t: State)
    requires AllowsPlain(step) && Pair(s, Unseen, Resting, multiset{})
    ensures Exec(step, s, steps) == Some(t)
    ensures Pair(t, InRound(Unseen, ROUNDS, false), InRound(Prober(false), ROUNDS, false), multiset{})
    ensures 1 in t.processed[0] && 0 in t.processed[1]
  {
    var a, u := SilentRounds(step, s, 0, Unseen, Resting, 0);
    var v := Starts(step, u, 1, Resting, InRound(Unseen, ROUNDS, false));
    ExecSnoc(step, s, a, u, StartProbe(1));
    var b;
    b, t := SilentRounds(step, v, 1, Prober(false), InRound(Unseen, ROUNDS, false), 0);
    ExecConcat(step, s, a + [StartProbe(1)], b);
    steps := a + [StartProbe(1)] + b;
  }

  lemma BothLeave(s: State) returns (steps: seq<Step>, t: State)
    requires Pair(s, InRound(Unseen, ROUNDS, false), InRound(Prober(false), ROUNDS, false), multiset{})
    requires 1 in s.processed[0] && 0 in s.processed[1]
    ensures Exec(Unflagged, s, steps) == Some(t) && !AtMostOneMaster(t)
  {
    assert Unanswered(s, 0) && Unanswered(s, 1);
    var u := Next(s, Leave(1, true));
    assert Unanswered(u, 0);
    t := Next(u, Leave(0, true));
    ExecOne(Unflagged, s, Leave(1, true), []);
    ExecSnoc(Unflagged, s, [Leave(1, true)] + [], u, Leave(0, true));
    steps := [Leave(1, true)] + [] + [Leave(0, true)];
    BothServe(t);
  }

  /** Everything up to the moment before both leave. */
  lemma AllButLeaving(step: (State, Step) -> Option<State>, s: State) returns (steps: seq<Step>, t: State)
    requires AllowsPlain(step) && Pair(s, Resting, Resting, multiset{})
    ensures Exec(step, s, steps) == Some(t)
    ensures Pair(t, InRound(Unseen, ROUNDS, false), InRound(Prober(false), ROUNDS, false), multiset{})
    ensures 1 in t.processed[0] && 0 in t.processed[1]
  {
    var a, s1 := BecomesClient(step, s);
    var b, s2 := StopsProbing(step, s1);
    ExecConcat(step, s, a, b);
    var c, s3 := LosesFlag(step, s2);
    ExecConcat(step, s, a + b, c);
    var d;
    d, t := BothMeetSilence(step, s3);
    ExecConcat(step, s, a + b + c, d);
    steps := a + b + c + d;
  }

  /** Silence from everybody does not suffice: two devices that both met only silence both serve. */
  lemma TwoMastersWithoutTheFlag(s: State) returns (steps: seq<Step>, t: State)
    requires Pair(s, Resting, Resting, multiset{})
    ensures Exec(Unflagged, s, steps) == Some(t) && !AtMostOneMaster(t)
  {
    forall x, e ensures AgreesAt(Plain, Unflagged, x, e) { }
    var a, u := AllButLeaving(Unflagged, s);
    var b;
    b, t := BothLeave(u);
    ExecConcat(Unflagged, s, a, b);
    steps := a + b;
  }
}
