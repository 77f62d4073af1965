/**
  How many devices run the server.  A server task does not look at the flags of its device, so one
  whose flags were cleared goes on serving beside a new master.
 */
module TwoServers {
  import opened Runs
  import opened Election
  import opened ElectionRounds

  predicate AtMostOneServer(s: State) {
    forall p: nat, q: nat ::
      p < |s.devices| && q < |s.devices| && s.devices[p].phase.Serving? && s.devices[q].phase.Serving? ==> p == q
  }

  /** Every device that runs the server still has both its flags. */
  predicate ServersUp(s: State) {
    forall p: nat :: p < |s.devices| && s.devices[p].phase.Serving? ==> s.devices[p].Up()
  }

  /**
    A serving device is told that there is a master, or told for the second time to start a client,
    or has a client task of an earlier role end.
   */
  predicate Disturbs(s: State, e: Step)
    requires s.WellFormed() && Enabled(s, e)
  {
    match e
    case Deliver(m) =>
      s.devices[m.dst].phase.Serving? && (m.Reply? || (m.Start? && s.devices[m.dst].restart))
    case EndClient(p) => s.devices[p].phase.Serving?
    case _ => false
  }

  /** Exactly these steps take a flag of a server down. */
  lemma DisturbedIff(s: State, e: Step)
    requires s.WellFormed() && Enabled(s, e) && ServersUp(s)
    ensures ServersUp(Next(s, e)) <==> !Disturbs(s, e)
  {
    var t := Next(s, e);
    if Disturbs(s, e) {
      var p := if e.EndClient? then e.p else e.m.dst;
      assert t.devices[p].phase.Serving? && !t.devices[p].Up();
    } else {
      forall p: nat | p < |t.devices| && t.devices[p].phase.Serving? ensures t.devices[p].Up() {
        StaysUp(s, e, p);
      }
    }
  }

  lemma StaysUp(s: State, e: Step, p: nat)
    requires s.WellFormed() && Enabled(s, e) && ServersUp(s) && !Disturbs(s, e)
    requires p < |s.devices| && Next(s, e).devices[p].phase.Serving?
    ensures Next(s, e).devices[p].Up()
  {
    if e.Deliver? { DeliveredUp(s, e.m, p); } else { OtherwiseUp(s, e, p); }
  }

  lemma OtherwiseUp(s: State, e: Step, p: nat)
    requires s.WellFormed() && Enabled(s, e) && !Disturbs(s, e) && !e.Deliver?
    requires p < |s.devices| && (s.devices[p].phase.Serving? ==> s.devices[p].Up())
    requires Next(s, e).devices[p].phase.Serving?
    ensures Next(s, e).devices[p].Up()
  {
    if !e.Leave? { assert s.devices[p].phase.Serving?; }
  }

  lemma DeliveredUp(s: State, m: Message, p: nat)
    requires s.WellFormed() && Enabled(s, Deliver(m)) && !Disturbs(s, Deliver(m))
    requires ServersUp(s) && p < |s.devices| && DeliverTo(s, m).devices[p].phase.Serving?
    ensures DeliverTo(s, m).devices[p].Up()
  {
  }

  /** A step inside the delivery window that disturbs no server. */
  function Undisturbed(s: State, e: Step): Option<State> {
    if InWindow(s, e).Some? && !Disturbs(s, e) then InWindow(s, e) else None
  }

  predicate Orderly(s: State) { Invariant(s) && ServersUp(s) }

  /** While no server is disturbed, at most one device runs the server. */
  lemma AtMostOneServes(s: State, steps: seq<Step>)
    requires Initial(s) && Exec(Undisturbed, s, steps).Some?
    ensures AtMostOneServer(Exec(Undisturbed, s, steps).value)
  {
    forall x, e ensures KeptAt(Undisturbed, Orderly, x, e) {
      if Orderly(x) && Undisturbed(x, e).Some? {
        StepKeeps(x, e);
        DisturbedIff(x, e);
      }
    }
    ExecKeeps(Undisturbed, Orderly, s, steps);
    var t := Exec(Undisturbed, s, steps).value;
    InvariantIsSafe(t);
  }

  /** The same for networks that only delay. */
  function Calm(s: State, e: Step): Option<State> {
    if Settling(s, e).Some? && !Disturbs(s, e) then Settling(s, e) else None
  }

  lemma {:induction false} CalmIsUndisturbed(s: State, steps: seq<Step>)
    requires s.WellFormed() && QueriesAccounted(s) && Exec(Calm, s, steps).Some?
    ensures Exec(Undisturbed, s, steps) == Exec(Calm, s, steps)
    decreases |steps|
  {
    if steps != [] {
      SettledStepKeeps(s, steps[0]);
      CalmIsUndisturbed(Next(s, steps[0]), steps[1..]);
    }
  }

  lemma AtMostOneServesWhenSettled(s: State, steps: seq<Step>)
    requires Initial(s) && Exec(Calm, s, steps).Some?
    ensures AtMostOneServer(Exec(Calm, s, steps).value)
  {
    CalmIsUndisturbed(s, steps);
    AtMostOneServes(s, steps);
  }

  // ----- a disturbed server

  /** A step that meets both forms of the delivery window and loses nothing. */
  function Strict(s: State, e: Step): Option<State> {
    if && s.WellFormed() && Enabled(s, e) && !e.Lose?
       && (e.Leave? ==> Window(s, e.p) && Quiet(s, e.p))
    then Some(Next(s, e)) else None
  }

  ghost predicate AllowsStrict(step: (State, Step) -> Option<State>) { forall x, e :: AgreesAt(Strict, step, x, e) }

  lemma StrictAllowsPlain(step: (State, Step) -> Option<State>)
    requires AllowsStrict(step)
    ensures AllowsPlain(step)
  {
    forall x, e ensures AgreesAt(Plain, step, x, e) { assert AgreesAt(Strict, step, x, e); }
  }

  const Serves := Device(true, true, false, false, false, Serving)
  const Asked := Device(true, true, false, false, false, Probing(ROUNDS, false))

  /** A device that is alone up probes, meets silence, and has not left yet. */
  lemma Probes(step: (State, Step) -> Option<State>, s: State, p: nat, o: Device) returns (steps: seq<Step>, t: State)
    requires AllowsPlain(step) && Two(s, p, Resting, o) && !o.Up() && s.lost == {}
    ensures Exec(step, s, steps) == Some(t) && Two(t, p, Asked, o)
    ensures t.net == s.net && t.lost == {} && 1 - p in t.processed[p]
  {
    var u := Starts(step, s, p, Resting, o);
    var rounds;
    rounds, t := SilentRounds(step, u, p, Prober(false), o, 0);
    ExecOne(step, s, StartProbe(p), []);
    ExecConcat(step, s, [StartProbe(p)] + [], rounds);
    steps := [StartProbe(p)] + [] + rounds;
  }

  lemma BroadcastStart(p: nat)
    requires p < 2
    ensures Broadcast(p, 2, true) == multiset{Start(p, 1 - p)}
  {
    assert Broadcast(p, 1, true) == if p == 0 then multiset{} else multiset{Start(p, 0)};
  }

  /** It leaves with nothing of its own in flight. */
  lemma Leaves(step: (State, Step) -> Option<State>, s: State, p: nat, o: Device) returns (t: State)
    requires AllowsStrict(step) && Two(s, p, Asked, o) && s.lost == {}
    requires 1 - p in s.processed[p] && forall m :: m in s.net ==> m.Start?
    ensures step(s, Leave(p, true)) == Some(t) && Two(t, p, Serves, o) && t.lost == {}
    ensures t.net == s.net + multiset{Start(p, 1 - p)}
  {
    BroadcastStart(p);
    t := Next(s, Leave(p, true));
    assert AgreesAt(Strict, step, s, Leave(p, true));
  }

  lemma BecomesServer(step: (State, Step) -> Option<State>, s: State, p: nat, o: Device)
    returns (steps: seq<Step>, t: State)
    requires AllowsStrict(step) && Two(s, p, Resting, o) && !o.Up() && s.lost == {}
    requires forall m :: m in s.net ==> m.Start?
    ensures Exec(step, s, steps) == Some(t) && Two(t, p, Serves, o) && t.lost == {}
    ensures t.net == s.net + multiset{Start(p, 1 - p)}
  {
    StrictAllowsPlain(step);
    var u;
    steps, u := Probes(step, s, p, o);
    t := Leaves(step, u, p, o);
    ExecSnoc(step, s, steps, u, Leave(p, true));
    steps := steps + [Leave(p, true)];
  }

  /** A server told twice to start a client gives up its flag, not its server. */
  const Cleared := Device(true, false, false, false, true, Serving)

  /** Two idle devices flagged as master end up both running the server. */
  lemma BothServeInTheEnd(step: (State, Step) -> Option<State>, s: State) returns (steps: seq<Step>, t: State)
    requires AllowsStrict(step) && Pair(s, Resting, Resting, multiset{})
    ensures Exec(step, s, steps) == Some(t) && !AtMostOneServer(t)
  {
    StrictAllowsPlain(step);
    var a, s1 := BecomesServer(step, s, 0, Resting);
    var b, s2 := TellTwice(step, s1, 0, Serves, Resting);
    assert Told(Told(Serves)) == Cleared;
    ExecConcat(step, s, a, b);
    var c, s3 := BecomesServer(step, s2, 1, Cleared);
    ExecConcat(step, s, a + b, c);
    steps, t := a + b + c, s3;
    BothRun(t);
  }

  /** Inside either window. */
  lemma TwoServersInsideTheWindow(s: State) returns (steps: seq<Step>, t: State)
    requires Pair(s, Resting, Resting, multiset{})
    ensures Exec(InWindow, s, steps) == Some(t) && Exec(Settling, s, steps) == Some(t)
    ensures !AtMostOneServer(t)
  {
    forall x, e ensures AgreesAt(Strict, InWindow, x, e) && AgreesAt(Strict, Settling, x, e) { }
    forall x, e ensures AgreesAt(Strict, Strict, x, e) { }
    steps, t := BothServeInTheEnd(Strict, s);
    ExecMore(Strict, InWindow, s, steps);
    ExecMore(Strict, Settling, s, steps);
  }

  lemma BothRun(t: State)
    requires |t.devices| == 2 && t.devices[0].phase.Serving? && t.devices[1].phase.Serving?
    ensures !AtMostOneServer(t)
  {
    var p: nat, q: nat := 0, 1;
    assert t.devices[p].phase.Serving? && t.devices[q].phase.Serving? && p != q;
  }
}
