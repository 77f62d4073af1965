/** Rounds of questions between two devices, for runs that show what the election needs. */
module ElectionRounds {
  import opened Runs
  import opened Election

  /** A step that neither loses a datagram nor leaves a probe. */
  function Plain(s: State, e: Step): Option<State> {
    if s.WellFormed() && Enabled(s, e) && !e.Lose? && !e.Leave? then Some(Next(s, e)) else None
  }

  /** The kind of steps allows all of these. */
  ghost predicate AllowsPlain(step: (State, Step) -> Option<State>) { forall x, e :: AgreesAt(Plain, step, x, e) }

  /** The two devices of a state, p first. */
  function View(s: State, p: nat): Option<(Device, Device)> {
    if s.WellFormed() && |s.devices| == 2 && p < 2 then Some((s.devices[p], s.devices[1 - p])) else None
  }

  /** Device p is d, the other is o. */
  predicate Two(s: State, p: nat, d: Device, o: Device) { View(s, p) == Some((d, o)) }

  /** Two devices, and what the network holds for them. */
  predicate Pair(s: State, d0: Device, d1: Device, net: multiset<Message>) {
    Two(s, 0, d0, d1) && s.net == net && s.lost == {}
  }

  /** The lost datagrams and, in a well-formed state, the other's history. */
  function Rest(s: State, p: nat): (set<Message>, set<nat>) {
    (s.lost, if p < 2 == |s.processed| then s.processed[1 - p] else {})
  }

  /** The other's history and the lost datagrams are as they were. */
  predicate Aside(s: State, t: State, p: nat) { Rest(s, p) == Rest(t, p) }

  lemma BroadcastPair(p: nat)
    requires p < 2
    ensures Broadcast(p, 2, false) == multiset{Query(p, 1 - p)}
  {
    assert Broadcast(p, 1, false) == if p == 0 then multiset{} else multiset{Query(p, 0)};
  }

  function InRound(d: Device, asked: nat, waiting: bool): Device { d.(phase := Probing(asked, waiting)) }

  lemma Asks(step: (State, Step) -> Option<State>, s: State, p: nat, d: Device, o: Device, k: nat) returns (t: State)
    requires AllowsPlain(step)
    requires Two(s, p, InRound(d, k, false), o) && k < ROUNDS
    ensures step(s, Ask(p)) == Some(t) && Two(t, p, InRound(d, k + 1, true), o) && Aside(s, t, p)
    ensures t.net == s.net + multiset{Query(p, 1 - p)} && t.processed[p] == s.processed[p]
  {
    BroadcastPair(p);
    t := Next(s, Ask(p));
    assert AgreesAt(Plain, step, s, Ask(p));
  }

  lemma HearsNothing(step: (State, Step) -> Option<State>, s: State, p: nat, d: Device, o: Device,
                     rest: multiset<Message>)
    returns (t: State)
    requires AllowsPlain(step)
    requires Two(s, p, d, o) && !o.Up() && s.net == rest + multiset{Query(p, 1 - p)}
    ensures step(s, Deliver(Query(p, 1 - p))) == Some(t) && Two(t, p, d, o) && Aside(s, t, p)
    ensures t.net == rest && t.processed[p] == s.processed[p] + {1 - p}
  {
    t := Next(s, Deliver(Query(p, 1 - p)));
    assert AgreesAt(Plain, step, s, Deliver(Query(p, 1 - p)));
    assert s.net - multiset{Query(p, 1 - p)} == rest;
  }

  lemma Checks(step: (State, Step) -> Option<State>, s: State, p: nat, d: Device, o: Device, k: nat) returns (t: State)
    requires AllowsPlain(step)
    requires Two(s, p, InRound(d, k, true), o) && d.master
    ensures step(s, Check(p)) == Some(t) && Two(t, p, InRound(d, k, false), o) && Aside(s, t, p)
    ensures t.net == s.net && t.processed[p] == s.processed[p]
  {
    t := Next(s, Check(p));
    assert AgreesAt(Plain, step, s, Check(p));
  }

  /** One round of questions to a device that is not up. */
  lemma SilentRound(step: (State, Step) -> Option<State>, s: State, p: nat, d: Device, o: Device, k: nat)
    returns (steps: seq<Step>, t: State)
    requires AllowsPlain(step)
    requires Two(s, p, InRound(d, k, false), o) && k < ROUNDS && d.master && !o.Up()
    ensures Exec(step, s, steps) == Some(t) && Two(t, p, InRound(d, k + 1, false), o) && Aside(s, t, p)
    ensures t.net == s.net && 1 - p in t.processed[p]
  {
    var asked := Asks(step, s, p, d, o, k);
    var heard := HearsNothing(step, asked, p, InRound(d, k + 1, true), o, s.net);
    t := Checks(step, heard, p, d, o, k + 1);
    steps := [Ask(p), Deliver(Query(p, 1 - p)), Check(p)];
    ExecThree(step, s, Ask(p), asked, Deliver(Query(p, 1 - p)), heard, Check(p), t);
  }

  /** The rounds that p has left. */
  lemma {:induction false} SilentRounds(step: (State, Step) -> Option<State>, s: State, p: nat, d: Device, o: Device,
                                        k: nat)
    returns (steps: seq<Step>, t: State)
    requires AllowsPlain(step)
    requires Two(s, p, InRound(d, k, false), o) && k < ROUNDS && d.master && !o.Up()
    ensures Exec(step, s, steps) == Some(t) && Two(t, p, InRound(d, ROUNDS, false), o) && Aside(s, t, p)
    ensures t.net == s.net && 1 - p in t.processed[p]
    decreases ROUNDS - k
  {
    steps, t := SilentRound(step, s, p, d, o, k);
    if k + 1 < ROUNDS {
      var more, u := SilentRounds(step, t, p, d, o, k + 1);
      ExecConcat(step, s, steps, more);
      steps, t := steps + more, u;
    }
  }

  // ----- other steps of a pair

  const Resting := Device(false, true, false, false, false, Idle)

  function Prober(restart: bool): Device { Device(true, true, false, restart, false, Probing(0, false)) }

  lemma Starts(step: (State, Step) -> Option<State>, s: State, p: nat, d: Device, o: Device) returns (t: State)
    requires AllowsPlain(step) && Two(s, p, d, o) && !d.conected && !d.startClient && d.master
    ensures step(s, StartProbe(p)) == Some(t) && Two(t, p, InRound(d.(conected := true), 0, false), o)
    ensures t.net == s.net && t.processed[1 - p] == s.processed[1 - p] && t.lost <= s.lost
  {
    t := Next(s, StartProbe(p));
    assert AgreesAt(Plain, step, s, StartProbe(p));
  }

  /** What being told to start a client does to a connected device. */
  function Told(d: Device): Device {
    if d.restart then d.(master := false, client := true, restart := false) else d.(restart := true)
  }

  /** The other tells p to start a client, and p hears it. */
  lemma Tell(step: (State, Step) -> Option<State>, s: State, p: nat, d: Device, o: Device)
    returns (steps: seq<Step>, t: State)
    requires AllowsPlain(step) && Two(s, p, d, o) && d.conected && o.master
    ensures Exec(step, s, steps) == Some(t) && Two(t, p, Told(d), o)
    ensures t.net == s.net && t.processed == s.processed && t.lost == s.lost
  {
    var m := Start(1 - p, p);
    var u := Next(s, Announce(1 - p, p));
    t := Next(u, Deliver(m));
    assert s.net + multiset{m} - multiset{m} == s.net;
    assert AgreesAt(Plain, step, s, Announce(1 - p, p)) && AgreesAt(Plain, step, u, Deliver(m));
    ExecOne(step, s, Announce(1 - p, p), []);
    steps := [Announce(1 - p, p)] + [];
    ExecSnoc(step, s, steps, u, Deliver(m));
    steps := steps + [Deliver(m)];
  }

  lemma TellTwice(step: (State, Step) -> Option<State>, s: State, p: nat, d: Device, o: Device)
    returns (steps: seq<Step>, t: State)
    requires AllowsPlain(step) && Two(s, p, d, o) && d.conected && o.master
    ensures Exec(step, s, steps) == Some(t) && Two(t, p, Told(Told(d)), o)
    ensures t.net == s.net && t.processed == s.processed && t.lost == s.lost
  {
    var a, u := Tell(step, s, p, d, o);
    var b;
    b, t := Tell(step, u, p, Told(d), o);
    ExecConcat(step, s, a, b);
    steps := a + b;
  }
}
