/**
  The handshake by which the chargers of a group agree on a master: a device raises
  its flags, asks every other device ten times whether it is the master, and serves if nobody
  said yes.  Devices, the datagrams in flight and what the network lost form one state, and a
  run is any interleaving of the steps below.
 */
module Election {
  import opened Runs

  const ROUNDS: nat := 10

  /** How far `coap_start_server` has got on a device. */
  datatype Phase = Idle | Probing(asked: nat, waiting: bool) | Serving

  datatype Device = Device(conected: bool, master: bool, startClient: bool, restart: bool,
                           client: bool, phase: Phase)
  {
    /** The test with which a device answers "Master here?". */
    predicate Up() { conected && master }

    predicate ServingAsMaster() { phase.Serving? && Up() }
  }

  datatype Message =
    | Query(src: nat, dst: nat)    // "Master here?"
    | Reply(src: nat, dst: nat)    // "Yes, Master here"
    | Start(src: nat, dst: nat)    // "Start client"

  /**
    `processed[p]`, `silent[p]` and `lost` record history: the devices that handled a query of p
    since p's current probe began, those that handled one without answering, and the datagrams
    the network has dropped.
   */
  datatype State = State(devices: seq<Device>, net: multiset<Message>,
                         processed: seq<set<nat>>, silent: seq<set<nat>>, lost: set<Message>)
  {
    predicate WellFormed() {
      |devices| == |processed| == |silent|
    }

    function With(p: nat, d: Device): State
      requires p < |devices|
    {
      this.(devices := devices[p := d])
    }
  }

  datatype Step =
    | RaiseMaster(p: nat)
    | StartProbe(p: nat)
    | Ask(p: nat)
    | Check(p: nat)
    | Leave(p: nat, inGroup: bool)
    | StartClientTask(p: nat)
    | EndClient(p: nat)
    | StopServing(p: nat, deleted: bool)
    | Announce(p: nat, q: nat)
    | Deliver(m: Message)
    | Lose(m: Message)
    | Duplicate(m: Message)

  /** One datagram of the given kind to every other device. */
  function Broadcast(src: nat, n: nat, start: bool): (r: multiset<Message>)
    ensures forall q: nat :: q < n && q != src ==> (if start then Start(src, q) else Query(src, q)) in r
    ensures forall m :: m in r ==> m.src == src && m.dst != src && m.dst < n && (if start then m.Start? else m.Query?)
    decreases n
  {
    if n == 0 then multiset{}
    else if n - 1 == src then Broadcast(src, n - 1, start)
    else Broadcast(src, n - 1, start) + multiset{if start then Start(src, n - 1) else Query(src, n - 1)}
  }

  predicate Enabled(s: State, e: Step) {
    match e
    case RaiseMaster(p) => p < |s.devices| && !s.devices[p].conected && !s.devices[p].phase.Probing?
    case StartProbe(p) => p < |s.devices| && !s.devices[p].conected && !s.devices[p].startClient && s.devices[p].master
    case Ask(p) => p < |s.devices| && s.devices[p].phase.Probing? && !s.devices[p].phase.waiting
                   && s.devices[p].phase.asked < ROUNDS
    case Check(p) => p < |s.devices| && s.devices[p].phase.Probing? && s.devices[p].phase.waiting
    case Leave(p, _) => p < |s.devices| && s.devices[p].phase == Probing(ROUNDS, false)
    case StartClientTask(p) => p < |s.devices| && !s.devices[p].conected && s.devices[p].startClient
    case EndClient(p) => p < |s.devices| && s.devices[p].client
    case StopServing(p, _) => p < |s.devices| && s.devices[p].phase.Serving?
    case Announce(p, q) => p < |s.devices| && q < |s.devices| && (s.devices[p].master || s.devices[p].phase.Serving?)
    case Deliver(m) => m in s.net && m.dst < |s.devices| && m.src < |s.devices|
    case Lose(m) => m in s.net
    case Duplicate(m) => m in s.net
  }

  /** What a device does with a datagram, apart from answering it. */
  function Receive(d: Device, m: Message): Device {
    match m
    case Query(_, _) => d
    case Reply(_, _) => if d.Up() then d.(startClient := true, master := false) else d
    case Start(_, _) =>
      if !d.conected && !d.startClient then d.(startClient := true, master := false)
      else if d.conected then
        if d.restart then d.(master := false, client := true, restart := false) else d.(restart := true)
      else d
  }

  function DeliverTo(s: State, m: Message): State
    requires s.WellFormed() && m in s.net && m.dst < |s.devices| && m.src < |s.devices|
  {
    var rest := s.net - multiset{m};
    var d := s.devices[m.dst];
    if m.Query? then
      var handled := s.processed[m.src := s.processed[m.src] + {m.dst}];
      if d.Up() then s.(net := rest + multiset{Reply(m.dst, m.src)}, processed := handled)
      else s.(net := rest, processed := handled, silent := s.silent[m.src := s.silent[m.src] + {m.dst}])
    else
      s.With(m.dst, Receive(d, m)).(net := rest)
  }

  function Next(s: State, e: Step): (t: State)
    requires s.WellFormed() && Enabled(s, e)
    ensures t.WellFormed() && |t.devices| == |s.devices|
  {
    match e
    case RaiseMaster(p) => s.With(p, s.devices[p].(master := true))
    case StartProbe(p) =>
      // The flags go up before the first question, and what earlier probes learnt is void.
      s.With(p, s.devices[p].(conected := true, master := true, phase := Probing(0, false)))
       .(processed := s.processed[p := {}], silent := s.silent[p := {}],
         lost := set m | m in s.lost && !(m.Reply? && m.dst == p))
    case Ask(p) =>
      s.With(p, s.devices[p].(phase := Probing(s.devices[p].phase.asked + 1, true)))
       .(net := s.net + Broadcast(p, |s.devices|, false))
    case Check(p) =>
      var d := s.devices[p];
      if d.master then s.With(p, d.(phase := Probing(d.phase.asked, false)))
      else s.With(p, d.(conected := false, phase := Idle))
    case Leave(p, inGroup) =>
      var d := s.devices[p];
      if !d.master then s.With(p, d.(phase := Idle))
      else if !inGroup then s.With(p, d.(conected := false, master := false, phase := Idle))
      else s.With(p, d.(conected := true, phase := Serving)).(net := s.net + Broadcast(p, |s.devices|, true))
    case StartClientTask(p) => s.With(p, s.devices[p].(conected := true, master := false, client := true))
    case EndClient(p) => s.With(p, s.devices[p].(conected := false, startClient := false, client := false))
    case StopServing(p, deleted) =>
      var d := s.devices[p].(conected := false, startClient := false, phase := Idle);
      s.With(p, if deleted then d.(master := false) else d)
    case Announce(p, q) => s.(net := s.net + multiset{Start(p, q)})
    case Deliver(m) => DeliverTo(s, m)
    case Lose(m) => s.(net := s.net - multiset{m}, lost := s.lost + {m})
    case Duplicate(m) => s.(net := s.net + multiset{m})
  }

  predicate Initial(s: State) {
    && s.WellFormed()
    && s.net == multiset{} && s.lost == {}
    && (forall p :: 0 <= p < |s.devices| ==> !s.devices[p].conected && !s.devices[p].client && s.devices[p].phase.Idle?)
    && (forall p :: 0 <= p < |s.devices| ==> s.processed[p] == {} && s.silent[p] == {})
  }

  /**
    The delivery window: when p leaves its probe loop still flagged as connected, every other
    device has handled one of p's queries, and no answer to p is still travelling or was lost.
   */
  predicate Window(s: State, p: nat)
    requires s.WellFormed() && p < |s.devices|
  {
    s.devices[p].conected && Unanswered(s, p)
  }

  predicate Unanswered(s: State, p: nat)
    requires s.WellFormed() && p < |s.devices|
  {
    forall q: nat :: q < |s.devices| && q != p ==>
      q in s.processed[p] && Reply(q, p) !in s.net && Reply(q, p) !in s.lost
  }

  /** A step, refused if a prober leaves outside the delivery window. */
  function InWindow(s: State, e: Step): Option<State> {
    if s.WellFormed() && Enabled(s, e) && (e.Leave? ==> Window(s, e.p)) then Some(Next(s, e)) else None
  }

  // ----- the invariant

  /** Two devices that are both up never both passed the other in silence. */
  predicate NoMutualSilence(s: State)
    requires s.WellFormed()
  {
    forall p: nat, q: nat ::
      (p < |s.devices| && q < |s.devices| && p != q && s.devices[p].Up() && s.devices[q].Up() && q in s.silent[p]) ==>
        p !in s.silent[q]
  }

  /** Whoever handled a query of an up device kept silent, or its answer is travelling or lost. */
  predicate AnswersAccounted(s: State)
    requires s.WellFormed()
  {
    forall p: nat, q: nat :: p < |s.devices| && s.devices[p].Up() && q in s.processed[p] ==>
      q in s.silent[p] || Reply(q, p) in s.net || Reply(q, p) in s.lost
  }

  predicate ServersHeardSilence(s: State)
    requires s.WellFormed()
  {
    forall p: nat, q: nat :: p < |s.devices| && q < |s.devices| && p != q && s.devices[p].ServingAsMaster() ==>
      q in s.silent[p]
  }

  predicate Invariant(s: State) {
    s.WellFormed() && NoMutualSilence(s) && AnswersAccounted(s) && ServersHeardSilence(s)
  }

  predicate AtMostOneMaster(s: State) {
    forall p: nat, q: nat ::
      (p < |s.devices| && q < |s.devices| && s.devices[p].ServingAsMaster() && s.devices[q].ServingAsMaster()) ==>
        p == q
  }

  lemma DeliverKeeps(s: State, m: Message)
    requires Invariant(s) && Enabled(s, Deliver(m))
    ensures Invariant(DeliverTo(s, m))
  {
    var t := DeliverTo(s, m);
    forall p: nat, q: nat | p < |t.devices| && t.devices[p].Up() && q in t.processed[p]
      ensures q in t.silent[p] || Reply(q, p) in t.net || Reply(q, p) in t.lost
    {
      if q in s.processed[p] && q !in s.silent[p] && Reply(q, p) !in s.lost {
        assert Reply(q, p) in s.net && m != Reply(q, p);
      }
    }
  }

  /** A device that neither comes up nor starts serving. */
  lemma DeviceKeeps(s: State, p: nat, d: Device)
    requires Invariant(s) && p < |s.devices|
    requires d.Up() ==> s.devices[p].Up()
    requires d.ServingAsMaster() ==> s.devices[p].ServingAsMaster()
    ensures Invariant(s.With(p, d))
  {
  }

  lemma TrafficKeeps(s: State, more: multiset<Message>)
    requires Invariant(s)
    ensures Invariant(s.(net := s.net + more))
  {
  }

  lemma LossKeeps(s: State, m: Message)
    requires Invariant(s)
    ensures Invariant(s.(net := s.net - multiset{m}, lost := s.lost + {m}))
  {
  }

  lemma StartKeeps(s: State, p: nat)
    requires Invariant(s) && Enabled(s, StartProbe(p))
    ensures Invariant(Next(s, StartProbe(p)))
  {
  }

  lemma StepKeeps(s: State, e: Step)
    requires Invariant(s) && Enabled(s, e)
    requires e.Leave? ==> Window(s, e.p)
    ensures Invariant(Next(s, e))
  {
    match e
    case RaiseMaster(p) => DeviceKeeps(s, p, Next(s, e).devices[p]);
    case StartProbe(p) => StartKeeps(s, p);
    case Ask(p) =>
      DeviceKeeps(s, p, Next(s, e).devices[p]);
      TrafficKeeps(s.With(p, Next(s, e).devices[p]), Broadcast(p, |s.devices|, false));
    case Check(p) => DeviceKeeps(s, p, Next(s, e).devices[p]);
    case Leave(p, inGroup) =>
      if s.devices[p].master && inGroup {
        TrafficKeeps(s.With(p, Next(s, e).devices[p]), Broadcast(p, |s.devices|, true));
      } else {
        DeviceKeeps(s, p, Next(s, e).devices[p]);
      }
    case StartClientTask(p) => DeviceKeeps(s, p, Next(s, e).devices[p]);
    case EndClient(p) => DeviceKeeps(s, p, Next(s, e).devices[p]);
    case StopServing(p, _) => DeviceKeeps(s, p, Next(s, e).devices[p]);
    case Announce(p, q) => TrafficKeeps(s, multiset{Start(p, q)});
    case Deliver(m) => DeliverKeeps(s, m);
    case Lose(m) => LossKeeps(s, m);
    case Duplicate(m) => TrafficKeeps(s, multiset{m});
  }

  lemma RunKeeps(s: State, steps: seq<Step>)
    requires Invariant(s) && Exec(InWindow, s, steps).Some?
    ensures Invariant(Exec(InWindow, s, steps).value)
  {
    forall x, e ensures KeptAt(InWindow, Invariant, x, e) {
      if Invariant(x) && InWindow(x, e).Some? { StepKeeps(x, e); }
    }
    ExecKeeps(InWindow, Invariant, s, steps);
  }

  /** Safety of the election over whole runs. */
  lemma AtMostOneMasterServes(s: State, steps: seq<Step>)
    requires Initial(s) && Exec(InWindow, s, steps).Some?
    ensures AtMostOneMaster(Exec(InWindow, s, steps).value)
  {
    RunKeeps(s, steps);
    InvariantIsSafe(Exec(InWindow, s, steps).value);
  }

  lemma InvariantIsSafe(s: State)
    requires Invariant(s)
    ensures AtMostOneMaster(s)
  {
  }

  // ----- networks that only delay

  /** Nothing p asked, and no answer to p, is still in flight. */
  predicate Quiet(s: State, p: nat)
    requires p < |s.devices|
  {
    && s.devices[p].conected
    && forall q: nat :: q < |s.devices| ==> Query(p, q) !in s.net && Reply(q, p) !in s.net
  }

  /** A step, refused if it loses a datagram or if a prober leaves with its own traffic in flight. */
  function Settling(s: State, e: Step): Option<State> {
    if s.WellFormed() && Enabled(s, e) && !e.Lose? && (e.Leave? ==> Quiet(s, e.p)) then Some(Next(s, e)) else None
  }

  /** Once p has asked, each other device has handled a query of p or is about to. */
  predicate QueriesAccounted(s: State)
    requires s.WellFormed()
  {
    s.lost == {} &&
    forall p: nat, q: nat ::
      (p < |s.devices| && q < |s.devices| && p != q && s.devices[p].phase.Probing? && s.devices[p].phase.asked > 0) ==>
        q in s.processed[p] || Query(p, q) in s.net
  }

  lemma SettledDelivery(s: State, m: Message, p: nat, q: nat)
    requires s.WellFormed() && QueriesAccounted(s) && Enabled(s, Deliver(m))
    requires p < |s.devices| && q < |s.devices| && p != q
    requires s.devices[p].phase.Probing? && s.devices[p].phase.asked > 0
    ensures q in DeliverTo(s, m).processed[p] || Query(p, q) in DeliverTo(s, m).net
  {
    if m != Query(p, q) {
      assert Query(p, q) in s.net ==> Query(p, q) in s.net - multiset{m};
    }
  }

  /** Only a delivery, a loss or a new probe of p takes datagrams or history of p away. */
  lemma NothingTaken(s: State, e: Step, p: nat)
    requires s.WellFormed() && Enabled(s, e) && p < |s.devices|
    requires !e.Deliver? && !e.Lose? && e != StartProbe(p)
    ensures s.net <= Next(s, e).net && s.processed[p] == Next(s, e).processed[p]
  {
  }

  lemma SettledPair(s: State, e: Step, p: nat, q: nat)
    requires s.WellFormed() && QueriesAccounted(s) && Enabled(s, e) && !e.Lose?
    requires p < |s.devices| && q < |s.devices| && p != q
    requires Next(s, e).devices[p].phase.Probing? && Next(s, e).devices[p].phase.asked > 0
    ensures q in Next(s, e).processed[p] || Query(p, q) in Next(s, e).net
  {
    if e.Deliver? {
      SettledDelivery(s, e.m, p, q);
    } else if e != Ask(p) {
      assert s.devices[p].phase.Probing? && s.devices[p].phase.asked > 0;
      NothingTaken(s, e, p);
    }
  }

  lemma SettledStepKeeps(s: State, e: Step)
    requires s.WellFormed() && QueriesAccounted(s) && Enabled(s, e) && !e.Lose?
    ensures QueriesAccounted(Next(s, e))
  {
    var t := Next(s, e);
    forall p: nat, q: nat | && p < |t.devices| && q < |t.devices| && p != q
                            && t.devices[p].phase.Probing? && t.devices[p].phase.asked > 0
      ensures q in t.processed[p] || Query(p, q) in t.net
    {
      SettledPair(s, e, p, q);
    }
  }

  lemma {:induction false} SettledRunIsRun(s: State, steps: seq<Step>)
    requires s.WellFormed() && QueriesAccounted(s) && Exec(Settling, s, steps).Some?
    ensures Exec(InWindow, s, steps) == Exec(Settling, s, steps)
    decreases |steps|
  {
    if steps != [] {
      SettledStepKeeps(s, steps[0]);
      SettledRunIsRun(Next(s, steps[0]), steps[1..]);
    }
  }

  /** With delays only, waiting for one's own queries and answers is enough. */
  lemma AtMostOneMasterWhenSettled(s: State, steps: seq<Step>)
    requires Initial(s) && Exec(Settling, s, steps).Some?
    ensures AtMostOneMaster(Exec(Settling, s, steps).value)
  {
    SettledRunIsRun(s, steps);
    AtMostOneMasterServes(s, steps);
  }

  // ----- the window is needed

  /** Any step at all: probers may leave with their traffic undelivered. */
  function Free(s: State, e: Step): Option<State> {
    if s.WellFormed() && Enabled(s, e) then Some(Next(s, e)) else None
  }

  /** While no datagram reaches it, a prober asks and checks in what is left of its ten rounds, and serves. */
  lemma {:induction false} DeafProberServes(s: State, p: nat) returns (steps: seq<Step>, t: State)
    requires s.WellFormed() && p < |s.devices| && s.devices[p].Up()
    requires s.devices[p].phase.Probing? && !s.devices[p].phase.waiting && s.devices[p].phase.asked <= ROUNDS
    ensures Exec(Free, s, steps) == Some(t) && t.WellFormed()
    ensures |t.devices| == |s.devices| && t.devices[p].ServingAsMaster()
    ensures forall q :: 0 <= q < |s.devices| && q != p ==> t.devices[q] == s.devices[q]
    ensures |steps| == 2 * (10 - s.devices[p].phase.asked) + 1
    decreases ROUNDS - s.devices[p].phase.asked
  {
    if s.devices[p].phase.asked == ROUNDS {
      t := Next(s, Leave(p, true));
      steps := [Leave(p, true)] + [];
      ExecOne(Free, s, Leave(p, true), []);
    } else {
      var asked := Next(s, Ask(p));
      var checked := Next(asked, Check(p));
      var more, u := DeafProberServes(checked, p);
      ExecOne(Free, asked, Check(p), more);
      ExecOne(Free, s, Ask(p), [Check(p)] + more);
      steps, t := [Ask(p)] + ([Check(p)] + more), u;
    }
  }

  lemma DeafPairServes(s: State) returns (steps: seq<Step>, t: State)
    requires s.WellFormed() && |s.devices| == 2
    requires forall p :: 0 <= p < 2 ==> s.devices[p].Up() && s.devices[p].phase == Probing(0, false)
    ensures Exec(Free, s, steps) == Some(t) && !AtMostOneMaster(t)
  {
    var run0, u := DeafProberServes(s, 0);
    var run1, v := DeafProberServes(u, 1);
    ExecConcat(Free, s, run0, run1);
    steps, t := run0 + run1, v;
    BothServe(t);
  }

  lemma BothServe(t: State)
    requires |t.devices| == 2 && t.devices[0].ServingAsMaster() && t.devices[1].ServingAsMaster()
    ensures !AtMostOneMaster(t)
  {
    var p: nat, q: nat := 0, 1;
    assert t.devices[p].ServingAsMaster() && t.devices[q].ServingAsMaster() && p != q;
  }

  /** Two chargers whose queries all stay in flight both end up serving as master. */
  lemma TwoMastersWithoutTheWindow(s: State) returns (steps: seq<Step>, t: State)
    requires Initial(s) && |s.devices| == 2
    requires forall p :: 0 <= p < 2 ==> !s.devices[p].startClient && s.devices[p].master
    ensures Exec(Free, s, steps) == Some(t) && !AtMostOneMaster(t)
  {
    var s1 := Next(s, StartProbe(0));
    var s2 := Next(s1, StartProbe(1));
    var rest, u := DeafPairServes(s2);
    ExecOne(Free, s1, StartProbe(1), rest);
    ExecOne(Free, s, StartProbe(0), [StartProbe(1)] + rest);
    steps, t := [StartProbe(0)] + ([StartProbe(1)] + rest), u;
  }
}
