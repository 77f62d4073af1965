/**
  Whole runs of the master: control steps, DATA messages, new groups and
  deletions in any order, over the table of 40 rows.
 */
module GroupRuns {
  import opened Chargers
  import opened Eviction
  import opened Allocator
  import opened Control
  import opened GroupTable
  import opened GroupCodec
  import opened Runs

  // ----- DATA messages

  /** The decoded fields of a DATA message. */
  datatype Data = Data(name: string, hpt: Pilot, current: nat, currentB: nat, currentC: nat, perm: bool)

  function Measured(c: Charger, m: Data): Charger {
    c.(hpt := m.hpt, current := m.current, currentB := m.currentB, currentC := m.currentC)
  }

  /**
    Effect on the row of the sender.  A charger that asks for permission does not overwrite a row
    in B1 or C2, and one that reports B1 does not overwrite C2.
   */
  function Updated(c: Charger, m: Data): Charger {
    var asked := c.(conected := true, chargeReq := m.perm);
    if !m.perm then
      if m.hpt == B1 && c.hpt == C2 then asked else Measured(asked, m)
    else if c.hpt != B1 && c.hpt != C2 then Measured(asked, m)
    else asked
  }

  /** State and currents are passed over: the sender asks and stands in B1 or C2, or reports B1 and stands in C2. */
  predicate Passed(c: Charger, m: Data) {
    (c.hpt == C2 && (m.perm || m.hpt == B1)) || (c.hpt == B1 && m.perm)
  }

  /** What the message settles in the row, and that all the rest of the row stays. */
  lemma UpdatedRow(c: Charger, m: Data)
    ensures var r := Updated(c, m);
      && r.conected && (r.chargeReq <==> m.perm)
      && (if Passed(c, m) then r.hpt == c.hpt && r.current == c.current && r.currentB == c.currentB
            && r.currentC == c.currentC
          else r.hpt == m.hpt && r.current == m.current && r.currentB == m.currentB && r.currentC == m.currentC)
      && r.(conected := c.conected, chargeReq := c.chargeReq, hpt := c.hpt, current := c.current,
            currentB := c.currentB, currentC := c.currentC) == c
  {
  }

  /**
    A charger that was admitted, and so stands in C2, stays there exactly when its next message asks
    or reports B1 or C2; it may charge exactly when it has a setpoint and the message does not report
    C1 without asking.
   */
  lemma AdmissionSurvivesData(c: Charger, m: Data)
    requires c.hpt == C2
    ensures Updated(c, m).hpt == C2 <==> m.perm || m.hpt == B1 || m.hpt == C2
    ensures Permits(Updated(c, m)) <==> c.consigna > 0 && (m.perm || m.hpt != C1)
  {
  }

  /**
    The permission denied by an eviction survives the next DATA message exactly when the row was
    left without setpoint, or the charger neither asks again nor reports that it is charging.
   */
  lemma EvictionSurvivesData(c: Charger, m: Data)
    requires c.hpt == B1 && !c.chargeReq
    ensures !Permits(c)
    ensures !Permits(Updated(c, m)) <==> c.consigna == 0 || (!m.perm && (m.hpt == B1 || m.hpt == C1))
  {
  }

  /** Row i is thrown out while others stay, and its phase has current to give. */
  predicate ThrownOut(t: seq<Charger>, env: Env, share: nat, recalcCount: nat, i: nat)
    requires |t| <= MAX_GROUP_SIZE && i < |t|
  {
    var g := General(t, env, share, recalcCount);
    i in g.gone && g.conex > 0 && AvailableTo(Prepared(t), t[i], env.limits) > 0
  }

  /** Of two chargers that would get 4 A each the newer one has to go. */
  lemma NewerGoes(a: Charger, b: Charger)
    requires a.hpt == C2 && b.hpt == C2 && a.order == 1 && b.order == 2 && !b.trifasico
    ensures Evict(Loop([a, b], 2, 2, 4, {}), 8) == Loop([a, Evicted(b)], 1, 1, 8, {1})
  {
    var l, r := Loop([a, b], 2, 2, 4, {}), Loop([a, Evicted(b)], 1, 1, 8, {1});
    assert Newest(l.t, 0) == (0, 0);
    assert Newest(l.t, 1) == (0, 1);
    assert Newest(l.t, 2) == (1, 2);
    assert Turn(l, 8) == r;
    assert Evict(r, 8) == r;
  }

  lemma NobodyStuck(p: seq<Charger>)
    requires |p| == 2 && forall i :: 0 <= i < 2 ==> p[i].hpt == C2 && p[i].order > 0
    ensures Stuck(p, 2) == 0
  {
    assert Stuck(p, 0) == 0;
    assert Stuck(p, 1) == 0;
  }

  /** A single-phase charger in C2 on circuit 1. */
  function Charging(name: string, fase: nat, order: nat): Charger {
    Charger(name, 1, C2, fase, 1, order, false, 6, 0, 0, 0, 0, 0, true, false)
  }

  /** Two chargers on 8 A: the newer one has to go, and its row keeps a setpoint. */
  lemma ThrowingOutHappens() returns (t: seq<Charger>, env: Env)
    ensures |t| == 2 && Regular(t, env) && ThrownOut(t, env, 0, 0, 1)
  {
    var a, b := Charging("CHARGER1", 1, 1), Charging("CHARGER2", 2, 2);
    t, env := [a, b], Env(Params(0, 0, 20), Meter(false, 0), [32]);
    var p := Prepared(t);
    assert p == t;
    PairCounts(p);
    PairTotals(p);
    PairPhases(p, a, b, env.limits);
    NobodyStuck(p);
    NewerGoes(a, b);
    assert Limit(p, env) == 8;
    assert Begin(p, 8) == Loop([a, b], 2, 2, 4, {});
  }

  /**
    Exactly when the DATA message after a computing pass finds a charger that the pass threw out
    still denied: nobody was left, or its phase has nothing to give, or it neither asks again nor
    reports a state other than B1 and C1.  So a message that still shows C2 lets it in again.
   */
  lemma EvictionUndoneByData(t: seq<Charger>, env: Env, share: nat, recalcCount: nat, i: nat, m: Data)
    requires Regular(t, env) && i < |t| && i in General(t, env, share, recalcCount).gone
    ensures var g, c := General(t, env, share, recalcCount), Calculo(t, env, share, recalcCount)[i];
      && !Permits(c)
      && (!Permits(Updated(c, m)) <==>
            || g.conex == 0 || AvailableTo(Prepared(t), t[i], env.limits) == 0
            || (!m.perm && (m.hpt == B1 || m.hpt == C1)))
  {
    CalculoRows(t, env, share, recalcCount, i);
    GeneralTracks(t, env, share, recalcCount);
    var g, p := General(t, env, share, recalcCount), Prepared(t);
    LiveBounds(p, |p|, g.gone);
    assert g.t[i] == Evicted(p[i]);
    EvictionSurvivesData(Calculo(t, env, share, recalcCount)[i], m);
  }

  /** In that group, a message of the one thrown out that still shows C2 gives it permission again. */
  lemma EvictionUndoneHappens(m: Data) returns (t: seq<Charger>, env: Env)
    requires m.hpt == C2 && !m.perm
    ensures |t| == 2 && Regular(t, env) && ThrownOut(t, env, 0, 0, 1)
    ensures var c := Calculo(t, env, 0, 0)[1]; !Permits(c) && Permits(Updated(c, m))
  {
    t, env := ThrowingOutHappens();
    EvictionUndoneByData(t, env, 0, 0, 1, m);
  }

  // ----- the machine over the whole buffer

  datatype World = World(rows: seq<Charger>, size: nat, mode: Mode, lastConex: nat, share: nat,
                         recalcCount: nat, newData: bool)
  {
    function Used(): seq<Charger>
      requires size <= |rows|
    {
      rows[..size]
    }
  }

  datatype Event =
    | Tick(env: Env, elapsed: nat, rested: bool)
    | Report(data: Data)
    | NewTable(entries: seq<Entry>, me: string, master: bool, net: map<string, nat>)
    | Delete

  /** The table turned so that row k comes first. */
  function Rotated(rows: seq<Charger>, n: nat, k: nat): (r: seq<Charger>)
    requires k <= n <= |rows|
    ensures |r| == |rows|
  {
    rows[k..n] + rows[..k] + rows[n..]
  }

  /** The rotation loop that restores whole rows computes exactly this. */
  lemma RotatedIsTurned(s: seq<Charger>, r: seq<Charger>, n: nat, k: nat)
    requires TurnedBy(s, r, n, k, Whole) && forall i :: n <= i < |s| ==> r[i] == s[i]
    ensures r == Rotated(s, n, k)
  {
    var t := Rotated(s, n, k);
    forall i | 0 <= i < |s| ensures r[i] == t[i] {
      if n - k <= i < n { assert t[i] == s[i + k - n]; }
    }
  }

  function Cleared(c: Charger): Charger { c.(ip := NO_IP, fase := 1, circuito := 0, name := Blank) }

  /** What a control step needs of the table so that it indexes only existing circuits. */
  predicate Safe(t: seq<Charger>, limits: seq<nat>) {
    (t != [] ==> Placed(t[0], limits)) &&
    forall i :: 0 <= i < |t| && (Counted(t[i]) || TakesSetpoint(t[i]) || t[i].chargeReq) ==> Placed(t[i], limits)
  }

  predicate Legal(w: World, e: Event) {
    && w.size <= |w.rows| == MAX_GROUP_SIZE
    && (e.Tick? ==> Safe(w.Used(), e.env.limits))
    && (e.NewTable? ==> |e.entries| <= MAX_GROUP_SIZE)
  }

  /** The address of a charger as far as the network table knows it. */
  function Lookup(net: map<string, nat>): string -> nat { id => if id in net then net[id] else NO_IP }

  function Apply(w: World, e: Event): (r: World)
    requires Legal(w, e)
    ensures r.size <= |r.rows| == MAX_GROUP_SIZE
  {
    match e
    case Tick(env, elapsed, rested) =>
      var g := Step(View(w), env, elapsed, rested);
      World(g.t + w.rows[w.size..], w.size, g.mode, g.lastConex, g.share, g.recalcCount, g.newData)
    case Report(m) =>
      var j := Find(w.rows, w.size, m.name);
      if j < ABSENT then w.(rows := w.rows[j := Updated(w.rows[j], m)]) else w
    case NewTable(es, me, master, net) =>
      var (rows, size) := Rebuilt(w.rows, w.Used(), es, |es|, me, Lookup(net));
      var k := Find(rows, size, me);
      w.(rows := if size > 0 && master && k != ABSENT then Rotated(rows, size, k) else rows,
         size := size, newData := true)
    case Delete =>
      w.(rows := seq(|w.rows|, i requires 0 <= i < |w.rows| => if i < w.size then Cleared(w.rows[i]) else w.rows[i]),
         size := 0)
  }

  /** An event, refused if it would index a circuit that does not exist or overrun the table. */
  function Lawful(w: World, e: Event): Option<World> { if Legal(w, e) then Some(Apply(w, e)) else None }

  // ----- invariants

  predicate Invariant(w: World) {
    && w.size <= |w.rows| == MAX_GROUP_SIZE
    && Distinct(w.rows, w.size)
    && Capped(w.rows)
  }

  /** Names and places are kept, and no setpoint leaves 0..32. */
  predicate Tame(c: Charger, d: Charger) {
    Place(c) == Place(d) && (c.consigna <= CAP ==> d.consigna <= CAP)
  }

  predicate TameRows(t: seq<Charger>, r: seq<Charger>) {
    |t| == |r| && forall i :: 0 <= i < |t| ==> Tame(t[i], r[i])
  }

  lemma {:induction false} EvictTame(t: seq<Charger>, l: Loop, limit: nat)
    requires Ready(l) && TameRows(t, l.t)
    ensures TameRows(t, Evict(l, limit).t)
    decreases Findable(l.t, |l.t|), StepsToZero(l.tri, l.t[0].trifasico)
  {
    if !Stops(l) {
      TurnProgress(l, limit);
      EvictTame(t, Turn(l, limit), limit);
    }
  }

  lemma GeneralTame(t: seq<Charger>, env: Env, share: nat, recalcCount: nat)
    requires |t| <= MAX_GROUP_SIZE
    ensures TameRows(t, General(t, env, share, recalcCount).t)
  {
    var p := Prepared(t);
    if Live(p, |p|, {}) > 0 { EvictTame(t, Begin(p, Limit(p, env)), Limit(p, env)); }
  }

  lemma AdmitRowTame(u: seq<Charger>, first: nat, k: nat)
    requires first <= |u| && k < |u|
    ensures Tame(u[k], AdmitStep(u, first)[k])
  {
    assert Tame(u[k], Refused(u, first)[k]);
  }

  lemma SpareRowTame(c: Charger, elapsed: nat)
    ensures Tame(c, SpareRow(c, elapsed))
  {
  }

  lemma AdmitTame(t: seq<Charger>, u: seq<Charger>, first: nat, elapsed: nat)
    requires TameRows(t, u) && first <= |u|
    ensures TameRows(t, AdmitStep(u, first)) && TameRows(t, SpareStep(AdmitStep(u, first), elapsed))
  {
    forall k | 0 <= k < |u|
      ensures Tame(t[k], AdmitStep(u, first)[k]) && Tame(t[k], SpareStep(AdmitStep(u, first), elapsed)[k])
    {
      AdmitRowTame(u, first, k);
      SpareRowTame(AdmitStep(u, first)[k], elapsed);
    }
  }

  lemma ComputeTame(s: Group, env: Env)
    requires |s.t| <= MAX_GROUP_SIZE
    ensures TameRows(s.t, ComputeStep(s, env).t)
  {
    GeneralTame(s.t, env, s.share, s.recalcCount);
    var g, p := General(s.t, env, s.share, s.recalcCount), Prepared(s.t);
    forall i | 0 <= i < |s.t| ensures Tame(s.t[i], Distribute(g.t, p, env.limits, g.share)[i]) {
      AssignTame(s.t[i], g.t[i], AvailableTo(p, g.t[i], env.limits), g.share);
    }
  }

  lemma AssignTame(c: Charger, d: Charger, available: nat, share: nat)
    requires Tame(c, d)
    ensures Tame(c, Assign(d, available, share))
  {
  }

  lemma ServedTame(t: seq<Charger>, u: seq<Charger>, first: nat, conex: nat, elapsed: nat)
    requires TameRows(t, u) && first <= |u|
    ensures TameRows(t, Served(u, first, conex, elapsed).0)
  {
    AdmitTame(t, u, first, elapsed);
  }

  lemma BalancedTame(s: Group, g: Pass, env: Env, elapsed: nat)
    requires TameRows(s.t, g.t)
    ensures TameRows(s.t, Balanced(s, g, env, elapsed).t)
  {
    var first := FirstFit(g.t, 0, Prepared(s.t), env.limits, g.limit, g.tri);
    ServedTame(s.t, g.t, first, g.conex, elapsed);
    var b := Balanced(s, g, env, elapsed);
    assert b.t == g.t || b.t == Served(g.t, first, g.conex, elapsed).0;
  }

  lemma BalanceTame(s: Group, env: Env, elapsed: nat)
    requires |s.t| <= MAX_GROUP_SIZE
    ensures TameRows(s.t, BalanceStep(s, env, elapsed).t)
  {
    GeneralTame(s.t, env, s.share, s.recalcCount);
    BalancedTame(s, General(s.t, env, s.share, s.recalcCount), env, elapsed);
  }

  lemma StepTame(s: Group, env: Env, elapsed: nat, rested: bool)
    requires |s.t| <= MAX_GROUP_SIZE
    ensures TameRows(s.t, Step(s, env, elapsed, rested).t)
  {
    match s.mode
    case Rest =>
    case Compute => ComputeTame(s, env);
    case Balance => BalanceTame(s, env, elapsed);
  }

  predicate Capped(rows: seq<Charger>) { forall i :: 0 <= i < |rows| ==> rows[i].consigna <= CAP }

  lemma FilledCapped(rows: seq<Charger>, known: seq<Charger>, size: nat, e: Entry, i: nat, me: string, ip: nat)
    requires |rows| == MAX_GROUP_SIZE && size <= |rows| && |known| <= MAX_GROUP_SIZE && i < |rows|
    requires Capped(rows) && Capped(known)
    ensures var a := Added(rows, size, e.id, ip); Capped(a[i := Filled(a[i], e, known, me)])
  {
  }

  lemma {:induction false} RebuiltCapped(rows: seq<Charger>, known: seq<Charger>, es: seq<Entry>, n: nat, me: string,
                                         ip: string -> nat)
    requires |rows| == MAX_GROUP_SIZE && |known| <= MAX_GROUP_SIZE && n <= |es| <= MAX_GROUP_SIZE
    requires Capped(rows) && Capped(known)
    ensures Capped(Rebuilt(rows, known, es, n, me, ip).0)
  {
    if n > 0 {
      RebuiltCapped(rows, known, es, n - 1, me, ip);
      var (before, size) := Rebuilt(rows, known, es, n - 1, me, ip);
      FilledCapped(before, known, size, es[n - 1], n - 1, me, ip(es[n - 1].id));
    }
  }

  lemma RotatedDistinct(rows: seq<Charger>, n: nat, k: nat)
    requires k <= n <= |rows| && Distinct(rows, n)
    ensures Distinct(Rotated(rows, n, k), n)
  {
    forall i, j | 0 <= i < j < n ensures Rotated(rows, n, k)[i].name != Rotated(rows, n, k)[j].name {
    }
  }

  lemma RotatedKeeps(rows: seq<Charger>, n: nat, k: nat)
    requires k <= n <= |rows|
    ensures forall i :: 0 <= i < |rows| ==> Rotated(rows, n, k)[i] in rows
    ensures forall i :: 0 <= i < n ==> Rotated(rows, n, k)[i] in rows[..n]
  {
    forall i: nat | i < |rows|
      ensures Rotated(rows, n, k)[i] in rows && (i < n ==> Rotated(rows, n, k)[i] in rows[..n])
    {
      var j := if i < n - k then i + k else if i < n then i + k - n else i;
      assert i < n ==> rows[..n][j] == rows[j];
    }
  }

  /** The group part of the state, as the control machine sees it. */
  function View(w: World): Group
    requires w.size <= |w.rows|
  {
    Group(w.Used(), w.mode, w.lastConex, w.share, w.recalcCount, w.newData)
  }

  /** Rows past the group do not change. */
  lemma TameBelow(t: seq<Charger>, r: seq<Charger>, rest: seq<Charger>)
    requires TameRows(t, r)
    ensures TameRows(t + rest, r + rest)
  {
  }

  lemma TickPlaces(w: World, e: Event)
    requires Legal(w, e) && e.Tick?
    ensures var r := Apply(w, e);
      r.size == w.size && TameRows(w.rows, r.rows)
  {
    StepTame(View(w), e.env, e.elapsed, e.rested);
    var g := Step(View(w), e.env, e.elapsed, e.rested);
    assert w.rows == w.Used() + w.rows[w.size..];
    TameBelow(w.Used(), g.t, w.rows[w.size..]);
  }

  lemma NewTableKeeps(w: World, e: Event)
    requires Invariant(w) && Legal(w, e) && e.NewTable?
    ensures Invariant(Apply(w, e))
  {
    var ip := Lookup(e.net);
    assert Capped(w.Used());
    RebuiltCapped(w.rows, w.Used(), e.entries, |e.entries|, e.me, ip);
    var (rows, size) := Rebuilt(w.rows, w.Used(), e.entries, |e.entries|, e.me, ip);
    var k := Find(rows, size, e.me);
    if k != ABSENT {
      RotatedKeeps(rows, size, k);
      RotatedDistinct(rows, size, k);
    }
  }

  lemma ApplyKeeps(w: World, e: Event)
    requires Invariant(w) && Legal(w, e)
    ensures Invariant(Apply(w, e))
  {
    match e
    case Tick(_, _, _) => TickPlaces(w, e);
    case Report(_) =>
    case NewTable(_, _, _, _) => NewTableKeeps(w, e);
    case Delete =>
  }

  /** In every run: setpoints within 0..32, names distinct, at most 40 chargers. */
  lemma RunKeepsInvariant(w: World, es: seq<Event>)
    requires Invariant(w) && Exec(Lawful, w, es).Some?
    ensures Invariant(Exec(Lawful, w, es).value)
  {
    forall x, e ensures KeptAt(Lawful, Invariant, x, e) {
      if Invariant(x) && Legal(x, e) { ApplyKeeps(x, e); }
    }
    ExecKeeps(Lawful, Invariant, w, es);
  }

  // ----- what each message does to the table

  /** A control step acts on the rows in use as its state says; rows past them stay. */
  lemma TickIsStep(w: World, env: Env, elapsed: nat, rested: bool)
    requires Legal(w, Event.Tick(env, elapsed, rested))
    ensures var r := Apply(w, Event.Tick(env, elapsed, rested));
      && r.size == w.size && r.rows[w.size..] == w.rows[w.size..]
      && (w.mode.Rest? ==> View(r) == RestStep(View(w), env, rested))
      && (w.mode.Compute? ==> View(r) == ComputeStep(View(w), env))
      && (w.mode.Balance? ==> View(r) == BalanceStep(View(w), env, elapsed))
  {
    var g := Step(View(w), env, elapsed, rested);
    assert (g.t + w.rows[w.size..])[..w.size] == g.t;
  }

  /** A report changes the row of its sender and nothing else; without such a row it changes nothing. */
  lemma ReportedRow(w: World, m: Data, j: nat)
    requires Invariant(w) && j < w.size && w.rows[j].name == m.name
    ensures var r := Apply(w, Report(m));
      && r == w.(rows := r.rows) && r.rows[j].conected && (r.rows[j].chargeReq <==> m.perm)
      && (r.rows[j].hpt == if Passed(w.rows[j], m) then w.rows[j].hpt else m.hpt)
      && |r.rows| == |w.rows| && forall i :: 0 <= i < |w.rows| && i != j ==> r.rows[i] == w.rows[i]
  {
    assert Find(w.rows, w.size, m.name) == j;
    UpdatedRow(w.rows[j], m);
  }

  lemma UnknownReport(w: World, m: Data)
    requires Invariant(w) && forall i :: 0 <= i < w.size ==> w.rows[i].name != m.name
    ensures Apply(w, Report(m)) == w
  {
  }

  /** Deleting the group leaves no name and no circuit in the rows that were in use. */
  lemma DeletedRows(w: World)
    requires Invariant(w)
    ensures var r := Apply(w, Delete);
      && r.size == 0 && r == w.(rows := r.rows, size := 0)
      && (forall i :: 0 <= i < w.size ==> r.rows[i].name == "\0\0\0\0\0\0\0\0" && r.rows[i].circuito == 0)
      && (forall i :: w.size <= i < |w.rows| ==> r.rows[i] == w.rows[i])
  {
  }

  /** The rows are as the entries describe them, read from entry k on and round. */
  predicate ListedFrom(r: seq<Charger>, es: seq<Entry>, k: nat, known: seq<Charger>, me: string)
    requires |known| <= MAX_GROUP_SIZE && k < |es|
  {
    |es| <= |r| && forall i :: 0 <= i < |es| ==> Describes(r[i], es[From(|es|, k, i)], known, me)
  }

  lemma DescribedRotated(rows: seq<Charger>, es: seq<Entry>, k: nat, known: seq<Charger>, me: string)
    requires |known| <= MAX_GROUP_SIZE && k < |es| <= |rows| && DescribesAll(rows, es, |es|, known, me)
    ensures ListedFrom(rows, es, 0, known, me) && ListedFrom(Rotated(rows, |es|, k), es, k, known, me)
  {
    var n := |es|;
    forall i | 0 <= i < n ensures Describes(Rotated(rows, n, k)[i], es[From(n, k, i)], known, me) {
      RotatedAt(rows, n, k, i);
      assert Describes(rows[From(n, k, i)], es[From(n, k, i)], known, me);
    }
  }

  lemma RotatedAt(rows: seq<Charger>, n: nat, k: nat, i: nat)
    requires k < n <= |rows| && i < n
    ensures Rotated(rows, n, k)[i] == rows[From(n, k, i)]
  {
  }

  lemma FoundAt(rows: seq<Charger>, size: nat, k: nat)
    requires k < size <= |rows| <= MAX_GROUP_SIZE && Distinct(rows, size)
    ensures Find(rows, size, rows[k].name) == k
  {
    assert rows[k].name == rows[k].name;
  }

  lemma ListingTurned(rows: seq<Charger>, es: seq<Entry>, k: nat, known: seq<Charger>, me: string, master: bool)
    requires |known| <= MAX_GROUP_SIZE && k < |es| <= |rows| <= MAX_GROUP_SIZE && es[k].id == me
    requires Distinct(rows, |es|) && DescribesAll(rows, es, |es|, known, me)
    ensures Find(rows, |es|, me) == k
    ensures var r := if master then Rotated(rows, |es|, k) else rows;
      ListedFrom(r, es, if master then k else 0, known, me) && (master ==> r[0].name == me)
  {
    assert Describes(rows[k], es[k], known, me);
    FoundAt(rows, |es|, k);
    DescribedRotated(rows, es, k, known, me);
    RotatedAt(rows, |es|, k, 0);
  }

  lemma RebuiltListing(was: seq<Charger>, known: seq<Charger>, es: seq<Entry>, k: nat, me: string, ip: string -> nat,
                       master: bool)
    requires |was| == MAX_GROUP_SIZE && |known| <= MAX_GROUP_SIZE && k < |es| <= MAX_GROUP_SIZE && es[k].id == me
    requires DistinctIds(es)
    ensures var (rows, size) := Rebuilt(was, known, es, |es|, me, ip);
      && size == |es| && Find(rows, size, me) == k
      && var r := if master then Rotated(rows, size, k) else rows;
         ListedFrom(r, es, if master then k else 0, known, me) && (master ==> r[0].name == me)
  {
    RebuiltDescribes(was, known, es, |es|, me, ip);
    ListingTurned(Rebuilt(was, known, es, |es|, me, ip).0, es, k, known, me, master);
  }

  /**
    A new group that lists this device at place k: the table holds the chargers of the message, in
    its order and as it describes them, a master starting from its own entry and going round.
   */
  lemma NewTableRows(w: World, es: seq<Entry>, me: string, master: bool, net: map<string, nat>, k: nat)
    requires Legal(w, NewTable(es, me, master, net)) && DistinctIds(es) && k < |es| && es[k].id == me
    ensures var r := Apply(w, NewTable(es, me, master, net));
      && r.size == |es| && r.newData && (master ==> r.rows[0].name == me)
      && ListedFrom(r.rows, es, if master then k else 0, w.Used(), me)
  {
    RebuiltListing(w.rows, w.Used(), es, k, me, Lookup(net), master);
    NewTableIs(w, es, me, master, net, k);
  }

  lemma NewTableIs(w: World, es: seq<Entry>, me: string, master: bool, net: map<string, nat>, k: nat)
    requires Legal(w, NewTable(es, me, master, net))
    requires var (rows, size) := Rebuilt(w.rows, w.Used(), es, |es|, me, Lookup(net));
      size > 0 && Find(rows, size, me) == k < size
    ensures var (rows, size) := Rebuilt(w.rows, w.Used(), es, |es|, me, Lookup(net));
      Apply(w, NewTable(es, me, master, net))
        == w.(rows := if master then Rotated(rows, size, k) else rows, size := size, newData := true)
  {
  }

  /** Place i of a list of n read from place k on and round. */
  function From(n: nat, k: nat, i: nat): (j: nat)
    requires k < n && i < n
    ensures j < n && (j == i + k || j == i + k - n)
  {
    if i + k < n then i + k else i + k - n
  }

  // ----- when every control step is safe

  /** Events that name existing circuits and phases, and no charger twice. */
  predicate WellPlaced(e: Event, circuits: nat) {
    && (e.Tick? ==> |e.env.limits| == circuits)
    && (e.NewTable? ==>
          && |e.entries| <= MAX_GROUP_SIZE && DistinctIds(e.entries)
          && forall x :: x in e.entries ==> 1 <= x.value / 4 <= circuits && 1 <= x.value % 4 <= 3)
  }

  predicate AllPlaced(w: World, circuits: nat) {
    w.size <= |w.rows| &&
    forall i :: 0 <= i < w.size ==> 1 <= w.rows[i].circuito <= circuits && 1 <= w.rows[i].fase <= 3
  }

  predicate PlacedRows(rows: seq<Charger>, circuits: nat) {
    forall c :: c in rows ==> 1 <= c.circuito <= circuits && 1 <= c.fase <= 3
  }

  lemma RebuiltPlaced(rows: seq<Charger>, known: seq<Charger>, es: seq<Entry>, me: string, ip: string -> nat,
                      circuits: nat)
    requires |rows| == MAX_GROUP_SIZE && |known| <= MAX_GROUP_SIZE && |es| <= MAX_GROUP_SIZE && DistinctIds(es)
    requires forall x :: x in es ==> 1 <= x.value / 4 <= circuits && 1 <= x.value % 4 <= 3
    ensures var (r, size) := Rebuilt(rows, known, es, |es|, me, ip); PlacedRows(r[..size], circuits)
  {
    RebuiltDescribes(rows, known, es, |es|, me, ip);
    var (r, size) := Rebuilt(rows, known, es, |es|, me, ip);
    DescribedPlaced(r, known, es, me, circuits);
  }

  lemma DescribedPlaced(r: seq<Charger>, known: seq<Charger>, es: seq<Entry>, me: string, circuits: nat)
    requires |known| <= MAX_GROUP_SIZE && DescribesAll(r, es, |es|, known, me)
    requires forall x :: x in es ==> 1 <= x.value / 4 <= circuits && 1 <= x.value % 4 <= 3
    ensures PlacedRows(r[..|es|], circuits)
  {
    forall c | c in r[..|es|] ensures 1 <= c.circuito <= circuits && 1 <= c.fase <= 3 {
      var i :| 0 <= i < |es| && r[i] == c;
      assert Describes(r[i], es[i], known, me) && es[i] in es;
    }
  }

  lemma RotatedPlaced(rows: seq<Charger>, n: nat, k: nat, circuits: nat)
    requires k <= n <= |rows| && PlacedRows(rows[..n], circuits)
    ensures PlacedRows(Rotated(rows, n, k)[..n], circuits)
  {
    RotatedKeeps(rows, n, k);
  }

  lemma PlacedUsed(w: World, circuits: nat)
    requires w.size <= |w.rows| && PlacedRows(w.Used(), circuits)
    ensures AllPlaced(w, circuits)
  {
    assert forall i :: 0 <= i < w.size ==> w.rows[i] in w.Used();
  }

  lemma NewTablePlaces(w: World, e: Event, circuits: nat)
    requires Legal(w, e) && e.NewTable? && WellPlaced(e, circuits)
    ensures AllPlaced(Apply(w, e), circuits)
  {
    var ip := Lookup(e.net);
    RebuiltPlaced(w.rows, w.Used(), e.entries, e.me, ip, circuits);
    var (rows, size) := Rebuilt(w.rows, w.Used(), e.entries, |e.entries|, e.me, ip);
    var k := Find(rows, size, e.me);
    if k != ABSENT { RotatedPlaced(rows, size, k, circuits); }
    PlacedUsed(Apply(w, e), circuits);
  }

  lemma ApplyKeepsPlaces(w: World, e: Event, circuits: nat)
    requires Legal(w, e) && AllPlaced(w, circuits) && WellPlaced(e, circuits)
    ensures AllPlaced(Apply(w, e), circuits)
  {
    match e
    case Tick(_, _, _) => TickPlaces(w, e);
    case Report(_) =>
    case NewTable(_, _, _, _) => NewTablePlaces(w, e, circuits);
    case Delete =>
  }

  /** With well-placed events no control step ever indexes a circuit that does not exist. */
  lemma {:induction false} WellPlacedRunsAreSafe(w: World, es: seq<Event>, circuits: nat)
    requires w.size <= |w.rows| == MAX_GROUP_SIZE && AllPlaced(w, circuits)
    requires forall e :: e in es ==> WellPlaced(e, circuits)
    ensures Exec(Lawful, w, es).Some? && AllPlaced(Exec(Lawful, w, es).value, circuits)
    decreases |es|
  {
    if es != [] {
      assert WellPlaced(es[0], circuits);
      ApplyKeepsPlaces(w, es[0], circuits);
      WellPlacedRunsAreSafe(Apply(w, es[0]), es[1..], circuits);
    }
  }
}
