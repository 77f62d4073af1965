/**
  The control machine of the master: resting, computing setpoints, and
  balancing, where chargers that ask for it are admitted.
 */
module Control {
  import opened Chargers
  import opened Eviction
  import opened Allocator

  datatype Mode = Rest | Compute | Balance

  datatype Group = Group(t: seq<Charger>, mode: Mode, lastConex: nat, share: nat, recalcCount: nat, newData: bool)

  // ----- rest

  predicate Waiting(c: Charger) { c.hpt == B1 && c.chargeReq }

  predicate RestFits(c: Charger, p: Params) {
    var amps := p.potenciaMax * 100 / 230;
    (if c.trifasico then amps / 3 else amps) >= FLOOR
  }

  function RestRow(c: Charger, p: Params): Charger {
    if !Waiting(c) then c.(consigna := 0)
    else if RestFits(c, p) then c.(order := 1)
    else c
  }

  predicate Wakes(t: seq<Charger>, p: Params) {
    exists i :: 0 <= i < |t| && Waiting(t[i]) && RestFits(t[i], p)
  }

  function RestStep(s: Group, env: Env, rested: bool): (r: Group)
    ensures |r.t| == |s.t|
  {
    if !rested then s
    else s.(t := seq(|s.t|, i requires 0 <= i < |s.t| => RestRow(s.t[i], env.params)),
            mode := if Wakes(s.t, env.params) then Compute else s.mode)
  }

  // ----- compute

  /** What follows the general calculation of a computing step, whose outcome is g. */
  function Computed(s: Group, g: Pass, env: Env): (r: Group)
    ensures |r.t| == |g.t|
  {
    s.(t := if g.conex == 0 then g.t else Distribute(g.t, Prepared(s.t), env.limits, g.share),
       share := g.share, recalcCount := g.recalcCount, mode := if g.conex == 0 then Rest else Balance)
  }

  function ComputeStep(s: Group, env: Env): (r: Group)
    requires |s.t| <= MAX_GROUP_SIZE
    ensures |r.t| == |s.t| && r.t == Calculo(s.t, env, s.share, s.recalcCount)
  {
    Computed(s, General(s.t, env, s.share, s.recalcCount), env)
  }

  // ----- balance

  predicate Overloaded(counted: seq<Charger>, limits: seq<nat>) {
    exists circuit :: 1 <= circuit <= |limits| && CircuitOver(counted, limits, circuit)
  }

  predicate CircuitOver(counted: seq<Charger>, limits: seq<nat>, circuit: nat)
    requires 1 <= circuit <= |limits|
  {
    exists phase :: 1 <= phase <= 3 && PhaseOver(counted, limits, circuit, phase)
  }

  predicate PhaseOver(counted: seq<Charger>, limits: seq<nat>, circuit: nat, phase: nat)
    requires 1 <= circuit <= |limits|
  {
    PhaseCurrent(counted, |counted|, circuit, phase) / 100 > limits[circuit - 1]
    || PhaseConsigna(counted, |counted|, circuit, phase) > limits[circuit - 1]
  }

  /** Whether one more user of the phase would still get more than 6 A. */
  predicate PhaseAdmits(counted: seq<Charger>, limits: seq<nat>, circuit: nat, phase: nat) {
    var limit := if 1 <= circuit <= |limits| then limits[circuit - 1] else 0;
    limit / (PhaseConex(counted, |counted|, circuit, phase) + 1) > FLOOR
  }

  /** Whether a charger that asks may enter the group. */
  predicate Fits(c: Charger, counted: seq<Charger>, limits: seq<nat>, limit: nat, tri: nat) {
    if c.trifasico then
      limit / (tri + 3) >= FLOOR && forall phase :: 1 <= phase <= 3 ==> PhaseAdmits(counted, limits, c.circuito, phase)
    else
      limit / (tri + 1) >= FLOOR && PhaseAdmits(counted, limits, c.circuito, c.fase)
  }

  function LastOrder(t: seq<Charger>, n: nat): nat
    requires n <= |t|
  {
    if n == 0 then 0
    else
      var o, c := LastOrder(t, n - 1), t[n - 1];
      if (c.hpt == C2 || c.hpt == B2) && o < c.order then c.order else o
  }

  function Admitted(t: seq<Charger>, i: nat): (r: seq<Charger>)
    requires i < |t|
    ensures |r| == |t|
  {
    var u := t[i := t[i].(hpt := C2)];
    u[i := u[i].(order := Byte(LastOrder(u, |u|) + 1))]
  }

  /** The first charger from row i on that asks and fits; |t| if none does. */
  function FirstFit(t: seq<Charger>, i: nat, counted: seq<Charger>, limits: seq<nat>, limit: nat, tri: nat): (r: nat)
    requires i <= |t|
    ensures i <= r <= |t|
    ensures r < |t| ==> t[r].chargeReq && Fits(t[r], counted, limits, limit, tri)
    ensures forall k :: i <= k < r ==> !(t[k].chargeReq && Fits(t[k], counted, limits, limit, tri))
    decreases |t| - i
  {
    if i == |t| || (t[i].chargeReq && Fits(t[i], counted, limits, limit, tri)) then i
    else FirstFit(t, i + 1, counted, limits, limit, tri)
  }

  /** Those that asked in vain before row `stop` lose their setpoint. */
  function Refused(t: seq<Charger>, stop: nat): (r: seq<Charger>)
    ensures |r| == |t|
    ensures forall k :: 0 <= k < |t| ==> r[k] == if k < stop && t[k].chargeReq then t[k].(consigna := 0) else t[k]
  {
    seq(|t|, k requires 0 <= k < |t| => if k < stop && t[k].chargeReq then t[k].(consigna := 0) else t[k])
  }

  function AdmitStep(t: seq<Charger>, first: nat): (r: seq<Charger>)
    requires first <= |t|
    ensures |r| == |t|
  {
    var u := Refused(t, first);
    if first < |t| then Admitted(u, first) else u
  }

  /** Unused amperes of a row. */
  function Spare(c: Charger): nat {
    if c.consigna > c.current / 100 then Byte(c.consigna - c.current / 100) else 0
  }

  predicate SpareTimedOut(c: Charger, elapsed: nat) {
    Evictable(c) && Spare(c) > 2 && Word(c.deltaTimer + elapsed) > 10000
  }

  function SpareRow(c: Charger, elapsed: nat): Charger {
    if !Evictable(c) then c
    else if Spare(c) <= 2 then c.(deltaTimer := 0, delta := 0)
    else if SpareTimedOut(c, elapsed) then c.(delta := Spare(c), deltaTimer := 0)
    else c.(deltaTimer := Word(c.deltaTimer + elapsed))
  }

  function SpareStep(t: seq<Charger>, elapsed: nat): (r: seq<Charger>)
    ensures |r| == |t| && forall k :: 0 <= k < |t| ==> r[k] == SpareRow(t[k], elapsed)
  {
    seq(|t|, k requires 0 <= k < |t| => SpareRow(t[k], elapsed))
  }

  /** The rows once requests and spare current have been looked at, and whether to compute again. */
  function Served(t: seq<Charger>, first: nat, conex: nat, elapsed: nat): (r: (seq<Charger>, bool))
    requires first <= |t|
    ensures |r.0| == |t|
  {
    var t1 := AdmitStep(t, first);
    if conex > 1 then
      (SpareStep(t1, elapsed), first < |t| || exists k :: 0 <= k < |t1| && SpareTimedOut(t1[k], elapsed))
    else (t1, first < |t|)
  }

  /** The pass gets as far as looking at requests. */
  predicate LooksAtRequests(s: Group, env: Env, g: Pass) {
    && !g.recalc && !s.newData
    && s.lastConex == g.conex && g.conex != 0
    && g.consumo <= g.limit && !Overloaded(Prepared(s.t), env.limits)
  }

  function FirstAdmitted(s: Group, env: Env): nat
    requires |s.t| <= MAX_GROUP_SIZE
  {
    var g := General(s.t, env, s.share, s.recalcCount);
    FirstFit(g.t, 0, Prepared(s.t), env.limits, g.limit, g.tri)
  }

  /** What follows the general calculation of a balancing step, whose outcome is g. */
  function Balanced(s: Group, g: Pass, env: Env, elapsed: nat): (r: Group)
    ensures |r.t| == |g.t|
  {
    var p, base := Prepared(s.t), s.(t := g.t, share := g.share, recalcCount := g.recalcCount);
    if g.recalc || s.newData then base.(newData := false, mode := Compute)
    else if s.lastConex != g.conex || g.conex == 0 then
      base.(mode := if g.conex == 0 then Rest else Compute, lastConex := g.conex)
    else if g.consumo > g.limit || Overloaded(p, env.limits) then base.(mode := Compute)
    else
      var (t, again) := Served(g.t, FirstFit(g.t, 0, p, env.limits, g.limit, g.tri), g.conex, elapsed);
      base.(t := t, mode := if again then Compute else s.mode)
  }

  function BalanceStep(s: Group, env: Env, elapsed: nat): (r: Group)
    requires |s.t| <= MAX_GROUP_SIZE
    ensures |r.t| == |s.t|
  {
    Balanced(s, General(s.t, env, s.share, s.recalcCount), env, elapsed)
  }

  function Step(s: Group, env: Env, elapsed: nat, rested: bool): (r: Group)
    requires |s.t| <= MAX_GROUP_SIZE
    ensures |r.t| == |s.t|
  {
    match s.mode
    case Rest => RestStep(s, env, rested)
    case Compute => ComputeStep(s, env)
    case Balance => BalanceStep(s, env, elapsed)
  }

  // ----- admission is sound

  /** A loop that threw nobody out did nothing. */
  lemma {:induction false} GoneGrows(l: Loop, limit: nat)
    requires Ready(l)
    ensures l.gone <= Evict(l, limit).gone
    ensures !Stops(l) ==> Evict(l, limit).gone != {}
    decreases Findable(l.t, |l.t|), StepsToZero(l.tri, l.t[0].trifasico)
  {
    if !Stops(l) {
      TurnProgress(l, limit);
      GoneGrows(Turn(l, limit), limit);
    }
  }

  lemma NobodyGone(t: seq<Charger>, env: Env, share: nat, recalcCount: nat)
    requires |t| <= MAX_GROUP_SIZE
    ensures var g, p := General(t, env, share, recalcCount), Prepared(t);
      && (g.gone == {} <==> Live(p, |p|, {}) == 0 || g.limit / Live(p, |p|, {}) >= FLOOR)
      && (g.gone == {} ==> g.t == p && g.tri == Live(p, |p|, {}) && g.conex == LiveCount(p, |p|, {}))
      && (g.gone == {} && g.tri > 0 ==> g.share == g.limit / g.tri)
  {
    var p := Prepared(t);
    LiveBounds(p, |p|, {});
    if Live(p, |p|, {}) > 0 { GoneGrows(Begin(p, Limit(p, env)), Limit(p, env)); }
  }

  /** Two rows that count, weigh and lie on their phases alike. */
  predicate SameLoad(c: Charger, d: Charger) {
    && Counted(c) == Counted(d) && c.circuito == d.circuito && c.fase == d.fase && c.conected == d.conected
    && (Counted(c) ==> c.currentB == d.currentB && c.currentC == d.currentC)
  }

  /** All rows but row i load the group alike. */
  predicate OthersAlike(p: seq<Charger>, q: seq<Charger>, i: nat) {
    |p| == |q| && i < |q| && forall k :: 0 <= k < |p| && k != i ==> SameLoad(p[k], q[k])
  }

  lemma {:induction false} OneMore(p: seq<Charger>, q: seq<Charger>, n: nat, i: nat)
    requires n <= |p| && OthersAlike(p, q, i) && p[i].conected == q[i].conected
    ensures Live(q, n, {}) <= Live(p, n, {}) + if i < n then Weight(q[i]) else 0
    ensures Conectados(q, n) == Conectados(p, n)
    ensures i < n && Counted(q[i]) ==> Live(q, n, {}) > 0 && LiveCount(q, n, {}) > 0
  {
    if n > 0 { OneMore(p, q, n - 1, i); }
  }

  lemma {:induction false} OneMoreOnPhase(p: seq<Charger>, q: seq<Charger>, n: nat, i: nat, circuit: nat, phase: nat)
    requires n <= |p| && OthersAlike(p, q, i)
    ensures PhaseConex(q, n, circuit, phase) <= PhaseConex(p, n, circuit, phase) + if i < n then 1 else 0
    ensures i < n && Uses(q[i], circuit, phase) ==> PhaseConex(q, n, circuit, phase) > 0
  {
    if n > 0 { OneMoreOnPhase(p, q, n - 1, i, circuit, phase); }
  }

  lemma DivMonotone(a: nat, small: nat, large: nat, k: nat)
    requires 0 < small <= large && a / large >= k
    ensures a / small >= k
  {
    DivAtLeast(a, large, k);
    DivAtLeast(a, small, k);
    assert k * small <= k * large;
  }

  /** Rows that differ at most in setpoint, order and the bookkeeping of spare current. */
  predicate SameRow(c: Charger, d: Charger) {
    && c.hpt == d.hpt && c.circuito == d.circuito && c.fase == d.fase && c.conected == d.conected
    && c.trifasico == d.trifasico && c.currentB == d.currentB && c.currentC == d.currentC
  }

  lemma AdmitRows(t: seq<Charger>, first: nat, elapsed: nat, k: nat)
    requires first < |t| && k < |t|
    ensures var plain := AdmitStep(t, first)[k];
            var r := if k == first then t[k].(hpt := C2) else t[k];
            SameRow(r, plain) && SameRow(r, SpareRow(plain, elapsed))
  {
    var plain := AdmitStep(t, first)[k];
    assert Refused(t, first)[k] == if k < first && t[k].chargeReq then t[k].(consigna := 0) else t[k];
    SpareSameRow(plain, elapsed);
  }

  lemma SpareSameRow(c: Charger, elapsed: nat)
    ensures SameRow(c, SpareRow(c, elapsed))
  {
  }

  lemma SameRowSameLoad(c: Charger, d: Charger)
    requires SameRow(c, d)
    ensures SameLoad(c, Prepare(d))
  {
  }

  /** The branch of the balancing step that looks at requests. */
  lemma AdmittingStep(s: Group, env: Env, elapsed: nat)
    requires |s.t| <= MAX_GROUP_SIZE
    requires var g := General(s.t, env, s.share, s.recalcCount); LooksAtRequests(s, env, g) && g.gone == {}
    requires FirstAdmitted(s, env) < |s.t|
    ensures var i, p, r := FirstAdmitted(s, env), Prepared(s.t), BalanceStep(s, env, elapsed);
      r.mode.Compute? && (r.t == AdmitStep(p, i) || r.t == SpareStep(AdmitStep(p, i), elapsed))
  {
    NobodyGone(s.t, env, s.share, s.recalcCount);
  }

  /** What an admitting pass does to the rows, as far as the next count can see. */
  lemma AdmissionRows(s: Group, env: Env, elapsed: nat)
    requires |s.t| <= MAX_GROUP_SIZE
    requires var g := General(s.t, env, s.share, s.recalcCount); LooksAtRequests(s, env, g) && g.gone == {}
    requires FirstAdmitted(s, env) < |s.t|
    ensures var i, p, r := FirstAdmitted(s, env), Prepared(s.t), BalanceStep(s, env, elapsed);
      && r.mode.Compute?
      && Joined(p, r.t, i)
  {
    var i, p, r := FirstAdmitted(s, env), Prepared(s.t), BalanceStep(s, env, elapsed);
    AdmittingStep(s, env, elapsed);
    forall k | 0 <= k < |p|
      ensures SameRow(if k == i then p[k].(hpt := C2) else p[k], r.t[k])
    {
      AdmitRows(p, i, elapsed, k);
    }
    forall k | 0 <= k < |p| && k != i ensures SameLoad(p[k], Prepare(r.t[k])) {
      SameRowSameLoad(p[k], r.t[k]);
    }
  }

  /** A pass that threw nobody out and leaves everybody at least 6 A. */
  predicate Roomy(g: Pass, q: seq<Charger>) {
    g.gone == {} && g.conex > 0 && g.share >= FLOOR && g.t == q
  }

  /** Row i of t has joined the rows of p as C2; the others load the group as they did. */
  predicate Joined(p: seq<Charger>, t: seq<Charger>, i: nat) {
    OthersAlike(p, Prepared(t), i) && SameRow(p[i].(hpt := C2), t[i])
  }

  predicate GroupAdmits(c: Charger, limit: nat, tri: nat) {
    limit / (tri + if c.trifasico then 3 else 1) >= FLOOR
  }

  /** What a newcomer adds to the count. */
  lemma NewcomerCounts(p: seq<Charger>, t: seq<Charger>, i: nat)
    requires Joined(p, t, i) && (p[i].trifasico || !ThreePhase(p[i]))
    ensures var q := Prepared(t);
      && 0 < Live(q, |q|, {}) <= Live(p, |p|, {}) + (if p[i].trifasico then 3 else 1)
      && LiveCount(q, |q|, {}) > 0 && Conectados(q, |q|) == Conectados(p, |p|)
  {
    OneMore(p, Prepared(t), |p|, i);
  }

  lemma ShareStays(c: Charger, limit: nat, tri: nat, after: nat)
    requires GroupAdmits(c, limit, tri) && 0 < after <= tri + (if c.trifasico then 3 else 1)
    ensures SixEach(limit, after)
  {
    DivMonotone(limit, after, tri + if c.trifasico then 3 else 1, FLOOR);
  }

  predicate SixEach(limit: nat, weight: nat) { weight > 0 && limit / weight >= FLOOR }

  lemma EnoughForAll(t: seq<Charger>, env: Env, share: nat, recalcCount: nat)
    requires |t| <= MAX_GROUP_SIZE
    requires var q := Prepared(t); LiveCount(q, |q|, {}) > 0 && SixEach(Limit(q, env), Live(q, |q|, {}))
    ensures Roomy(General(t, env, share, recalcCount), Prepared(t))
  {
    NobodyGone(t, env, share, recalcCount);
  }

  /** One more counted row leaves everybody 6 A if the group had room for it. */
  lemma RoomForOneMore(p: seq<Charger>, t: seq<Charger>, env: Env, i: nat, share: nat, recalcCount: nat)
    requires |t| <= MAX_GROUP_SIZE && Joined(p, t, i) && !Metered(env)
    requires p[i].trifasico || !ThreePhase(p[i])
    requires GroupAdmits(p[i], Limit(p, env), Live(p, |p|, {}))
    ensures Roomy(General(t, env, share, recalcCount), Prepared(t))
  {
    var q := Prepared(t);
    NewcomerCounts(p, t, i);
    ShareStays(p[i], Limit(p, env), Live(p, |p|, {}), Live(q, |q|, {}));
    EnoughForAll(t, env, share, recalcCount);
  }

  /** The pass throws nobody out and admits a charger that is single-phase or flagged as three-phase. */
  predicate Admits(s: Group, env: Env)
    requires |s.t| <= MAX_GROUP_SIZE
  {
    var g := General(s.t, env, s.share, s.recalcCount);
    && LooksAtRequests(s, env, g) && g.gone == {}
    && FirstAdmitted(s, env) < |s.t|
    && var c := Prepared(s.t)[FirstAdmitted(s, env)];
       Placed(c, env.limits) && (c.trifasico || !ThreePhase(c))
  }

  /** A charger on phase 1 and one that asks on phase 2, with 43 A for the group: the second comes in. */
  lemma AdmissionHappens() returns (s: Group, env: Env)
    ensures |s.t| == 2 && !Metered(env) && Admits(s, env) && FirstAdmitted(s, env) == 1
  {
    var a := Charger("CHARGER1", 1, C2, 1, 1, 1, false, 32, 0, 0, 0, 0, 0, true, false);
    var b := Charger("CHARGER2", 2, B1, 2, 1, 0, false, 0, 0, 0, 0, 0, 0, true, true);
    s, env := Group([a, b], Balance, 2, 0, 0, false), Env(Params(0, 0, 100), Meter(false, 0), [32]);
    var p := Prepared(s.t);
    assert p == [a, b];
    PairCounts(p);
    PairTotals(p);
    NobodyGone(s.t, env, s.share, s.recalcCount);
    PairPhases(p, a, b, env.limits);
    assert Fits(b, p, env.limits, 43, 2);
    assert FirstFit(p, 1, p, env.limits, 43, 2) == 1;
  }

  lemma PairCounts(p: seq<Charger>)
    requires |p| == 2 && Counted(p[0]) && Counted(p[1]) && !ThreePhase(p[0]) && !ThreePhase(p[1])
    ensures Live(p, 2, {}) == 2 && LiveCount(p, 2, {}) == 2
  {
    assert Live(p, 0, {}) == 0 && LiveCount(p, 0, {}) == 0;
    assert Live(p, 1, {}) == 1;
    assert LiveCount(p, 1, {}) == 1;
  }

  lemma PairTotals(p: seq<Charger>)
    requires |p| == 2 && p[0].conected && p[1].conected && !ThreePhase(p[0]) && !ThreePhase(p[1])
    requires Counted(p[0]) && Counted(p[1])
    ensures Conectados(p, 2) == 2
    ensures TotalCurrent(p, 2) == p[0].current + p[1].current && TotalConsigna(p, 2) == p[0].consigna + p[1].consigna
  {
    assert Conectados(p, 0) == 0 && TotalCurrent(p, 0) == 0 && TotalConsigna(p, 0) == 0;
    assert Conectados(p, 1) == 1;
    assert TotalCurrent(p, 1) == p[0].current;
    assert TotalConsigna(p, 1) == p[0].consigna;
  }

  /** What two single-phase chargers on phases 1 and 2 put on a phase of their circuit. */
  lemma PairPhase(p: seq<Charger>, f: nat)
    requires |p| == 2 && Counted(p[0]) && Counted(p[1]) && !ThreePhase(p[0]) && !ThreePhase(p[1])
    requires p[0].circuito == p[1].circuito == 1 && p[0].fase == 1 && p[1].fase == 2
    requires p[0].current == p[1].current == 0
    ensures PhaseConex(p, 2, 1, f) == if f == 1 || f == 2 then 1 else 0
    ensures PhaseCurrent(p, 2, 1, f) == 0
    ensures PhaseConsigna(p, 2, 1, f) == if f == 1 then p[0].consigna else if f == 2 then p[1].consigna else 0
  {
    assert PhaseConex(p, 0, 1, f) == 0 && PhaseCurrent(p, 0, 1, f) == 0 && PhaseConsigna(p, 0, 1, f) == 0;
    assert Uses(p[0], 1, f) == (f == 1) && Uses(p[1], 1, f) == (f == 2);
    assert PhaseConex(p, 1, 1, f) == if f == 1 then 1 else 0;
    assert PhaseCurrent(p, 1, 1, f) == 0;
    assert PhaseConsigna(p, 1, 1, f) == if f == 1 then p[0].consigna else 0;
  }

  /** Two single-phase chargers that each have a phase to themselves. */
  lemma PairPhases(p: seq<Charger>, a: Charger, b: Charger, limits: seq<nat>)
    requires p == [a, b] && |limits| == 1 && Counted(a) && Counted(b) && !ThreePhase(a) && !ThreePhase(b)
    requires a.circuito == b.circuito == 1 && a.fase == 1 && b.fase == 2
    requires a.consigna <= limits[0] && b.consigna <= limits[0] && a.current == b.current == 0
    ensures PhaseConex(p, 2, 1, 2) == 1 && !Overloaded(p, limits)
  {
    assert p[0] == a && p[1] == b;
    PairPhase(p, 2);
    forall f: nat | 1 <= f <= 3 ensures !PhaseOver(p, limits, 1, f) { PairPhase(p, f); }
    assert !CircuitOver(p, limits, 1);
  }

  /**
    An admitted charger stays: with measurements and parameters unchanged and no meter online, the next
    general calculation throws nobody out and the distribution gives the newcomer 6 to 32 A.
   */
  lemma AdmittedChargerIsServed(s: Group, env: Env, elapsed: nat)
    requires |s.t| <= MAX_GROUP_SIZE && !Metered(env) && Admits(s, env)
    ensures var i, r := FirstAdmitted(s, env), BalanceStep(s, env, elapsed);
      && r.mode.Compute?
      && General(r.t, env, r.share, r.recalcCount).gone == {}
      && var final := ComputeStep(r, env);
         final.mode.Balance? && final.t[i].hpt == C2 && FLOOR <= final.t[i].consigna <= CAP
  {
    var i, p, r := FirstAdmitted(s, env), Prepared(s.t), BalanceStep(s, env, elapsed);
    assert Fits(p[i], p, env.limits, Limit(p, env), Live(p, |p|, {})) by {
      NobodyGone(s.t, env, s.share, s.recalcCount);
    }
    AdmissionRows(s, env, elapsed);
    NextCompute(p, r, env, i);
  }

  /** The computing step after an admission, told from the rows alone. */
  lemma NextCompute(p: seq<Charger>, r: Group, env: Env, i: nat)
    requires |r.t| <= MAX_GROUP_SIZE && Joined(p, r.t, i) && !Metered(env)
    requires p[i].trifasico || !ThreePhase(p[i])
    requires Placed(p[i], env.limits) && PhaseAdmits(p, env.limits, p[i].circuito, p[i].fase)
    requires GroupAdmits(p[i], Limit(p, env), Live(p, |p|, {}))
    ensures General(r.t, env, r.share, r.recalcCount).gone == {}
    ensures var final := ComputeStep(r, env);
      final.mode.Balance? && final.t[i].hpt == C2 && FLOOR <= final.t[i].consigna <= CAP
  {
    RoomForOneMore(p, r.t, env, i, r.share, r.recalcCount);
    NewcomerPhase(p, r.t, env.limits, i);
    ComputeServes(r, env, i);
  }

  lemma NewcomerPhase(p: seq<Charger>, t: seq<Charger>, limits: seq<nat>, i: nat)
    requires Joined(p, t, i) && Placed(p[i], limits)
    requires PhaseAdmits(p, limits, p[i].circuito, p[i].fase)
    ensures AvailableTo(Prepared(t), Prepared(t)[i], limits) > FLOOR
  {
    AdmittedPhase(p, Prepared(t), i, limits);
  }

  lemma ComputeServes(r: Group, env: Env, i: nat)
    requires |r.t| <= MAX_GROUP_SIZE && i < |r.t| && r.t[i].hpt == C2
    requires Roomy(General(r.t, env, r.share, r.recalcCount), Prepared(r.t))
    requires AvailableTo(Prepared(r.t), Prepared(r.t)[i], env.limits) > FLOOR
    ensures var final := ComputeStep(r, env);
      final.mode.Balance? && final.t[i].hpt == C2 && FLOOR <= final.t[i].consigna <= CAP
  {
    var g, q := General(r.t, env, r.share, r.recalcCount), Prepared(r.t);
    assert ComputeStep(r, env).t[i] == Assign(q[i], AvailableTo(q, q[i], env.limits), g.share);
  }

  lemma AdmittedPhase(p: seq<Charger>, q: seq<Charger>, i: nat, limits: seq<nat>)
    requires OthersAlike(p, q, i) && Counted(q[i]) && Placed(q[i], limits)
    requires PhaseAdmits(p, limits, q[i].circuito, q[i].fase)
    ensures AvailableTo(q, q[i], limits) > FLOOR
  {
    OneMoreOnPhase(p, q, |p|, i, q[i].circuito, q[i].fase);
    DivMonotone(limits[q[i].circuito - 1], PhaseConex(q, |q|, q[i].circuito, q[i].fase),
                PhaseConex(p, |p|, q[i].circuito, q[i].fase) + 1, FLOOR + 1);
  }
}
