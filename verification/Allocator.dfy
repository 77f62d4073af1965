/**
  One allocation pass: the general calculation that counts, derives shares and throws out,
  and the distribution of setpoints that follows it.
 */
module Allocator {
  import opened Chargers
  import opened Eviction

  const CAP: nat := 32

  /** What a pass reads besides the table: parameters, meter and the limit of each circuit. */
  datatype Env = Env(params: Params, meter: Meter, limits: seq<nat>)

  /** Outcome of the general calculation. */
  datatype Pass = Pass(t: seq<Charger>, conex: nat, tri: nat, share: nat, gone: set<nat>,
                       limit: nat, consumo: nat, recalc: bool, recalcCount: nat)

  // ----- counting

  /** Counted rows learn that they are three-phase; unplugged ones are reset. */
  function Prepare(c: Charger): Charger {
    if Counted(c) then c.(trifasico := c.trifasico || ThreePhase(c))
    else if c.hpt == A1 || c.hpt == NoVoltage then
      c.(current := 0, delta := 0, deltaTimer := 0, currentB := 0, currentC := 0, order := 0,
         trifasico := false, consigna := 0)
    else c
  }

  function Prepared(t: seq<Charger>): (r: seq<Charger>)
    ensures |r| == |t| && forall i :: 0 <= i < |t| ==> r[i] == Prepare(t[i])
  {
    seq(|t|, i requires 0 <= i < |t| => Prepare(t[i]))
  }

  function Conectados(t: seq<Charger>, n: nat): (r: nat)
    requires n <= |t|
    ensures r <= n
  {
    if n == 0 then 0 else Conectados(t, n - 1) + if t[n - 1].conected then 1 else 0
  }

  function TotalCurrent(t: seq<Charger>, n: nat): nat
    requires n <= |t|
  {
    if n == 0 then 0
    else
      var c := t[n - 1];
      TotalCurrent(t, n - 1)
      + (if Counted(c) then c.current + (if ThreePhase(c) then c.currentB + c.currentC else 0) else 0)
  }

  function TotalConsigna(t: seq<Charger>, n: nat): nat
    requires n <= |t|
  {
    if n == 0 then 0
    else TotalConsigna(t, n - 1) + if Counted(t[n - 1]) then Weighted(t[n - 1], t[n - 1].consigna) else 0
  }

  // ----- phases, numbered 1 to 3

  function Following(phase: nat): nat { if phase == 3 then 1 else phase + 1 }

  /** The current a counted charger puts on a phase of a circuit, if it uses it at all. */
  predicate Uses(c: Charger, circuit: nat, phase: nat) {
    Counted(c) && c.circuito == circuit &&
    (c.fase == phase
     || (ThreePhase(c) && phase == Following(c.fase) && c.currentB > 0)
     || (ThreePhase(c) && phase == Following(Following(c.fase)) && c.currentC > 0))
  }

  function Drawn(c: Charger, phase: nat): nat {
    if c.fase == phase then c.current else if phase == Following(c.fase) then c.currentB else c.currentC
  }

  function PhaseConex(t: seq<Charger>, n: nat, circuit: nat, phase: nat): nat
    requires n <= |t|
  {
    if n == 0 then 0
    else PhaseConex(t, n - 1, circuit, phase) + if Uses(t[n - 1], circuit, phase) then 1 else 0
  }

  function PhaseCurrent(t: seq<Charger>, n: nat, circuit: nat, phase: nat): nat
    requires n <= |t|
  {
    if n == 0 then 0
    else PhaseCurrent(t, n - 1, circuit, phase)
         + if Uses(t[n - 1], circuit, phase) then Drawn(t[n - 1], phase) else 0
  }

  function PhaseConsigna(t: seq<Charger>, n: nat, circuit: nat, phase: nat): nat
    requires n <= |t|
  {
    if n == 0 then 0
    else PhaseConsigna(t, n - 1, circuit, phase)
         + if Uses(t[n - 1], circuit, phase) then t[n - 1].consigna else 0
  }

  /** A row whose circuit and phase exist. */
  predicate Placed(c: Charger, limits: seq<nat>) {
    1 <= c.circuito <= |limits| && 1 <= c.fase <= 3
  }

  /** The share of each user of a phase. */
  function Available(t: seq<Charger>, limits: seq<nat>, circuit: nat, phase: nat): nat {
    var users := PhaseConex(t, |t|, circuit, phase);
    var limit := if 1 <= circuit <= |limits| then limits[circuit - 1] else 0;
    if users > 0 then limit / users else limit
  }

  // ----- the budget

  predicate MeterConfigured(p: Params) { (p.cdp / 16) % 2 == 1 }

  /** A power or current scaled down while some chargers are silent. */
  function Scaled(amps: nat, conectados: nat, n: nat): (r: nat)
    requires conectados <= n
  {
    if conectados == n then amps else amps * conectados / n
  }

  /** Amperes at 230 V for the configured power, scaled down while some chargers are silent. */
  function BaseLimit(p: Params, conectados: nat, n: nat): nat
    requires conectados <= n
  {
    var power := if MeterConfigured(p) then p.contractPower else p.potenciaMax;
    Scaled(power, conectados, n) * 100 / 230
  }

  /** Division of C, which truncates toward zero. */
  function Quotient(a: int, b: int): int
    requires b > 0
  {
    if a >= 0 then a / b else -((-a) / b)
  }

  /** What the external meter leaves for the chargers. */
  function MeterLimit(p: Params, meter: Meter, consumo: nat): nat {
    var mode := (p.cdp / 4) % 4;
    if mode == 1 then
      if p.contractPower * 100 > meter.power then Word((p.contractPower * 100 - meter.power) / 230) else 0
    else if mode == 2 then
      if p.contractPower * 100 > meter.power - 230 * consumo
      then Word((p.contractPower * 100) / 230 + consumo - Quotient(meter.power, 230)) else 0
    else 0
  }

  predicate Metered(env: Env) { MeterConfigured(env.params) && env.meter.online }

  function Consumo(t: seq<Charger>): nat { Byte(Word(TotalCurrent(t, |t|)) / 100) }

  function Limit(t: seq<Charger>, env: Env): nat {
    var con, n := Conectados(t, |t|), |t|;
    if Live(t, n, {}) > 0 && Metered(env) then
      Scaled(MeterLimit(env.params, env.meter, Consumo(t)), con, n)
    else BaseLimit(env.params, con, n)
  }

  // ----- the general calculation

  function Begin(t: seq<Charger>, limit: nat): (l: Loop)
    requires |t| <= MAX_GROUP_SIZE && Live(t, |t|, {}) > 0
    ensures Ready(l)
  {
    LiveBounds(t, |t|, {});
    Loop(t, LiveCount(t, |t|, {}), Live(t, |t|, {}), limit / Live(t, |t|, {}), {})
  }

  /** After 25 passes with more than 5 A unassigned a recalculation is due, and the count restarts. */
  function Idling(limit: nat, given: nat, recalcCount: nat): (bool, nat) {
    if limit - given <= 5 then (false, recalcCount)
    else if Word(recalcCount + 1) > 25 then (true, 0)
    else (false, Word(recalcCount + 1))
  }

  /** A pass with its budget and the setpoints already given. */
  datatype Tick = Tick(limit: nat, given: nat)

  /** How many of the first n passes left more than 5 A unassigned. */
  function IdlePasses(ticks: seq<Tick>, n: nat): (r: nat)
    requires n <= |ticks|
    ensures r <= n
  {
    if n == 0 then 0 else IdlePasses(ticks, n - 1) + if ticks[n - 1].limit - ticks[n - 1].given > 5 then 1 else 0
  }

  /** The counter after the first n passes, from 0. */
  function IdleCount(ticks: seq<Tick>, n: nat): nat
    requires n <= |ticks|
  {
    if n == 0 then 0 else Idling(ticks[n - 1].limit, ticks[n - 1].given, IdleCount(ticks, n - 1)).1
  }

  lemma CountTo26(k: nat)
    ensures (k + 1) % 26 == if k % 26 == 25 then 0 else k % 26 + 1
  {
  }

  /** One pass, from a counter that has not fired yet. */
  lemma IdlingStep(limit: nat, given: nat, count: nat)
    requires count < 26
    ensures Idling(limit, given, count) ==
      if limit - given <= 5 then (false, count) else if count == 25 then (true, 0) else (false, count + 1)
  {
  }

  lemma {:induction false} IdleCountWraps(ticks: seq<Tick>, n: nat)
    requires n <= |ticks|
    ensures IdleCount(ticks, n) == IdlePasses(ticks, n) % 26
  {
    if n > 0 {
      IdleCountWraps(ticks, n - 1);
      IdlingStep(ticks[n - 1].limit, ticks[n - 1].given, IdleCount(ticks, n - 1));
      CountTo26(IdlePasses(ticks, n - 1));
    }
  }

  /**
    Over any sequence of passes, a pass asks for a recalculation exactly when it leaves more than 5 A
    unassigned and is the 26th, 52nd, ... that does; passes in between that assign all do not matter.
   */
  lemma RecalculatesEvery26th(ticks: seq<Tick>, n: nat)
    requires n < |ticks|
    ensures Idling(ticks[n].limit, ticks[n].given, IdleCount(ticks, n)).0
       <==> ticks[n].limit - ticks[n].given > 5 && IdlePasses(ticks, n + 1) % 26 == 0
  {
    IdleCountWraps(ticks, n);
    IdlingStep(ticks[n].limit, ticks[n].given, IdleCount(ticks, n));
    CountTo26(IdlePasses(ticks, n));
  }

  /** The rows and counters once nobody has to leave any more. */
  function Thinned(p: seq<Charger>, limit: nat, share: nat): (l: Loop)
    requires |p| <= MAX_GROUP_SIZE
    ensures |l.t| == |p|
  {
    if Live(p, |p|, {}) > 0 then Evict(Begin(p, limit), limit) else Loop(p, 0, 0, share, {})
  }

  /** The part of the calculation that follows the counting of the prepared rows. */
  function Settled(p: seq<Charger>, env: Env, share: nat, recalcCount: nat): (r: Pass)
    requires |p| <= MAX_GROUP_SIZE
    ensures |r.t| == |p|
  {
    var limit := Limit(p, env);
    var consumo := Consumo(p);
    var (again, ticks) := Idling(limit, Word(TotalConsigna(p, |p|)), recalcCount);
    var l := Thinned(p, limit, share);
    Pass(l.t, l.conex, l.tri, l.share, l.gone, limit, consumo, Exceeds(p, env, consumo) || again, ticks)
  }

  /** The meter says that the chargers already use more than is left for them. */
  predicate Exceeds(p: seq<Charger>, env: Env, consumo: nat) {
    Live(p, |p|, {}) > 0 && Metered(env) && MeterLimit(env.params, env.meter, consumo) < consumo
  }

  function General(t: seq<Charger>, env: Env, share: nat, recalcCount: nat): (r: Pass)
    requires |t| <= MAX_GROUP_SIZE
    ensures |r.t| == |t|
  {
    Settled(Prepared(t), env, share, recalcCount)
  }

  /** On every table, regular or not, whoever stays started no later than whoever was thrown out. */
  lemma GeneralIsNewestFirst(t: seq<Charger>, env: Env, share: nat, recalcCount: nat, i: nat, j: nat)
    requires |t| <= MAX_GROUP_SIZE && i < |t|
    ensures var g, p := General(t, env, share, recalcCount), Prepared(t);
      j in g.gone && Evictable(g.t[i]) && g.t[i].order > 0 ==> j < |t| && p[i].order <= p[j].order
  {
    var p, limit := Prepared(t), Limit(Prepared(t), env);
    if Live(p, |p|, {}) > 0 { EvictIsNewestFirst(p, Begin(p, limit), limit); }
  }

  // ----- distributing setpoints

  predicate TakesSetpoint(c: Charger) { c.hpt == C2 || c.hpt.letter == 'B' }

  function Setpoint(available: nat, share: nat): (r: nat)
    ensures r <= available && r <= share && r <= CAP
    ensures available >= FLOOR && share >= FLOOR ==> r >= FLOOR
  {
    var least := if available <= share then available else share;
    if least > CAP then CAP else least
  }

  /** A three-phase charger that cannot get 6 A is thrown out here. */
  predicate Starved(c: Charger, available: nat, share: nat) {
    TakesSetpoint(c) && ThreePhase(c) && Setpoint(available, share) < FLOOR
  }

  function Assign(c: Charger, available: nat, share: nat): Charger {
    if !TakesSetpoint(c) then c
    else if Starved(c, available, share) then Evicted(c).(trifasico := true)
    else c.(consigna := Setpoint(available, share))
  }

  /** The share of row i on its main phase; the users of a phase were counted before any eviction. */
  function AvailableTo(counted: seq<Charger>, c: Charger, limits: seq<nat>): nat {
    Available(counted, limits, c.circuito, c.fase)
  }

  function Distribute(t: seq<Charger>, counted: seq<Charger>, limits: seq<nat>, share: nat): (r: seq<Charger>)
    ensures |r| == |t|
    ensures forall i :: 0 <= i < |t| ==> r[i] == Assign(t[i], AvailableTo(counted, t[i], limits), share)
  {
    seq(|t|, i requires 0 <= i < |t| => Assign(t[i], AvailableTo(counted, t[i], limits), share))
  }

  /** The table after a CALCULO pass. */
  function Calculo(t: seq<Charger>, env: Env, share: nat, recalcCount: nat): (r: seq<Charger>)
    requires |t| <= MAX_GROUP_SIZE
    ensures |r| == |t|
  {
    var g := General(t, env, share, recalcCount);
    if g.conex == 0 then g.t else Distribute(g.t, Prepared(t), env.limits, g.share)
  }

  // ----- regular passes

  predicate ValidPilot(c: Charger) { c.hpt.letter == 'B' ==> c.hpt == B1 || c.hpt == B2 }

  /**
    Circuits and phases exist, pilot states are the known ones, flags agree with currents, and the
    loop always finds somebody to throw out (in the exact form of `NoFallbackIff`).
   */
  predicate Regular(t: seq<Charger>, env: Env) {
    && |t| <= MAX_GROUP_SIZE
    && (forall i :: 0 <= i < |t| && Counted(t[i]) ==> Placed(t[i], env.limits))
    && (forall i :: 0 <= i < |t| ==> ValidPilot(t[i]))
    && FlagsMatch(t)
    && var p := Prepared(t);
       Stuck(p, |p|) == 0 || Limit(p, env) >= FLOOR * Stuck(p, |p|)
  }

  lemma GeneralTracks(t: seq<Charger>, env: Env, share: nat, recalcCount: nat)
    requires Regular(t, env)
    ensures var g, p := General(t, env, share, recalcCount), Prepared(t);
      && Tracks(p, Loop(g.t, g.conex, g.tri, g.share, g.gone), g.limit)
      && (g.tri == 0 || g.share >= FLOOR)
  {
    var p := Prepared(t);
    var limit := Limit(p, env);
    assert FlagsMatch(p);
    LiveBounds(p, |p|, {});
    if Live(p, |p|, {}) > 0 {
      var l := Begin(p, limit);
      assert Tracks(p, l, limit);
      NoFallbackIff(p, l, limit);
      EvictTracks(p, l, limit);
    }
  }

  /** Nobody is thrown out that could stay: with the oldest of them back the share would be under 6 A. */
  lemma GeneralIsMinimal(t: seq<Charger>, env: Env, share: nat, recalcCount: nat)
    requires Regular(t, env)
    ensures var g, p := General(t, env, share, recalcCount), Prepared(t);
      && (Live(p, |p|, {}) > 0 && g.limit >= 6 * Live(p, |p|, {}) ==> g.gone == {})
      && (g.gone != {} ==> exists j: nat :: LastOut(p, {}, g.gone, g.limit, j))
      && (g.tri > 0 ==> g.limit >= 6 * Live(p, |p|, g.gone))
  {
    var p := Prepared(t);
    var limit := Limit(p, env);
    GeneralTracks(t, env, share, recalcCount);
    LiveBounds(p, |p|, {});
    if Live(p, |p|, {}) > 0 {
      var l := Begin(p, limit);
      NoFallbackIff(p, l, limit);
      DivAtLeast(limit, l.tri, FLOOR);
      var j := EvictIsMinimal(p, l, limit);
      var g := General(t, env, share, recalcCount);
      if g.tri > 0 { DivAtLeast(limit, g.tri, FLOOR); }
    }
  }

  /** Weighted setpoints of the chargers that were not thrown out. */
  function Committed(t: seq<Charger>, r: seq<Charger>, gone: set<nat>, n: nat): nat
    requires n <= |t| == |r|
  {
    if n == 0 then 0
    else Committed(t, r, gone, n - 1)
         + if n - 1 !in gone && Drawing(r[n - 1]) then Weighted(t[n - 1], r[n - 1].consigna) else 0
  }

  lemma {:induction false} CommittedAtMost(t: seq<Charger>, r: seq<Charger>, gone: set<nat>, n: nat, share: nat)
    requires n <= |t| == |r|
    requires forall i: nat :: i < n && i !in gone && Drawing(r[i]) ==> Counted(t[i]) && r[i].consigna <= share
    ensures Committed(t, r, gone, n) <= share * Live(t, n, gone)
  {
    if n > 0 {
      CommittedAtMost(t, r, gone, n - 1, share);
      var before := Live(t, n - 1, gone);
      assert share * (before + 1) == share * before + share;
      assert share * (before + 3) == share * before + 3 * share;
    }
  }

  lemma {:induction false} CommittedSame(t: seq<Charger>, p: seq<Charger>, r: seq<Charger>, gone: set<nat>, n: nat)
    requires n <= |t| == |r| == |p|
    requires forall i: nat :: i < n && i !in gone && Drawing(r[i]) ==> Weight(t[i]) == Weight(p[i])
    ensures Committed(t, r, gone, n) == Committed(p, r, gone, n)
  {
    if n > 0 { CommittedSame(t, p, r, gone, n - 1); }
  }

  /** Rows of a regular loop: distribution keeps their place, and whoever draws was counted. */
  lemma AssignRow(p: seq<Charger>, l: Loop, limit: nat, i: nat, available: nat)
    requires Tracks(p, l, limit) && i < |p| && ValidPilot(p[i])
    ensures l.t[i].circuito == p[i].circuito && l.t[i].fase == p[i].fase
    ensures i in l.gone ==> l.t[i].consigna == 0
    ensures i in l.gone || Drawing(l.t[i]) ==> Counted(p[i])
    ensures var c := Assign(l.t[i], available, l.share);
      && c.circuito == p[i].circuito && c.fase == p[i].fase
      && (i in l.gone ==> c.hpt == B1 && !c.chargeReq)
      && (Drawing(c) ==> Counted(p[i]) && c.consigna <= l.share && c.consigna <= available)
  {
  }

  /** After a pass, rows keep their place, and a row that draws was counted. */
  lemma CalculoRows(t: seq<Charger>, env: Env, share: nat, recalcCount: nat, i: nat)
    requires Regular(t, env) && i < |t|
    ensures var g, r := General(t, env, share, recalcCount), Calculo(t, env, share, recalcCount);
      && r[i].circuito == t[i].circuito && r[i].fase == t[i].fase
      && (Drawing(r[i]) ==> Counted(t[i]))
      && (i in g.gone ==> r[i].hpt == B1 && !r[i].chargeReq)
      && (Drawing(r[i]) && g.conex == 0 ==> r[i].consigna == 0)
      && (Drawing(r[i]) && g.conex > 0 ==> r[i].consigna <= g.share)
      && (Drawing(r[i]) && g.conex > 0 ==> r[i].consigna <= AvailableTo(Prepared(t), t[i], env.limits))
  {
    GeneralTracks(t, env, share, recalcCount);
    var g, p := General(t, env, share, recalcCount), Prepared(t);
    var l := Loop(g.t, g.conex, g.tri, g.share, g.gone);
    LiveBounds(p, |p|, g.gone);
    AssignRow(p, l, g.limit, i, AvailableTo(p, g.t[i], env.limits));
  }

  predicate Least(x: nat, a: nat, b: nat, c: nat) {
    x <= a && x <= b && x <= c && (x == a || x == b || x == c)
  }

  /**
    A pass hands out all it may: whoever draws and was not thrown out gets the least of 32 A, the
    share of the group and that of its phase, except that a three-phase charger that would get less
    than 6 A gets nothing.
   */
  lemma CalculoIsMaximal(t: seq<Charger>, env: Env, share: nat, recalcCount: nat, i: nat)
    requires Regular(t, env) && i < |t|
    requires var g := General(t, env, share, recalcCount);
      i !in g.gone && g.conex > 0 && Drawing(Calculo(t, env, share, recalcCount)[i])
    ensures var g, c := General(t, env, share, recalcCount), Calculo(t, env, share, recalcCount)[i];
      var phase := AvailableTo(Prepared(t), t[i], env.limits);
      if ThreePhase(t[i]) && (phase < 6 || g.share < 6) then c.consigna == 0
      else Least(c.consigna, 32, g.share, phase)
  {
    GeneralTracks(t, env, share, recalcCount);
    CalculoRows(t, env, share, recalcCount, i);
    var g, p := General(t, env, share, recalcCount), Prepared(t);
    assert g.t[i] == p[i];
    AssignIsLeast(p[i], AvailableTo(p, p[i], env.limits), g.share);
  }

  lemma AssignIsLeast(c: Charger, available: nat, share: nat)
    requires ValidPilot(c) && (TakesSetpoint(c) || Drawing(Assign(c, available, share)))
    ensures var d := Assign(c, available, share);
      if ThreePhase(c) && (available < 6 || share < 6) then d.consigna == 0
      else Least(d.consigna, 32, share, available)
  {
  }

  /** The group never hands out more than the budget, however many chargers it threw out. */
  lemma CalculoWithinBudget(t: seq<Charger>, env: Env, share: nat, recalcCount: nat)
    requires Regular(t, env)
    ensures var g := General(t, env, share, recalcCount);
      Committed(t, Calculo(t, env, share, recalcCount), g.gone, |t|) <= g.limit
  {
    var g, p, r := General(t, env, share, recalcCount), Prepared(t), Calculo(t, env, share, recalcCount);
    GeneralTracks(t, env, share, recalcCount);
    LiveBounds(p, |p|, g.gone);
    forall i: nat | i < |t| ensures Drawing(r[i]) ==> Counted(t[i]) && Weight(t[i]) == Weight(p[i])
                            ensures Drawing(r[i]) && g.conex > 0 ==> r[i].consigna <= g.share
                            ensures Drawing(r[i]) && g.conex == 0 ==> r[i].consigna == 0 {
      CalculoRows(t, env, share, recalcCount, i);
    }
    CommittedSame(t, p, r, g.gone, |t|);
    if g.conex == 0 {
      CommittedAtMost(p, r, g.gone, |t|, 0);
    } else {
      CommittedAtMost(p, r, g.gone, |t|, g.share);
      DivAtLeast(g.limit, g.tri, 0);
    }
  }

  lemma ScaledDown(amps: nat, conectados: nat, n: nat)
    requires conectados <= n
    ensures Scaled(amps, conectados, n) <= amps
  {
    if conectados < n {
      Products(conectados, n, amps);
      if Scaled(amps, conectados, n) > amps {
        Quotients(amps * conectados, n);
        Products(amps + 1, Scaled(amps, conectados, n), n);
      }
    }
  }

  /** Without a meter the budget is the configured power at 230 V. */
  lemma BudgetIsConfiguredPower(t: seq<Charger>, env: Env)
    requires !MeterConfigured(env.params)
    ensures Limit(t, env) * 230 <= env.params.potenciaMax * 100
  {
    var con, n, power := Conectados(t, |t|), |t|, env.params.potenciaMax;
    ScaledDown(power, con, n);
    Quotients(Scaled(power, con, n) * 100, 230);
  }

  /** Whoever was thrown out, by the loop or for want of phase current, is denied by its row. */
  lemma EvictedAreDenied(t: seq<Charger>, env: Env, share: nat, recalcCount: nat, i: nat)
    requires Regular(t, env) && i < |t|
    ensures var g, r := General(t, env, share, recalcCount), Calculo(t, env, share, recalcCount);
      && (i in g.gone ==> !Permits(r[i]))
      && (g.conex > 0 && Starved(g.t[i], AvailableTo(Prepared(t), g.t[i], env.limits), g.share) ==> !Permits(r[i]))
  {
    CalculoRows(t, env, share, recalcCount, i);
  }

  // ----- per phase

  /** Setpoints of the chargers whose main phase this is. */
  function OnPhase(r: seq<Charger>, n: nat, circuit: nat, phase: nat): nat
    requires n <= |r|
  {
    if n == 0 then 0
    else OnPhase(r, n - 1, circuit, phase)
         + if Drawing(r[n - 1]) && r[n - 1].circuito == circuit && r[n - 1].fase == phase then r[n - 1].consigna else 0
  }

  lemma {:induction false} OnPhaseAtMost(p: seq<Charger>, r: seq<Charger>, n: nat, circuit: nat, phase: nat, each: nat)
    requires n <= |p| == |r|
    requires forall i: nat :: i < n && Drawing(r[i]) && r[i].circuito == circuit && r[i].fase == phase ==>
               Uses(p[i], circuit, phase) && r[i].consigna <= each
    ensures OnPhase(r, n, circuit, phase) <= each * PhaseConex(p, n, circuit, phase)
  {
    if n > 0 {
      OnPhaseAtMost(p, r, n - 1, circuit, phase, each);
      assert each * (PhaseConex(p, n - 1, circuit, phase) + 1) == each * PhaseConex(p, n - 1, circuit, phase) + each;
    }
  }

  lemma OnPhaseFits(p: seq<Charger>, r: seq<Charger>, circuit: nat, phase: nat, limit: nat, each: nat)
    requires |p| == |r|
    requires forall i: nat :: i < |p| && Drawing(r[i]) && r[i].circuito == circuit && r[i].fase == phase ==>
               Uses(p[i], circuit, phase) && r[i].consigna <= each
    requires PhaseConex(p, |p|, circuit, phase) > 0 ==> each <= limit / PhaseConex(p, |p|, circuit, phase)
    ensures OnPhase(r, |r|, circuit, phase) <= limit
  {
    var users := PhaseConex(p, |p|, circuit, phase);
    OnPhaseAtMost(p, r, |p|, circuit, phase, each);
    if users > 0 {
      DivAtLeast(limit, users, 0);
      Products(each, limit / users, users);
    }
  }

  /** On every phase of every circuit the setpoints of its chargers fit the circuit. */
  lemma CalculoWithinCircuits(t: seq<Charger>, env: Env, share: nat, recalcCount: nat, circuit: nat, phase: nat)
    requires Regular(t, env) && 1 <= circuit <= |env.limits| && 1 <= phase <= 3
    ensures OnPhase(Calculo(t, env, share, recalcCount), |t|, circuit, phase) <= env.limits[circuit - 1]
  {
    var conex := General(t, env, share, recalcCount).conex;
    var p, r := Prepared(t), Calculo(t, env, share, recalcCount);
    var each := if conex == 0 then 0 else Available(p, env.limits, circuit, phase);
    forall i: nat | i < |t| && Drawing(r[i]) && r[i].circuito == circuit && r[i].fase == phase
      ensures Uses(p[i], circuit, phase) && r[i].consigna <= each {
      CalculoRows(t, env, share, recalcCount, i);
    }
    OnPhaseFits(p, r, circuit, phase, env.limits[circuit - 1], each);
  }
}
