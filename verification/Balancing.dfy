/** What a balancing step decides: where the machine goes, who comes in, and who leaves current unused. */
module Balancing {
  import opened Chargers
  import opened Eviction
  import opened Allocator
  import opened Control

  // ----- where the machine goes

  /** The measured current and the setpoints of a phase are within the limit of its circuit. */
  predicate Within(t: seq<Charger>, limits: seq<nat>, circuit: nat, phase: nat)
    requires 1 <= circuit <= |limits|
  {
    && PhaseCurrent(t, |t|, circuit, phase) / 100 <= limits[circuit - 1]
    && PhaseConsigna(t, |t|, circuit, phase) <= limits[circuit - 1]
  }

  predicate PhasesWithin(t: seq<Charger>, limits: seq<nat>) {
    forall circuit, phase :: 1 <= circuit <= |limits| && 1 <= phase <= 3 ==> Within(t, limits, circuit, phase)
  }

  lemma WithinIsNotOver(t: seq<Charger>, limits: seq<nat>)
    ensures PhasesWithin(t, limits) <==> !Overloaded(t, limits)
  {
    if Overloaded(t, limits) {
      var circuit :| 1 <= circuit <= |limits| && CircuitOver(t, limits, circuit);
      var phase :| 1 <= phase <= 3 && PhaseOver(t, limits, circuit, phase);
      assert !Within(t, limits, circuit, phase);
    } else {
      forall circuit, phase | 1 <= circuit <= |limits| && 1 <= phase <= 3 ensures Within(t, limits, circuit, phase) {
        assert !CircuitOver(t, limits, circuit);
        assert !PhaseOver(t, limits, circuit, phase);
      }
    }
  }

  /** Nothing has changed since the last step, and group and phases are within their limits. */
  predicate Undisturbed(s: Group, env: Env, g: Pass) {
    && !g.recalc && !s.newData && g.conex == s.lastConex && g.conex > 0
    && g.consumo <= g.limit && PhasesWithin(Prepared(s.t), env.limits)
  }

  /** It leaves more than 2 A of its setpoint unused, and has done so for more than ten seconds. */
  predicate Wasteful(c: Charger, elapsed: nat) {
    && c.hpt in {C2, B2, C1} && c.consigna > c.current / 100 + 2
    && (c.deltaTimer + elapsed) % 65536 > 10000
  }

  lemma TimesOutIff(c: Charger, elapsed: nat)
    requires c.consigna <= 32
    ensures SpareTimedOut(c, elapsed) <==> Wasteful(c, elapsed)
  {
  }

  predicate SomebodyFits(s: Group, env: Env, g: Pass) {
    exists k :: 0 <= k < |g.t| && g.t[k].chargeReq && Fits(g.t[k], Prepared(s.t), env.limits, g.limit, g.tri)
  }

  /** A charger that does not ask wastes its setpoint; those that asked in vain have lost theirs. */
  predicate SomebodyWastes(g: Pass, elapsed: nat) {
    g.conex > 1 && exists k :: 0 <= k < |g.t| && !g.t[k].chargeReq && Wasteful(g.t[k], elapsed)
  }

  /**
    A balancing step goes to rest exactly if nothing forces a calculation and nobody is plugged in any
    more; it stays exactly if it is not disturbed, nobody who asks fits and nobody wastes current;
    in all other cases the setpoints are computed anew.
   */
  lemma BalanceModes(s: Group, env: Env, elapsed: nat)
    requires |s.t| <= MAX_GROUP_SIZE && s.mode.Balance?
    requires var g := General(s.t, env, s.share, s.recalcCount); forall c :: c in g.t ==> c.consigna <= 32
    ensures var g, r := General(s.t, env, s.share, s.recalcCount), BalanceStep(s, env, elapsed);
      && (r.mode.Rest? <==> !g.recalc && !s.newData && g.conex == 0)
      && (r.mode.Balance? <==> Undisturbed(s, env, g) && !SomebodyFits(s, env, g) && !SomebodyWastes(g, elapsed))
  {
    ModesOfPass(s, General(s.t, env, s.share, s.recalcCount), env, elapsed);
  }

  lemma ModesOfPass(s: Group, g: Pass, env: Env, elapsed: nat)
    requires s.mode.Balance? && forall c :: c in g.t ==> c.consigna <= 32
    ensures var r := Balanced(s, g, env, elapsed);
      && (r.mode.Rest? <==> !g.recalc && !s.newData && g.conex == 0)
      && (r.mode.Balance? <==> Undisturbed(s, env, g) && !SomebodyFits(s, env, g) && !SomebodyWastes(g, elapsed))
  {
    WithinIsNotOver(Prepared(s.t), env.limits);
    if Undisturbed(s, env, g) {
      var first := FirstFit(g.t, 0, Prepared(s.t), env.limits, g.limit, g.tri);
      if first == |g.t| { ServesNobody(g, elapsed); }
    }
  }

  /** When nobody is let in, the setpoints are computed anew exactly for a charger that wastes current. */
  lemma ServesNobody(g: Pass, elapsed: nat)
    requires forall c :: c in g.t ==> c.consigna <= 32
    ensures Served(g.t, |g.t|, g.conex, elapsed).1 <==> SomebodyWastes(g, elapsed)
  {
    var u := AdmitStep(g.t, |g.t|);
    forall k: nat | k < |g.t| ensures SpareTimedOut(u[k], elapsed) <==> !g.t[k].chargeReq && Wasteful(g.t[k], elapsed) {
      assert g.t[k] in g.t;
      TimesOutIff(u[k], elapsed);
    }
  }

  /** A balancing step uses up the mark of new data, and otherwise notes how many chargers it saw. */
  lemma BalanceNotes(s: Group, env: Env, elapsed: nat)
    requires |s.t| <= MAX_GROUP_SIZE
    ensures var g, r := General(s.t, env, s.share, s.recalcCount), BalanceStep(s, env, elapsed);
      && !r.newData && r.share == g.share && r.recalcCount == g.recalcCount
      && r.lastConex == if g.recalc || s.newData then s.lastConex else g.conex
  {
  }

  /** A computing step goes on to balancing exactly if somebody is left plugged in. */
  lemma ComputeModes(s: Group, env: Env)
    requires |s.t| <= MAX_GROUP_SIZE
    ensures var g, r := General(s.t, env, s.share, s.recalcCount), ComputeStep(s, env);
      && r.mode == (if g.conex > 0 then Balance else Rest)
      && r.newData == s.newData && r.lastConex == s.lastConex && r.share == g.share
  {
  }

  // ----- who comes in

  /** One more user of the phase would leave more than 6 A to each. */
  predicate PhaseHasSeven(counted: seq<Charger>, limits: seq<nat>, circuit: nat, phase: nat)
    requires 1 <= circuit <= |limits|
  {
    limits[circuit - 1] >= 7 * (PhaseConex(counted, |counted|, circuit, phase) + 1)
  }

  lemma PhaseAdmitsIff(counted: seq<Charger>, limits: seq<nat>, circuit: nat, phase: nat)
    requires 1 <= circuit <= |limits|
    ensures PhaseAdmits(counted, limits, circuit, phase) <==> PhaseHasSeven(counted, limits, circuit, phase)
  {
    DivAtLeast(limits[circuit - 1], PhaseConex(counted, |counted|, circuit, phase) + 1, 7);
  }

  /** The test for admission in whole numbers: 6 A for everybody, more than 6 A on every phase it uses. */
  lemma FitsMeans(c: Charger, counted: seq<Charger>, limits: seq<nat>, limit: nat, tri: nat)
    requires 1 <= c.circuito <= |limits|
    ensures c.trifasico ==>
      (Fits(c, counted, limits, limit, tri) <==>
         && limit >= 6 * (tri + 3)
         && forall phase :: 1 <= phase <= 3 ==> PhaseHasSeven(counted, limits, c.circuito, phase))
    ensures !c.trifasico ==>
      (Fits(c, counted, limits, limit, tri) <==>
         limit >= 6 * (tri + 1) && PhaseHasSeven(counted, limits, c.circuito, c.fase))
  {
    DivAtLeast(limit, tri + 3, 6);
    DivAtLeast(limit, tri + 1, 6);
    PhaseAdmitsIff(counted, limits, c.circuito, 1);
    PhaseAdmitsIff(counted, limits, c.circuito, 2);
    PhaseAdmitsIff(counted, limits, c.circuito, 3);
    PhaseAdmitsIff(counted, limits, c.circuito, c.fase);
  }

  lemma {:induction false} LastOrderMeans(t: seq<Charger>, n: nat)
    requires n <= |t|
    ensures forall k :: 0 <= k < n && t[k].hpt in {C2, B2} ==> t[k].order <= LastOrder(t, n)
    ensures LastOrder(t, n) > 0 ==> exists k :: 0 <= k < n && t[k].hpt in {C2, B2} && t[k].order == LastOrder(t, n)
  {
    if n > 0 { LastOrderMeans(t, n - 1); }
  }

  /** Whoever comes in is in C2, newer than all that were charging, and the only one to change. */
  lemma AdmittedIsNewest(t: seq<Charger>, i: nat)
    requires i < |t| && forall c :: c in t ==> c.order < 255
    ensures var r := Admitted(t, i);
      && r[i] == t[i].(hpt := C2, order := r[i].order)
      && (forall k :: 0 <= k < |t| && k != i ==> r[k] == t[k])
      && (forall k :: 0 <= k < |t| && k != i && r[k].hpt in {C2, B2} ==> r[k].order < r[i].order)
      && (r[i].order == 1 || exists c :: c in t && c.order + 1 == r[i].order)
  {
    var u := t[i := t[i].(hpt := C2)];
    LastOrderMeans(u, |u|);
    if LastOrder(u, |u|) > 0 {
      var k :| 0 <= k < |u| && u[k].hpt in {C2, B2} && u[k].order == LastOrder(u, |u|);
      assert t[k] in t && t[k].order == u[k].order;
    }
  }

  // ----- who leaves current unused

  function Sum(es: seq<nat>): nat { if es == [] then 0 else Sum(es[..|es| - 1]) + es[|es| - 1] }

  /** A row after balancing steps that far apart. */
  function Watched(c: Charger, es: seq<nat>): Charger {
    if es == [] then c else SpareRow(Watched(c, es[..|es| - 1]), es[|es| - 1])
  }

  predicate Wastes(c: Charger) { c.hpt in {C2, B2, C1} && c.consigna <= 32 && c.consigna > c.current / 100 + 2 }

  lemma OneStepOfWaste(c: Charger, so: nat, e: nat)
    requires Wastes(c) && so <= 10000 && e < 50000
    ensures var d := c.(deltaTimer := so);
      && (SpareTimedOut(d, e) <==> so + e > 10000)
      && SpareRow(d, e) == if so + e > 10000 then c.(delta := c.consigna - c.current / 100, deltaTimer := 0)
                           else c.(deltaTimer := so + e)
  {
  }

  lemma {:induction false} WatchedWhileWasting(c: Charger, es: seq<nat>)
    requires Wastes(c) && c.deltaTimer == 0 && Sum(es) <= 10000
    ensures Watched(c, es) == c.(deltaTimer := Sum(es))
  {
    if es != [] {
      WatchedWhileWasting(c, es[..|es| - 1]);
      OneStepOfWaste(c, Sum(es[..|es| - 1]), es[|es| - 1]);
    }
  }

  /**
    A charger that goes on wasting current is noticed at the first step more than ten seconds after it
    began, however far apart the steps are; its unused current is noted and the time starts again.
   */
  lemma NoticedAfterTenSeconds(c: Charger, es: seq<nat>, e: nat)
    requires Wastes(c) && c.deltaTimer == 0 && Sum(es) <= 10000 && e < 50000
    ensures SpareTimedOut(Watched(c, es), e) <==> Sum(es) + e > 10000
    ensures Sum(es) + e > 10000 ==>
      SpareRow(Watched(c, es), e) == c.(delta := c.consigna - c.current / 100, deltaTimer := 0)
  {
    WatchedWhileWasting(c, es);
    OneStepOfWaste(c, Sum(es), e);
  }

  /** One that stops wasting it starts anew. */
  lemma NotWasting(c: Charger, elapsed: nat)
    requires c.hpt in {C2, B2, C1} && c.consigna <= c.current / 100 + 2
    ensures SpareRow(c, elapsed) == c.(delta := 0, deltaTimer := 0) && !SpareTimedOut(c, elapsed)
  {
  }
}
