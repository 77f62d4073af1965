/** The resting state of the master: when it is left, and that whoever woke the group is served. */
module Resting {
  import opened Chargers
  import opened Eviction
  import opened Allocator
  import opened Control

  predicate Asks(c: Charger) { c.hpt == B1 && c.chargeReq }

  /** The configured power gives 6 A on each phase that the charger is known to use. */
  predicate Enough(c: Charger, power: nat) { 100 * power >= 230 * if c.trifasico then 18 else 6 }

  lemma EnoughIsFits(c: Charger, p: Params)
    ensures RestFits(c, p) <==> Enough(c, p.potenciaMax)
  {
  }

  /** A step that has rested long enough leaves the state exactly if somebody asks who can be given 6 A. */
  lemma LeavesRestIff(s: Group, env: Env)
    requires s.mode.Rest?
    ensures var r := RestStep(s, env, true);
      && (r.mode.Compute? <==> exists i :: 0 <= i < |s.t| && Asks(s.t[i]) && Enough(s.t[i], env.params.potenciaMax))
      && (r.mode.Compute? || r.mode.Rest?)
    ensures RestStep(s, env, false) == s
  {
    var r := RestStep(s, env, true);
    forall i: nat | i < |s.t| ensures RestFits(s.t[i], env.params) <==> Enough(s.t[i], env.params.potenciaMax) {
      EnoughIsFits(s.t[i], env.params);
    }
    if r.mode.Compute? {
      var i :| 0 <= i < |s.t| && Waiting(s.t[i]) && RestFits(s.t[i], env.params);
      assert Asks(s.t[i]) && Enough(s.t[i], env.params.potenciaMax);
    }
    if i :| 0 <= i < |s.t| && Asks(s.t[i]) && Enough(s.t[i], env.params.potenciaMax) {
      assert Waiting(s.t[i]) && RestFits(s.t[i], env.params);
    }
  }

  /** Whoever does not ask loses its setpoint, whoever can be let in is the first, and nothing else changes. */
  lemma RestedRow(s: Group, env: Env, i: nat)
    requires i < |s.t|
    ensures var c, d := s.t[i], RestStep(s, env, true).t[i];
      && (!Asks(c) ==> d == c.(consigna := 0))
      && (Asks(c) ==> d == if Enough(c, env.params.potenciaMax) then c.(order := 1) else c)
  {
    EnoughIsFits(s.t[i], env.params);
  }

  // ----- the charger that woke the group

  /** Row i is the only one plugged in, and everybody is heard. */
  predicate Alone(t: seq<Charger>, i: nat) {
    i < |t| && Counted(t[i]) && forall k :: 0 <= k < |t| ==> t[k].conected && (Counted(t[k]) ==> k == i)
  }

  lemma {:induction false} AloneCounts(t: seq<Charger>, n: nat, i: nat)
    requires n <= |t| && Alone(t, i)
    ensures Live(t, n, {}) == (if i < n then Weight(t[i]) else 0) && LiveCount(t, n, {}) == (if i < n then 1 else 0)
    ensures Conectados(t, n) == n
  {
    if n > 0 { AloneCounts(t, n - 1, i); }
  }

  lemma {:induction false} AloneOnPhase(t: seq<Charger>, n: nat, i: nat, circuit: nat, phase: nat)
    requires n <= |t| && Alone(t, i)
    ensures PhaseConex(t, n, circuit, phase) == if i < n && Uses(t[i], circuit, phase) then 1 else 0
  {
    if n > 0 { AloneOnPhase(t, n - 1, i, circuit, phase); }
  }

  lemma AloneGetsEnough(t: seq<Charger>, env: Env, i: nat)
    requires |t| <= MAX_GROUP_SIZE && Alone(t, i) && !MeterConfigured(env.params)
    requires Enough(t[i], env.params.potenciaMax) && (t[i].trifasico || !ThreePhase(t[i]))
    ensures SixEach(Limit(t, env), Live(t, |t|, {}))
  {
    AloneCounts(t, |t|, i);
    var power := env.params.potenciaMax;
    assert Limit(t, env) == power * 100 / 230;
  }

  lemma AloneOnItsPhase(t: seq<Charger>, limits: seq<nat>, i: nat)
    requires Alone(t, i) && Placed(t[i], limits)
    ensures AvailableTo(t, t[i], limits) == limits[t[i].circuito - 1]
  {
    AloneOnPhase(t, |t|, i, t[i].circuito, t[i].fase);
  }

  lemma StaysAlone(s: Group, env: Env, i: nat)
    requires Alone(s.t, i) && Asks(s.t[i])
    ensures var q := Prepared(RestStep(s, env, true).t);
      Alone(q, i) && SameRow(s.t[i].(trifasico := q[i].trifasico), q[i]) && q[i].chargeReq
      && q[i].trifasico == (s.t[i].trifasico || ThreePhase(s.t[i]))
  {
    forall k: nat | k < |s.t|
      ensures Counted(RestRow(s.t[k], env.params)) == Counted(s.t[k])
      ensures RestRow(s.t[k], env.params).conected == s.t[k].conected
    {
    }
  }

  lemma AssignServes(c: Charger, available: nat, share: nat)
    requires Asks(c) && available >= 6 && share >= 6
    ensures var d := Assign(c, available, share); 6 <= d.consigna <= 32 && Permits(d)
  {
  }

  /**
    When the only charger plugged in asks, everybody is heard, there is no meter, and its circuit gives
    6 A, then the resting step and the computing step after it give that charger 6 to 32 A and
    permission.
   */
  lemma RestedChargerIsServed(s: Group, env: Env, i: nat)
    requires |s.t| <= MAX_GROUP_SIZE && s.mode.Rest? && !MeterConfigured(env.params)
    requires Alone(s.t, i) && Asks(s.t[i]) && Enough(s.t[i], env.params.potenciaMax)
    requires s.t[i].trifasico || !ThreePhase(s.t[i])
    requires Placed(s.t[i], env.limits) && env.limits[s.t[i].circuito - 1] >= 6
    ensures var r := RestStep(s, env, true);
      var final := ComputeStep(r, env);
      && r.mode.Compute? && final.mode.Balance?
      && 6 <= final.t[i].consigna <= 32 && Permits(final.t[i])
  {
    LeavesRestIff(s, env);
    StaysAlone(s, env, i);
    var r := RestStep(s, env, true);
    var q := Prepared(r.t);
    AloneGetsEnough(q, env, i);
    AloneCounts(q, |q|, i);
    EnoughForAll(r.t, env, r.share, r.recalcCount);
    AloneOnItsPhase(q, env.limits, i);
    ServedAlone(r, env, i);
  }

  lemma ServedAlone(r: Group, env: Env, i: nat)
    requires |r.t| <= MAX_GROUP_SIZE && i < |r.t| && r.mode.Compute? && Asks(Prepared(r.t)[i])
    requires Roomy(General(r.t, env, r.share, r.recalcCount), Prepared(r.t))
    requires AvailableTo(Prepared(r.t), Prepared(r.t)[i], env.limits) >= 6
    ensures var final := ComputeStep(r, env);
      final.mode.Balance? && 6 <= final.t[i].consigna <= 32 && Permits(final.t[i])
  {
    var g, q := General(r.t, env, r.share, r.recalcCount), Prepared(r.t);
    var available := AvailableTo(q, q[i], env.limits);
    AssignServes(q[i], available, g.share);
    assert ComputeStep(r, env).t[i] == Assign(q[i], available, g.share);
  }

  /** Such a group exists. */
  lemma RestedChargerHappens() returns (s: Group, env: Env)
    ensures |s.t| == 1 && s.mode.Rest? && !MeterConfigured(env.params)
    ensures Alone(s.t, 0) && Asks(s.t[0]) && Enough(s.t[0], env.params.potenciaMax) && !ThreePhase(s.t[0])
    ensures Placed(s.t[0], env.limits) && env.limits[s.t[0].circuito - 1] >= 6
  {
    var c := Charger("CHARGER1", 1, B1, 1, 1, 0, false, 0, 0, 0, 0, 0, 0, true, true);
    s, env := Group([c], Rest, 0, 0, 0, false), Env(Params(0, 0, 100), Meter(false, 0), [32]);
  }
}
