/**
  What the budget of the group is worth in watts: the configured power, the contracted power, or
  what an external meter leaves of it.
 */
module Budget {
  import opened Chargers
  import opened Eviction
  import opened Allocator

  predicate AllHeard(t: seq<Charger>) { Conectados(t, |t|) == |t| }

  /** The whole amperes that a power gives at 230 V, power in hundreds of watts. */
  predicate Worth(amps: nat, power: nat) { 230 * amps <= 100 * power < 230 * (amps + 1) }

  lemma AtVoltage(power: nat)
    ensures Worth(power * 100 / 230, power)
  {
  }

  /** Without meter, and with everybody heard, the budget is the configured power to the ampere. */
  lemma UnmeteredBudget(t: seq<Charger>, env: Env)
    requires !MeterConfigured(env.params) && AllHeard(t)
    ensures Worth(Limit(t, env), env.params.potenciaMax)
  {
    AtVoltage(env.params.potenciaMax);
  }

  /** While a configured meter is offline it is the contracted power. */
  lemma OfflineBudget(t: seq<Charger>, env: Env)
    requires MeterConfigured(env.params) && !env.meter.online && AllHeard(t)
    ensures Worth(Limit(t, env), env.params.contractPower)
  {
    AtVoltage(env.params.contractPower);
  }

  /** While some chargers are silent, only the part of the power that belongs to the others. */
  lemma SilentBudget(t: seq<Charger>, env: Env) returns (power: nat)
    requires !Metered(env) && !AllHeard(t)
    ensures var all := if MeterConfigured(env.params) then env.params.contractPower else env.params.potenciaMax;
      power * |t| <= all * Conectados(t, |t|) < (power + 1) * |t|
    ensures Worth(Limit(t, env), power)
  {
    var all := if MeterConfigured(env.params) then env.params.contractPower else env.params.potenciaMax;
    power := Scaled(all, Conectados(t, |t|), |t|);
    Quotients(all * Conectados(t, |t|), |t|);
    AtVoltage(power);
  }

  // ----- with a meter

  /** The meter counts the house without the chargers. */
  predicate Household(p: Params) { p.cdp / 4 % 4 == 1 }

  /** The meter counts the house and the chargers. */
  predicate Total(p: Params) { p.cdp / 4 % 4 == 2 }

  /** What the house alone uses, in watts. */
  function House(t: seq<Charger>, env: Env): int {
    if Total(env.params) then env.meter.power - 230 * Consumo(t) else env.meter.power
  }

  /** The chargers' consumption is known to the ampere while it fits a byte. */
  lemma ConsumoMeans(t: seq<Charger>)
    requires TotalCurrent(t, |t|) < 25600
    ensures 100 * Consumo(t) <= TotalCurrent(t, |t|) < 100 * (Consumo(t) + 1)
  {
  }

  predicate MetersGroup(t: seq<Charger>, env: Env) {
    Metered(env) && Live(t, |t|, {}) > 0 && (Household(env.params) || Total(env.params))
  }

  /** The readings are small enough for the 16-bit budget. */
  predicate NoWrap(t: seq<Charger>, env: Env) {
    100 * env.params.contractPower - House(t, env) < 230 * 65535
  }

  lemma HouseholdLimit(p: Params, meter: Meter, consumo: nat)
    requires Household(p)
    ensures 100 * p.contractPower <= meter.power ==> MeterLimit(p, meter, consumo) == 0
    ensures 0 < 100 * p.contractPower - meter.power < 230 * 65535 ==>
      230 * MeterLimit(p, meter, consumo) + meter.power <= 100 * p.contractPower
        < 230 * (MeterLimit(p, meter, consumo) + 1) + meter.power
  {
    var left := 100 * p.contractPower - meter.power;
    if 0 < left < 230 * 65535 { Small(left / 230); }
  }

  lemma Small(x: nat)
    requires x < 65536
    ensures Word(x) == x
  {
  }

  lemma Truncated(power: int)
    ensures power >= 0 ==> 230 * Quotient(power, 230) <= power < 230 * (Quotient(power, 230) + 1)
    ensures power < 0 ==> 230 * (Quotient(power, 230) - 1) < power <= 230 * Quotient(power, 230) <= 0
  {
  }

  lemma TotalLimit(p: Params, meter: Meter, consumo: nat)
    requires Total(p)
    ensures var house := meter.power - 230 * consumo;
      && (100 * p.contractPower <= house ==> MeterLimit(p, meter, consumo) == 0)
      && (0 < 100 * p.contractPower - house < 230 * 65535 ==>
            var over := house + 230 * MeterLimit(p, meter, consumo) - 100 * p.contractPower;
            over < 230 && over > if meter.power >= 0 then -230 else -460)
  {
    var house := meter.power - 230 * consumo;
    if 0 < 100 * p.contractPower - house < 230 * 65535 {
      Truncated(meter.power);
      Small(100 * p.contractPower / 230 + consumo - Quotient(meter.power, 230));
    }
  }

  /** Within an ampere, two while the house feeds power in, house and budget are the contracted power. */
  lemma MeteredBudget(t: seq<Charger>, env: Env)
    requires MetersGroup(t, env) && AllHeard(t) && NoWrap(t, env)
    ensures 100 * env.params.contractPower <= House(t, env) ==> Limit(t, env) == 0
    ensures 100 * env.params.contractPower > House(t, env) ==>
      var over := House(t, env) + 230 * Limit(t, env) - 100 * env.params.contractPower;
      over < 230 && over > if env.meter.power >= 0 then -230 else -460
    ensures 100 * env.params.contractPower > House(t, env) && Household(env.params) ==>
      House(t, env) + 230 * Limit(t, env) <= 100 * env.params.contractPower
  {
    if Household(env.params) {
      HouseholdLimit(env.params, env.meter, Consumo(t));
    } else {
      TotalLimit(env.params, env.meter, Consumo(t));
    }
  }

  /** In the two other settings of the meter the group gets nothing. */
  lemma UnknownMeter(t: seq<Charger>, env: Env)
    requires Metered(env) && Live(t, |t|, {}) > 0 && !Household(env.params) && !Total(env.params)
    ensures Limit(t, env) == 0
  {
    ScaledDown(0, Conectados(t, |t|), |t|);
  }

  /** With a meter that counts the house alone, the group is over its budget if it overdraws the contract. */
  lemma OverdrawnIff(t: seq<Charger>, env: Env)
    requires MetersGroup(t, env) && Household(env.params) && 0 < 100 * env.params.contractPower - House(t, env)
    requires NoWrap(t, env)
    ensures Exceeds(t, env, Consumo(t)) <==>
      House(t, env) + 230 * (Consumo(t)) > 100 * env.params.contractPower
  {
    HouseholdLimit(env.params, env.meter, Consumo(t));
  }

  /** With one that counts both it is so at the latest when a whole ampere is overdrawn. */
  lemma OverdrawnTotal(t: seq<Charger>, env: Env)
    requires MetersGroup(t, env) && Total(env.params) && 0 < 100 * env.params.contractPower - House(t, env)
    requires NoWrap(t, env)
    ensures Exceeds(t, env, Consumo(t)) ==> env.meter.power > 100 * env.params.contractPower
    ensures env.meter.power >= 100 * env.params.contractPower + 230 ==> Exceeds(t, env, Consumo(t))
  {
    Truncated(env.meter.power);
    Small(100 * env.params.contractPower / 230 + Consumo(t) - Quotient(env.meter.power, 230));
  }

  lemma MeteredAtMost(t: seq<Charger>, env: Env)
    requires Metered(env) && Live(t, |t|, {}) > 0
    ensures Limit(t, env) <= MeterLimit(env.params, env.meter, Consumo(t))
  {
    ScaledDown(MeterLimit(env.params, env.meter, Consumo(t)), Conectados(t, |t|), |t|);
  }

  /**
    The group keeps the contract: what the house uses and what the chargers are given stay within the
    contracted power if the meter counts the house alone, and exceed it by less than one ampere if it
    counts both; if the house alone exceeds it nobody is given anything.
   */
  lemma ContractKept(t: seq<Charger>, env: Env, share: nat, recalcCount: nat)
    requires Regular(t, env) && MetersGroup(Prepared(t), env) && NoWrap(Prepared(t), env)
    ensures var after, gone := Calculo(t, env, share, recalcCount), General(t, env, share, recalcCount).gone;
      var given := Committed(t, after, gone, |t|);
      var house, contract := House(Prepared(t), env), 100 * env.params.contractPower;
      && (contract <= house ==> given == 0)
      && (contract > house && Household(env.params) ==> house + 230 * given <= contract)
      && (contract > house ==> house + 230 * given < contract + 230)
  {
    var p := Prepared(t);
    CalculoWithinBudget(t, env, share, recalcCount);
    MeteredAtMost(p, env);
    HouseOrTotal(p, env);
  }

  lemma HouseOrTotal(p: seq<Charger>, env: Env)
    requires MetersGroup(p, env) && NoWrap(p, env)
    ensures var limit := MeterLimit(env.params, env.meter, Consumo(p));
      var house, contract := House(p, env), 100 * env.params.contractPower;
      && (contract <= house ==> limit == 0)
      && (contract > house && Household(env.params) ==> house + 230 * limit <= contract)
      && (contract > house ==> house + 230 * limit < contract + 230)
  {
    if Household(env.params) {
      HouseholdLimit(env.params, env.meter, Consumo(p));
    } else {
      TotalLimit(env.params, env.meter, Consumo(p));
    }
  }

  // ----- a meter that counts both is an ampere short of exact

  /** What the three divisions by 230 lose: the budget keeps the contract exactly if this is not negative. */
  lemma TotalExactly(p: Params, meter: Meter, consumo: nat)
    requires Total(p)
    requires 0 < 100 * p.contractPower - (meter.power - 230 * consumo) < 230 * 65535
    ensures var house := meter.power - 230 * consumo;
      house + 230 * MeterLimit(p, meter, consumo) - 100 * p.contractPower
        == (if meter.power >= 0 then meter.power % 230 else -(-meter.power % 230)) - 100 * p.contractPower % 230
  {
    Truncated(meter.power);
    Small(100 * p.contractPower / 230 + consumo - Quotient(meter.power, 230));
  }

  /** House and budget stay within the contract exactly if power is fed in or the reading's remainder is no greater. */
  lemma TotalKeepsIff(t: seq<Charger>, env: Env)
    requires MetersGroup(t, env) && Total(env.params) && AllHeard(t) && NoWrap(t, env)
    requires House(t, env) < 100 * env.params.contractPower
    ensures House(t, env) + 230 * Limit(t, env) <= 100 * env.params.contractPower
      <==> env.meter.power < 0 || env.meter.power % 230 <= 100 * env.params.contractPower % 230
  {
    TotalExactly(env.params, env.meter, Consumo(t));
  }

  lemma OneCharger(c: Charger)
    requires Counted(c) && c.conected && !ThreePhase(c) && c.current == 0
    ensures Live([c], 1, {}) == 1 && LiveCount([c], 1, {}) == 1 && Conectados([c], 1) == 1 && Consumo([c]) == 0
    ensures PhaseConex([c], 1, c.circuito, c.fase) == 1
  {
    assert Live([c], 0, {}) == 0 && LiveCount([c], 0, {}) == 0 && Conectados([c], 0) == 0;
    assert TotalCurrent([c], 0) == 0 && PhaseConex([c], 0, c.circuito, c.fase) == 0;
  }

  lemma StaysAlone(c: Charger, env: Env)
    requires c.hpt == C2 && c.order == 1 && c.conected && c.current == 0 && !ThreePhase(c) && !c.trifasico
    requires Placed(c, env.limits) && Limit([c], env) >= 6
    ensures Regular([c], env) && Prepared([c]) == [c]
    ensures var g := General([c], env, 0, 0); g.t == [c] && g.gone == {} && g.conex == 1 && g.share == Limit([c], env)
  {
    OneCharger(c);
    assert Prepare(c) == c && Prepared([c]) == [c];
    assert Stuck([c], 0) == 0 && Stuck([c], 1) == 0;
    DivAtLeast(Limit([c], env), 1, 6);
  }

  /** One charger that has not begun to draw, 2300 W contracted and 229 W in the house: it gets 10 A. */
  lemma ContractExceeded() returns (t: seq<Charger>, env: Env)
    ensures Regular(t, env) && MetersGroup(Prepared(t), env) && NoWrap(Prepared(t), env) && Total(env.params)
    ensures var given := Committed(t, Calculo(t, env, 0, 0), General(t, env, 0, 0).gone, |t|);
      House(Prepared(t), env) + 230 * given == 100 * env.params.contractPower + 229
  {
    var c := Charger("CHARGER1", 1, C2, 1, 1, 1, false, 0, 0, 0, 0, 0, 0, true, false);
    t, env := [c], Env(Params(24, 23, 0), Meter(true, 229), [32]);
    OneCharger(c);
    assert Limit(t, env) == 10;
    StaysAlone(c, env);
    var r := Calculo(t, env, 0, 0);
    assert r[0].consigna == 10 && r[0].hpt == C2;
    assert Committed(t, r, {}, 0) == 0;
  }
}
