/**
  The records of a charging group: one row per charger, the group parameters and
  the external meter.
 */
module Chargers {

  const MAX_GROUP_SIZE: nat := 40

  /** The two characters of the control pilot state. */
  datatype Pilot = Pilot(letter: char, level: char)

  const A1 := Pilot('A', '1')
  const B1 := Pilot('B', '1')
  const B2 := Pilot('B', '2')
  const C1 := Pilot('C', '1')
  const C2 := Pilot('C', '2')
  const NoVoltage := Pilot('0', 'V')
  const Unknown := Pilot('0', '0')

  datatype Charger = Charger(
    name: string, ip: nat, hpt: Pilot, fase: nat, circuito: nat, order: nat, trifasico: bool,
    consigna: nat, current: nat, currentB: nat, currentC: nat, delta: nat, deltaTimer: nat,
    conected: bool, chargeReq: bool)

  /** `cdp` is the byte that selects the meter, powers are in units of 100 W. */
  datatype Params = Params(cdp: nat, contractPower: nat, potenciaMax: nat)

  datatype Meter = Meter(online: bool, power: int)

  /** Truncation to an unsigned byte. */
  function Byte(x: int): (b: nat)
    ensures b < 256
  {
    x % 256
  }

  /** Truncation to an unsigned 16-bit word. */
  function Word(x: int): (w: nat)
    ensures w < 65536
  {
    x % 65536
  }

  /** Plugged in: these rows are counted by every pass. */
  predicate Counted(c: Charger) {
    c.hpt == C2 || c.hpt == C1 || c.hpt == B2 || c.hpt == B1
  }

  /** The states from which a charger can be thrown out. */
  predicate Evictable(c: Charger) {
    c.hpt == C2 || c.hpt == B2 || c.hpt == C1
  }

  /** The states whose setpoint the group hands out. */
  predicate Drawing(c: Charger) {
    c.hpt == C2 || c.hpt == B1 || c.hpt == B2
  }

  predicate ThreePhase(c: Charger) {
    c.currentB > 250 || c.currentC > 250
  }

  function Weight(c: Charger): (w: nat)
    ensures w == 1 || w == 3
  {
    if ThreePhase(c) then 3 else 1
  }

  function Weighted(c: Charger, amps: nat): nat {
    if ThreePhase(c) then 3 * amps else amps
  }

  /** The answer to a DATA message: permission to charge, computed from the row. */
  predicate Permits(c: Charger) {
    c.consigna > 0 && c.hpt != C1 && !(c.hpt == B1 && !c.chargeReq)
  }

  /** What being thrown out does to a row. */
  function Evicted(c: Charger): Charger {
    c.(consigna := 0, chargeReq := false, hpt := B1, current := 0, delta := 0, deltaTimer := 0,
       currentB := 0, currentC := 0)
  }
}
