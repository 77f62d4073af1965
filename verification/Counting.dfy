/** What the counting loop makes of a row, and how its currents lie on the phases of its circuit. */
module Counting {
  import opened Chargers
  import opened Eviction
  import opened Allocator

  predicate Plugged(c: Charger) { c.hpt in {B1, B2, C1, C2} }

  /** More than 2.5 A on a side phase. */
  predicate ThreePhases(c: Charger) { c.currentB > 250 || c.currentC > 250 }

  /** The same charger at the same place, with the flags of its messages. */
  predicate SameCharger(c: Charger, d: Charger) {
    && c.name == d.name && c.ip == d.ip && c.hpt == d.hpt && c.fase == d.fase && c.circuito == d.circuito
    && c.conected == d.conected && c.chargeReq == d.chargeReq
  }

  /**
    A plugged-in charger is flagged once it shows current on a side phase, and keeps the flag and all
    else; one that is unplugged or without voltage starts anew; others are not touched.
   */
  lemma PreparedRow(c: Charger)
    ensures SameCharger(c, Prepare(c))
    ensures Plugged(c) ==> Prepare(c) == c.(trifasico := c.trifasico || ThreePhases(c))
    ensures c.hpt in {A1, NoVoltage} ==>
      var d := Prepare(c);
      && d.consigna == d.order == d.current == d.currentB == d.currentC == d.delta == d.deltaTimer == 0
      && !d.trifasico
    ensures !Plugged(c) && c.hpt !in {A1, NoVoltage} ==> Prepare(c) == c
  {
  }

  /** A charger that was thrown out still counts, with weight 1, and puts nothing on any phase. */
  lemma EvictedRow(c: Charger, circuit: nat, phase: nat)
    ensures var e := Evicted(c);
      && Plugged(e) && Weight(e) == 1 && !ThreePhases(e)
      && (Uses(e, circuit, phase) ==> circuit == c.circuito && phase == c.fase && Drawn(e, phase) == 0)
      && e.consigna == 0 && !e.chargeReq && !Evictable(e)
      && e == c.(hpt := B1, consigna := 0, chargeReq := false, current := 0, currentB := 0, currentC := 0,
                 delta := 0, deltaTimer := 0)
  {
  }

  /** A three-phase charger weighs three times a single-phase one. */
  lemma Weighs(c: Charger, amps: nat)
    ensures Weight(c) == (if ThreePhases(c) then 3 else 1) && Weighted(c, amps) == Weight(c) * amps
  {
  }

  // ----- phases

  /** The k-th phase of a charger, going round from its main one. */
  function NthPhase(fase: nat, k: nat): nat
    requires fase >= 1
  {
    (fase - 1 + k) % 3 + 1
  }

  lemma NextPhases(fase: nat)
    requires 1 <= fase <= 3
    ensures NthPhase(fase, 1) == Following(fase) && NthPhase(fase, 2) == Following(Following(fase))
    ensures NthPhase(fase, 1) != fase && NthPhase(fase, 2) != fase && NthPhase(fase, 1) != NthPhase(fase, 2)
  {
    match fase
    case 1 =>
    case 2 =>
    case _ =>
  }

  /** Its first current lies on its main phase; its side currents, if they count, on the next two. */
  lemma CurrentsOnPhases(c: Charger)
    requires Plugged(c) && 1 <= c.fase <= 3
    ensures Uses(c, c.circuito, c.fase) && Drawn(c, c.fase) == c.current
    ensures var b := NthPhase(c.fase, 1);
      (Uses(c, c.circuito, b) <==> ThreePhases(c) && c.currentB > 0) && Drawn(c, b) == c.currentB
    ensures var d := NthPhase(c.fase, 2);
      (Uses(c, c.circuito, d) <==> ThreePhases(c) && c.currentC > 0) && Drawn(c, d) == c.currentC
  {
    NextPhases(c.fase);
  }

  lemma OnlyOwnCircuit(c: Charger, circuit: nat, phase: nat)
    requires Uses(c, circuit, phase)
    ensures Plugged(c) && circuit == c.circuito
  {
  }

  /** All that a plugged-in charger draws. */
  function AllCurrents(c: Charger): nat { c.current + if ThreePhases(c) then c.currentB + c.currentC else 0 }

  function CircuitCurrent(t: seq<Charger>, n: nat, circuit: nat): nat
    requires n <= |t|
  {
    if n == 0 then 0
    else CircuitCurrent(t, n - 1, circuit)
         + if Plugged(t[n - 1]) && t[n - 1].circuito == circuit then AllCurrents(t[n - 1]) else 0
  }

  predicate OnThreePhases(t: seq<Charger>) { forall c :: c in t && Plugged(c) ==> 1 <= c.fase <= 3 }

  lemma RowAddsUp(c: Charger, circuit: nat)
    requires Plugged(c) ==> 1 <= c.fase <= 3
    ensures (if Uses(c, circuit, 1) then Drawn(c, 1) else 0) + (if Uses(c, circuit, 2) then Drawn(c, 2) else 0)
          + (if Uses(c, circuit, 3) then Drawn(c, 3) else 0)
         == if Plugged(c) && c.circuito == circuit then AllCurrents(c) else 0
  {
  }

  /** No current is lost or counted twice: the phases of a circuit carry what its chargers draw. */
  lemma {:induction false} PhasesAddUp(t: seq<Charger>, n: nat, circuit: nat)
    requires n <= |t| && OnThreePhases(t)
    ensures PhaseCurrent(t, n, circuit, 1) + PhaseCurrent(t, n, circuit, 2) + PhaseCurrent(t, n, circuit, 3)
         == CircuitCurrent(t, n, circuit)
  {
    if n > 0 {
      PhasesAddUp(t, n - 1, circuit);
      assert t[n - 1] in t;
      RowAddsUp(t[n - 1], circuit);
    }
  }

  function CircuitsCurrent(t: seq<Charger>, n: nat, circuits: nat): nat
    requires n <= |t|
  {
    if circuits == 0 then 0 else CircuitsCurrent(t, n, circuits - 1) + CircuitCurrent(t, n, circuits)
  }

  lemma {:induction false} OneRowMore(t: seq<Charger>, n: nat, circuits: nat)
    requires 0 < n <= |t|
    ensures CircuitsCurrent(t, n, circuits) == CircuitsCurrent(t, n - 1, circuits)
      + if Plugged(t[n - 1]) && 1 <= t[n - 1].circuito <= circuits then AllCurrents(t[n - 1]) else 0
  {
    if circuits > 0 { OneRowMore(t, n, circuits - 1); }
  }

  lemma {:induction false} NoRows(t: seq<Charger>, circuits: nat)
    ensures CircuitsCurrent(t, 0, circuits) == 0
  {
    if circuits > 0 { NoRows(t, circuits - 1); }
  }

  /** Over all circuits that is the total of the group. */
  lemma {:induction false} CircuitsAddUp(t: seq<Charger>, n: nat, limits: seq<nat>)
    requires n <= |t| && forall c :: c in t && Plugged(c) ==> Placed(c, limits)
    ensures CircuitsCurrent(t, n, |limits|) == TotalCurrent(t, n)
  {
    if n == 0 {
      NoRows(t, |limits|);
    } else {
      CircuitsAddUp(t, n - 1, limits);
      OneRowMore(t, n, |limits|);
      assert t[n - 1] in t;
    }
  }
}
