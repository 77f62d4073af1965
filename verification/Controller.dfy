/**
  The master's controller as it runs: a table of 40 rows, counters per circuit and phase,
  and byte counters, all updated in place.  Each method is tied to the value-level
  functions of the other modules.
 */
module Controller {
  import opened Chargers
  import opened Eviction
  import opened Allocator
  import opened Control
  import opened GroupTable
  import opened GroupRuns

  /** What the general calculation keeps for one phase of one circuit. */
  datatype PhaseState = PhaseState(conex: nat, current: nat, consigna: nat, available: nat, spare: int)

  /** A phase after one more row has been counted. */
  function Bumped(s: PhaseState, c: Charger, circuit: nat, phase: nat): PhaseState {
    if Uses(c, circuit, phase)
    then s.(conex := s.conex + 1, current := s.current + Drawn(c, phase), consigna := s.consigna + c.consigna)
    else s
  }

  /** The counters of a phase describe the first n rows of p. */
  predicate PhaseCounts(s: PhaseState, p: seq<Charger>, n: nat, circuit: nat, phase: nat)
    requires n <= |p|
  {
    && s.conex == PhaseConex(p, n, circuit, phase)
    && s.current == PhaseCurrent(p, n, circuit, phase)
    && s.consigna == PhaseConsigna(p, n, circuit, phase)
  }

  /** After the division by users: the total in amperes, the share, and what the setpoints leave. */
  predicate PhaseShares(s: PhaseState, p: seq<Charger>, limits: seq<nat>, circuit: nat, phase: nat) {
    && s.conex == PhaseConex(p, |p|, circuit, phase)
    && s.current == PhaseCurrent(p, |p|, circuit, phase) / 100
    && s.consigna == PhaseConsigna(p, |p|, circuit, phase)
    && s.available == Available(p, limits, circuit, phase)
    && 1 <= circuit <= |limits| && s.spare == limits[circuit - 1] - s.consigna
  }

  lemma WordAdd(a: int, b: int)
    ensures Word(Word(a) + b) == Word(a + b)
  {
  }

  predicate CountedPlaced(t: seq<Charger>, limits: seq<nat>) {
    forall i :: 0 <= i < |t| && Counted(t[i]) ==> Placed(t[i], limits)
  }

  /** After the loop every row that takes a setpoint still lies on an existing phase. */
  lemma EvictedPlaces(t: seq<Charger>, env: Env, share: nat, recalcCount: nat)
    requires |t| <= MAX_GROUP_SIZE && Safe(t, env.limits)
    ensures var r := General(t, env, share, recalcCount).t;
      forall i :: 0 <= i < |r| && (TakesSetpoint(r[i]) || r[i].chargeReq) ==> Placed(r[i], env.limits)
  {
    var p := Prepared(t);
    if Live(p, |p|, {}) > 0 { EvictPlaces(Begin(p, Limit(p, env)), Limit(p, env), env.limits); }
  }

  lemma {:induction false} EvictPlaces(l: Loop, limit: nat, limits: seq<nat>)
    requires Ready(l) && Safe(l.t, limits)
    ensures Safe(Evict(l, limit).t, limits)
    decreases Findable(l.t, |l.t|), StepsToZero(l.tri, l.t[0].trifasico)
  {
    if !Stops(l) {
      TurnProgress(l, limit);
      EvictPlaces(Turn(l, limit), limit, limits);
    }
  }

  class GroupController {
    const table: array<Charger>
    const phases: array2<PhaseState>
    var chargerNumber: nat
    var params: Params
    var meter: Meter
    var limits: seq<nat>
    var conex: nat
    var conexTri: nat
    var consumo: nat
    var limit: nat
    var share: nat
    var recalcCount: nat
    var totalPc: nat
    var totalConsigna: nat
    var conectados: nat
    var mode: Mode
    var lastConex: nat
    var newData: bool

    constructor (params: Params, meter: Meter, limits: seq<nat>)
      requires |limits| <= MAX_GROUP_SIZE
      ensures Valid() && fresh(table) && fresh(phases)
      ensures Abstract() == Group([], Rest, 0, 0, 0, false) && Surroundings() == Env(params, meter, limits)
    {
      var blank := Charger(Blank, NO_IP, Unknown, 1, 1, 0, false, 0, 0, 0, 0, 0, 0, false, false);
      table := new Charger[MAX_GROUP_SIZE](_ => blank);
      phases := new PhaseState[MAX_GROUP_SIZE, 3]((_, _) => PhaseState(0, 0, 0, 0, 0));
      chargerNumber := 0;
      this.params, this.meter, this.limits := params, meter, limits;
      conex, conexTri, consumo, limit, share, recalcCount := 0, 0, 0, 0, 0, 0;
      totalPc, totalConsigna, conectados := 0, 0, 0;
      mode, lastConex, newData := Rest, 0, false;
    }

    ghost predicate Valid()
      reads this
    {
      && table.Length == MAX_GROUP_SIZE && chargerNumber <= MAX_GROUP_SIZE
      && phases.Length0 == MAX_GROUP_SIZE && phases.Length1 == 3
      && |limits| <= MAX_GROUP_SIZE
    }

    ghost function Used(): (t: seq<Charger>)
      reads this, table
      requires Valid()
      ensures |t| == chargerNumber
    {
      table[..chargerNumber]
    }

    ghost function Surroundings(): Env
      reads this
    {
      Env(params, meter, limits)
    }

    ghost function Abstract(): Group
      reads this, table
      requires Valid()
    {
      Group(Used(), mode, lastConex, share, recalcCount, newData)
    }

    /** The counters of every phase describe the first n rows of p. */
    ghost predicate Counts(p: seq<Charger>, n: nat)
      reads this, phases
      requires Valid() && n <= |p|
    {
      forall c, f :: 0 <= c < |limits| && 0 <= f < 3 ==> PhaseCounts(phases[c, f], p, n, c + 1, f + 1)
    }

    /** After the division by users: totals in amperes, shares, and what the setpoints leave. */
    ghost predicate Shares(p: seq<Charger>)
      reads this, phases
      requires Valid()
    {
      forall c, f :: 0 <= c < |limits| && 0 <= f < 3 ==> PhaseShares(phases[c, f], p, limits, c + 1, f + 1)
    }

    method ResetPhases(ghost p: seq<Charger>)
      requires Valid()
      modifies phases
      ensures Counts(p, 0)
    {
      for c := 0 to |limits|
        invariant forall k, f :: 0 <= k < c && 0 <= f < 3 ==> PhaseCounts(phases[k, f], p, 0, k + 1, f + 1)
      {
        for f := 0 to 3
          invariant forall k, g :: 0 <= k < c && 0 <= g < 3 ==> PhaseCounts(phases[k, g], p, 0, k + 1, g + 1)
          invariant forall g :: 0 <= g < f ==> PhaseCounts(phases[c, g], p, 0, c + 1, g + 1)
        {
          phases[c, f] := phases[c, f].(conex := 0, current := 0, consigna := 0);
        }
      }
    }

    /** One charger on one phase. */
    method AddToPhase(c: nat, f: nat, amps: nat, consigna: nat)
      requires Valid() && c < |limits| && f < 3
      modifies phases
      ensures phases[c, f] == old(phases[c, f]).(conex := old(phases[c, f]).conex + 1,
                current := old(phases[c, f]).current + amps, consigna := old(phases[c, f]).consigna + consigna)
      ensures forall k, g :: 0 <= k < phases.Length0 && 0 <= g < 3 && (k, g) != (c, f) ==>
        phases[k, g] == old(phases[k, g])
    {
      var was := phases[c, f];
      phases[c, f] := was.(conex := was.conex + 1, current := was.current + amps, consigna := was.consigna + consigna);
    }

    /** A counted charger goes to its main phase and, if three-phase, to the other two. */
    method CountRow(c: Charger)
      requires Valid() && Counted(c) && Placed(c, limits)
      modifies phases
      ensures forall k, f :: 0 <= k < |limits| && 0 <= f < 3 ==>
        phases[k, f] == Bumped(old(phases[k, f]), c, k + 1, f + 1)
    {
      var circuit, faseA := c.circuito - 1, c.fase - 1;
      AddToPhase(circuit, faseA, c.current, c.consigna);
      if c.currentB > 250 || c.currentC > 250 {
        var faseB, faseC;
        match faseA {
          case 0 => faseB, faseC := 1, 2;
          case 1 => faseB, faseC := 2, 0;
          case _ => faseB, faseC := 0, 1;
        }
        if c.currentB > 0 { AddToPhase(circuit, faseB, c.currentB, c.consigna); }
        if c.currentC > 0 { AddToPhase(circuit, faseC, c.currentC, c.consigna); }
      }
    }

    /** The totals of the first n rows of p. */
    ghost predicate Totals(p: seq<Charger>, n: nat)
      reads this
      requires n <= |p|
    {
      && conex == LiveCount(p, n, {}) && conexTri == Live(p, n, {})
      && conectados == Conectados(p, n)
      && totalPc == Word(TotalCurrent(p, n)) && totalConsigna == Word(TotalConsigna(p, n))
    }

    method AddToTotals(c: Charger, ghost p: seq<Charger>, ghost n: nat)
      requires n < |p| <= MAX_GROUP_SIZE && p[n] == c && Totals(p, n)
      modifies this`conex, this`conexTri, this`totalPc, this`totalConsigna, this`conectados
      ensures Totals(p, n + 1)
    {
      LiveBounds(p, n, {});
      if c.conected { conectados := Byte(conectados + 1); }
      if Counted(c) {
        var three := ThreePhase(c);
        conex, conexTri := Byte(conex + 1), Byte(conexTri + if three then 3 else 1);
        var amps := c.current + if three then c.currentB + c.currentC else 0;
        WordAdd(TotalCurrent(p, n), amps);
        totalPc := Word(totalPc + amps);
        var given := c.consigna + if three then c.consigna * 2 else 0;
        WordAdd(TotalConsigna(p, n), given);
        totalConsigna := Word(totalConsigna + given);
      }
    }

    method CountOne(c: Charger, ghost p: seq<Charger>, ghost n: nat)
      requires Valid() && n < |p| <= MAX_GROUP_SIZE && p[n] == c && (Counted(c) ==> Placed(c, limits))
      requires Totals(p, n) && Counts(p, n)
      modifies this`conex, this`conexTri, this`totalPc, this`totalConsigna, this`conectados, phases
      ensures Totals(p, n + 1) && Counts(p, n + 1)
    {
      CountPhases(c, p, n);
      AddToTotals(c, p, n);
    }

    method CountPhases(c: Charger, ghost p: seq<Charger>, ghost n: nat)
      requires Valid() && n < |p| && p[n] == c && (Counted(c) ==> Placed(c, limits)) && Counts(p, n)
      modifies phases
      ensures Counts(p, n + 1)
    {
      if Counted(c) { CountRow(c); }
      forall k, f | 0 <= k < |limits| && 0 <= f < 3 ensures PhaseCounts(phases[k, f], p, n + 1, k + 1, f + 1) {
      }
    }

    /** Rows before i are prepared, the others are as they were in t. */
    ghost predicate PreparedUpTo(t: seq<Charger>, p: seq<Charger>, i: nat)
      reads this, table
      requires Valid()
    {
      && |t| == |p| == chargerNumber
      && forall k :: 0 <= k < chargerNumber ==> table[k] == if k < i then p[k] else t[k]
    }

    /** First part of the general calculation: counts, totals and the preparation of the rows. */
    method CountRows()
      requires Valid() && CountedPlaced(Used(), limits)
      modifies this`conex, this`conexTri, this`totalPc, this`totalConsigna, this`conectados, table, phases
      ensures Used() == Prepared(old(Used()))
      ensures forall k :: chargerNumber <= k < table.Length ==> table[k] == old(table[k])
      ensures Totals(Used(), chargerNumber) && Counts(Used(), chargerNumber)
    {
      ghost var t, p := Used(), Prepared(Used());
      ResetPhases(p);
      conex, conexTri, totalPc, totalConsigna, conectados := 0, 0, 0, 0, 0;
      for i := 0 to chargerNumber
        invariant PreparedUpTo(t, p, i)
        invariant forall k :: chargerNumber <= k < table.Length ==> table[k] == old(table[k])
        invariant Totals(p, i) && Counts(p, i)
      {
        CountNext(i, t, p);
      }
      assert Used() == p;
    }

    method CountNext(i: nat, ghost t: seq<Charger>, ghost p: seq<Charger>)
      requires Valid() && i < chargerNumber && CountedPlaced(t, limits) && p == Prepared(t)
      requires PreparedUpTo(t, p, i) && Totals(p, i) && Counts(p, i)
      modifies this`conex, this`conexTri, this`totalPc, this`totalConsigna, this`conectados, table, phases
      ensures PreparedUpTo(t, p, i + 1) && Totals(p, i + 1) && Counts(p, i + 1)
      ensures forall k :: chargerNumber <= k < table.Length ==> table[k] == old(table[k])
    {
      table[i] := Prepare(table[i]);
      CountOne(table[i], p, i);
    }

    method SharePhases()
      requires Valid() && Counts(Used(), chargerNumber)
      modifies phases
      ensures Shares(Used())
    {
      ghost var p := Used();
      for c := 0 to |limits|
        invariant forall k, f :: c <= k < |limits| && 0 <= f < 3 ==> PhaseCounts(phases[k, f], p, |p|, k + 1, f + 1)
        invariant forall k, f :: 0 <= k < c && 0 <= f < 3 ==> PhaseShares(phases[k, f], p, limits, k + 1, f + 1)
      {
        SharePhase(c, 0, p);
        SharePhase(c, 1, p);
        SharePhase(c, 2, p);
      }
    }

    method SharePhase(c: nat, f: nat, ghost p: seq<Charger>)
      requires Valid() && c < |limits| && f < 3 && PhaseCounts(phases[c, f], p, |p|, c + 1, f + 1)
      modifies phases
      ensures PhaseShares(phases[c, f], p, limits, c + 1, f + 1)
      ensures forall k, g :: 0 <= k < phases.Length0 && 0 <= g < 3 && (k, g) != (c, f) ==>
        phases[k, g] == old(phases[k, g])
    {
      var was := phases[c, f];
      var available := limits[c];
      if was.conex > 0 { available := limits[c] / was.conex; }
      phases[c, f] := was.(current := was.current / 100, available := available, spare := limits[c] - was.consigna);
    }

    /** The search for the charger that started last. */
    method FindNewest() returns (lastIndex: nat, lastOrder: nat)
      requires Valid()
      ensures (lastIndex, lastOrder) == Newest(Used(), chargerNumber)
    {
      lastIndex, lastOrder := 0, 0;
      for j := 0 to chargerNumber
        invariant (lastIndex, lastOrder) == Newest(Used(), j)
      {
        if Evictable(table[j]) && lastOrder < table[j].order {
          lastIndex, lastOrder := j, table[j].order;
        }
      }
    }

    /** The counters and rows are those of the given loop state. */
    ghost predicate Mirrors(l: Loop)
      reads this, table
      requires Valid()
    {
      l.t == Used() && l.conex == conex && l.tri == conexTri && l.share == share
    }

    /** The counters after a charger has been thrown out. */
    method Discount(last: Charger)
      modifies this`conex, this`conexTri, this`share
      ensures conex == Byte(old(conex) - 1) && conexTri == Byte(old(conexTri) - Stride(last))
      ensures share == if conexTri > 0 then limit / conexTri else old(share)
    {
      conex := Byte(conex - 1);
      conexTri := Byte(conexTri - Stride(last));
      if conexTri > 0 {
        share := limit / conexTri;
      }
    }

    /** One turn of the eviction loop. */
    method EvictOne(ghost l: Loop)
      requires Valid() && Ready(l) && Mirrors(l)
      modifies this`conex, this`conexTri, this`share, table
      ensures Mirrors(Turn(l, limit))
      ensures forall k :: chargerNumber <= k < table.Length ==> table[k] == old(table[k])
    {
      var lastIndex, lastOrder := FindNewest();
      var last := table[lastIndex];
      table[lastIndex] := Evicted(last);
      assert Used() == l.t[lastIndex := Evicted(l.t[lastIndex])];
      Discount(last);
    }

    /** The eviction loop, with its byte counters. */
    method EvictNewest(ghost start: Loop)
      requires Valid() && Ready(start) && Mirrors(start) && conexTri > 0
      modifies this`conex, this`conexTri, this`share, table
      ensures Mirrors(Evict(start, limit))
      ensures forall k :: chargerNumber <= k < table.Length ==> table[k] == old(table[k])
    {
      ghost var l := start;
      while share < FLOOR
        invariant Ready(l) && Mirrors(l) && conexTri > 0
        invariant Evict(l, limit) == Evict(start, limit)
        invariant forall k :: chargerNumber <= k < table.Length ==> table[k] == old(table[k])
        decreases Findable(l.t, |l.t|), StepsToZero(l.tri, l.t[0].trifasico)
      {
        TurnProgress(l, limit);
        EvictOne(l);
        l := Turn(l, limit);
        if conexTri == 0 { break; }
      }
    }

    /** The budget of the group, from the parameters or from the meter. */
    method Budget() returns (over: bool)
      requires Valid() && Totals(Used(), chargerNumber)
      modifies this`limit, this`consumo
      ensures limit == Limit(Used(), Surroundings()) && consumo == Consumo(Used())
      ensures over == Exceeds(Used(), Surroundings(), consumo)
    {
      over := false;
      limit := BaseLimit(params, conectados, chargerNumber);
      consumo := Byte(totalPc / 100);
      if conexTri > 0 && MeterConfigured(params) && meter.online {
        var limite := MeterLimit(params, meter, consumo);
        limit := Scaled(limite, conectados, chargerNumber);
        over := limite < consumo;
      }
    }

    /** Second part of the general calculation. */
    method Settle() returns (recalcular: bool)
      requires Valid() && Totals(Used(), chargerNumber)
      modifies this`conex, this`conexTri, this`consumo, this`limit, this`share, this`recalcCount, table
      ensures Matches(Settled(old(Used()), Surroundings(), old(share), old(recalcCount)), recalcular)
      ensures forall k :: chargerNumber <= k < table.Length ==> table[k] == old(table[k])
    {
      ghost var p, was := Used(), share;
      var over := Budget();
      ShareAndEvict(p);
      ghost var l := Thinned(p, limit, was);
      var again := CheckIdling();
      recalcular := over || again;
    }

    method ShareAndEvict(ghost p: seq<Charger>)
      requires Valid() && p == Used() && Totals(p, |p|)
      modifies this`conex, this`conexTri, this`share, table
      ensures Mirrors(Thinned(p, limit, old(share)))
      ensures forall k :: chargerNumber <= k < table.Length ==> table[k] == old(table[k])
    {
      LiveBounds(p, |p|, {});
      if conexTri > 0 {
        ghost var start := Begin(p, limit);
        share := limit / conexTri;
        EvictNewest(start);
      }
    }

    /** The fields hold the outcome of a pass. */
    ghost predicate Matches(g: Pass, recalcular: bool)
      reads this, table
      requires Valid()
    {
      && Used() == g.t && conex == g.conex && conexTri == g.tri && share == g.share && limit == g.limit
      && consumo == g.consumo && recalcCount == g.recalcCount && recalcular == g.recalc
    }

    method CalculoGeneral() returns (recalcular: bool)
      requires Valid() && Safe(Used(), limits)
      modifies this`conex, this`conexTri, this`totalPc, this`totalConsigna, this`conectados, this`consumo,
               this`limit, this`share, this`recalcCount, table, phases
      ensures Matches(General(old(Used()), Surroundings(), old(share), old(recalcCount)), recalcular)
      ensures Shares(Prepared(old(Used())))
      ensures forall k :: chargerNumber <= k < table.Length ==> table[k] == old(table[k])
    {
      CountRows();
      SharePhases();
      recalcular := Settle();
    }

    method CheckIdling() returns (again: bool)
      modifies this`recalcCount
      ensures (again, recalcCount) == Idling(limit, totalConsigna, old(recalcCount))
    {
      again := false;
      if limit - totalConsigna > 5 {
        recalcCount := Word(recalcCount + 1);
        if recalcCount > 25 {
          again, recalcCount := true, 0;
        }
      }
    }

    // ----- the three states of the control task

    method StepReposo(rested: bool)
      requires Valid() && mode.Rest?
      modifies this`mode, table
      ensures Valid() && Abstract() == RestStep(old(Abstract()), Surroundings(), rested)
      ensures forall k :: chargerNumber <= k < table.Length ==> table[k] == old(table[k])
    {
      if !rested { return; }
      ghost var t := Used();
      for i := 0 to chargerNumber
        invariant forall k :: 0 <= k < chargerNumber ==> table[k] == if k < i then RestRow(t[k], params) else t[k]
        invariant forall k :: chargerNumber <= k < table.Length ==> table[k] == old(table[k])
        invariant mode == if exists k :: 0 <= k < i && Waiting(t[k]) && RestFits(t[k], params) then Compute else Rest
      {
        var starts := LookAtRow(i);
        if starts { mode := Compute; }
      }
      assert Used() == RestStep(old(Abstract()), Surroundings(), rested).t;
    }

    /** A resting row: the first to be let in if it waits and the budget suffices, else no setpoint. */
    method LookAtRow(i: nat) returns (starts: bool)
      requires Valid() && i < chargerNumber
      modifies table
      ensures table[i] == RestRow(old(table[i]), params)
      ensures starts == (Waiting(old(table[i])) && RestFits(old(table[i]), params))
      ensures forall k :: 0 <= k < table.Length && k != i ==> table[k] == old(table[k])
    {
      starts := false;
      if table[i].hpt == B1 && table[i].chargeReq {
        var reparto := params.potenciaMax * 100 / 230;
        if table[i].trifasico { reparto := reparto / 3; }
        if reparto >= FLOOR {
          table[i] := table[i].(order := 1);
          starts := true;
        }
      } else {
        table[i] := table[i].(consigna := 0);
      }
    }

    /** The setpoint of one row, from the smaller of its phase's share and the group's. */
    method AssignSetpoint(i: nat, ghost p: seq<Charger>)
      requires Valid() && i < chargerNumber && Shares(p)
      requires TakesSetpoint(table[i]) ==> Placed(table[i], limits)
      modifies this`conex, this`conexTri, table
      ensures table[i] == Assign(old(table[i]), AvailableTo(p, old(table[i]), limits), share)
      ensures forall k :: 0 <= k < table.Length && k != i ==> table[k] == old(table[k])
    {
      var c := table[i];
      if c.hpt == C2 || c.hpt.letter == 'B' {
        var available := phases[c.circuito - 1, c.fase - 1].available;
        c := c.(consigna := if available <= share then available else share);
        if c.consigna > CAP { c := c.(consigna := CAP); }
        if c.currentB > 250 || c.currentC > 250 {
          if c.consigna < FLOOR {
            c := Evicted(c).(trifasico := true);
            conex, conexTri := Byte(conex - 1), Byte(conexTri - 3);
          }
        }
        table[i] := c;
      }
    }

    method StepCalculo()
      requires Valid() && mode.Compute? && Safe(Used(), limits)
      modifies this, table, phases
      ensures Valid() && unchanged(this`chargerNumber) && Surroundings() == old(Surroundings())
      ensures Abstract() == ComputeStep(old(Abstract()), Surroundings())
      ensures forall k :: chargerNumber <= k < table.Length ==> table[k] == old(table[k])
    {
      ghost var s := Abstract();
      var recalcular := CalculoGeneral();
      EvictedPlaces(s.t, Surroundings(), s.share, s.recalcCount);
      FinishCompute(recalcular, s, General(s.t, Surroundings(), s.share, s.recalcCount));
    }

    method FinishCompute(recalcular: bool, ghost s: Group, ghost g: Pass)
      requires Valid() && Matches(g, recalcular) && Shares(Prepared(s.t))
      requires s == Abstract().(t := s.t, share := s.share, recalcCount := s.recalcCount)
      requires forall i :: 0 <= i < |g.t| && TakesSetpoint(g.t[i]) ==> Placed(g.t[i], limits)
      modifies this`conex, this`conexTri, this`mode, table
      ensures Abstract() == Computed(s, g, Surroundings())
      ensures forall k :: chargerNumber <= k < table.Length ==> table[k] == old(table[k])
    {
      if conex == 0 {
        mode := Rest;
        return;
      }
      DistributeSetpoints(g.t, Prepared(s.t));
      mode := Balance;
    }

    method DistributeSetpoints(ghost t: seq<Charger>, ghost p: seq<Charger>)
      requires Valid() && t == Used() && Shares(p)
      requires forall i :: 0 <= i < |t| && TakesSetpoint(t[i]) ==> Placed(t[i], limits)
      modifies this`conex, this`conexTri, table
      ensures Used() == Distribute(t, p, limits, share)
      ensures forall k :: chargerNumber <= k < table.Length ==> table[k] == old(table[k])
    {
      for i := 0 to chargerNumber
        invariant Shares(p)
        invariant forall k :: 0 <= k < i ==> table[k] == Assign(t[k], AvailableTo(p, t[k], limits), share)
        invariant forall k :: i <= k < chargerNumber ==> table[k] == t[k]
        invariant forall k :: chargerNumber <= k < table.Length ==> table[k] == old(table[k])
      {
        AssignSetpoint(i, p);
      }
    }

    method CircuitExceeded(circuit: nat, ghost p: seq<Charger>) returns (over: bool)
      requires Valid() && Shares(p) && 1 <= circuit <= |limits|
      ensures over == CircuitOver(p, limits, circuit)
    {
      over := false;
      for f := 0 to 3
        invariant over <==> exists phase :: 1 <= phase <= f && PhaseOver(p, limits, circuit, phase)
      {
        var s := phases[circuit - 1, f];
        if s.current > limits[circuit - 1] || s.consigna > limits[circuit - 1] {
          assert PhaseOver(p, limits, circuit, f + 1);
          over := true;
        }
      }
    }

    method PhasesOver(ghost p: seq<Charger>) returns (over: bool)
      requires Valid() && Shares(p)
      ensures over == Overloaded(p, limits)
    {
      over := false;
      for c := 0 to |limits|
        invariant over <==> exists circuit :: 1 <= circuit <= c && CircuitOver(p, limits, circuit)
      {
        var exceeded := CircuitExceeded(c + 1, p);
        over := over || exceeded;
      }
    }

    /** Whether one more user of a phase would still get more than 6 A. */
    method PhaseHasRoom(circuit: nat, phase: nat, ghost p: seq<Charger>) returns (ok: bool)
      requires Valid() && Shares(p) && 1 <= circuit <= |limits| && 1 <= phase <= 3
      ensures ok == PhaseAdmits(p, limits, circuit, phase)
    {
      ok := limits[circuit - 1] / (phases[circuit - 1, phase - 1].conex + 1) > FLOOR;
    }

    method HasRoom(c: Charger, ghost p: seq<Charger>) returns (ok: bool)
      requires Valid() && Shares(p) && Placed(c, limits)
      ensures ok == Fits(c, p, limits, limit, conexTri)
    {
      ok := false;
      if c.trifasico {
        if limit / (conexTri + 3) >= FLOOR {
          var one := PhaseHasRoom(c.circuito, 1, p);
          var two := PhaseHasRoom(c.circuito, 2, p);
          var three := PhaseHasRoom(c.circuito, 3, p);
          ok := one && two && three;
        }
      } else if limit / (conexTri + 1) >= FLOOR {
        ok := PhaseHasRoom(c.circuito, c.fase, p);
      }
    }

    /** Admits row i: it becomes C2 and the newest of the group. */
    method Admit(i: nat)
      requires Valid() && i < chargerNumber
      modifies table
      ensures Used() == Admitted(old(Used()), i)
      ensures forall k :: chargerNumber <= k < table.Length ==> table[k] == old(table[k])
    {
      table[i] := table[i].(hpt := C2);
      ghost var u := Used();
      var lastOrder := 0;
      for j := 0 to chargerNumber
        invariant lastOrder == LastOrder(u, j)
      {
        if (table[j].hpt == C2 || table[j].hpt == B2) && lastOrder < table[j].order {
          lastOrder := table[j].order;
        }
      }
      table[i] := table[i].(order := Byte(lastOrder + 1));
      assert u == old(Used())[i := old(Used())[i].(hpt := C2)];
      assert Used() == u[i := u[i].(order := Byte(lastOrder + 1))];
    }

    /** The first charger that asks and fits comes in; those before it that do not fit get nothing. */
    method LookAtRequests(ghost t: seq<Charger>, ghost p: seq<Charger>) returns (admitted: bool)
      requires Valid() && Shares(p) && t == Used()
      requires forall i :: 0 <= i < |t| && t[i].chargeReq ==> Placed(t[i], limits)
      modifies table
      ensures var first := FirstFit(t, 0, p, limits, limit, conexTri);
        admitted == (first < |t|) && Used() == AdmitStep(t, first)
      ensures forall k :: chargerNumber <= k < table.Length ==> table[k] == old(table[k])
    {
      for i := 0 to chargerNumber
        invariant Shares(p) && Used() == Refused(t, i)
        invariant forall k :: chargerNumber <= k < table.Length ==> table[k] == old(table[k])
        invariant FirstFit(t, 0, p, limits, limit, conexTri) == FirstFit(t, i, p, limits, limit, conexTri)
      {
        assert table[i] == Used()[i] == t[i];
        if table[i].chargeReq {
          var fits := HasRoom(table[i], p);
          if fits {
            Admit(i);
            return true;
          }
          table[i] := table[i].(consigna := 0);
        }
      }
      return false;
    }

    /** Chargers that leave part of their setpoint unused for ten seconds trigger a new calculation. */
    method WatchSpare(elapsed: nat, ghost t: seq<Charger>) returns (fires: bool)
      requires Valid() && t == Used()
      modifies table
      ensures Used() == SpareStep(t, elapsed)
      ensures fires == exists k :: 0 <= k < |t| && SpareTimedOut(t[k], elapsed)
      ensures forall k :: chargerNumber <= k < table.Length ==> table[k] == old(table[k])
    {
      fires := false;
      for i := 0 to chargerNumber
        invariant forall k :: 0 <= k < i ==> table[k] == SpareRow(t[k], elapsed)
        invariant forall k :: i <= k < chargerNumber ==> table[k] == t[k]
        invariant forall k :: chargerNumber <= k < table.Length ==> table[k] == old(table[k])
        invariant fires == exists k :: 0 <= k < i && SpareTimedOut(t[k], elapsed)
      {
        var fired := WatchRow(i, elapsed);
        fires := fires || fired;
      }
    }

    method WatchRow(i: nat, elapsed: nat) returns (fired: bool)
      requires Valid() && i < chargerNumber
      modifies table
      ensures table[i] == SpareRow(old(table[i]), elapsed) && fired == SpareTimedOut(old(table[i]), elapsed)
      ensures forall k :: 0 <= k < table.Length && k != i ==> table[k] == old(table[k])
    {
      fired := false;
      var c := table[i];
      if Evictable(c) {
        var spare := 0;
        if c.consigna > c.current / 100 { spare := Byte(c.consigna - c.current / 100); }
        if spare > 2 {
          c := c.(deltaTimer := Word(c.deltaTimer + elapsed));
        } else {
          c := c.(deltaTimer := 0, delta := 0);
        }
        if c.deltaTimer > 10000 {
          c := c.(delta := spare, deltaTimer := 0);
          fired := true;
        }
        table[i] := c;
      }
    }

    method StepEquilibrado(elapsed: nat)
      requires Valid() && mode.Balance? && Safe(Used(), limits)
      modifies this, table, phases
      ensures Valid() && unchanged(this`chargerNumber) && Surroundings() == old(Surroundings())
      ensures Abstract() == BalanceStep(old(Abstract()), Surroundings(), elapsed)
      ensures forall k :: chargerNumber <= k < table.Length ==> table[k] == old(table[k])
    {
      ghost var s := Abstract();
      var recalcular := CalculoGeneral();
      EvictedPlaces(s.t, Surroundings(), s.share, s.recalcCount);
      FinishBalance(recalcular, elapsed, s, General(s.t, Surroundings(), s.share, s.recalcCount));
    }

    method FinishBalance(recalcular: bool, elapsed: nat, ghost s: Group, ghost g: Pass)
      requires Valid() && Matches(g, recalcular) && Shares(Prepared(s.t))
      requires s == Abstract().(t := s.t, share := s.share, recalcCount := s.recalcCount)
      requires forall i :: 0 <= i < |g.t| && g.t[i].chargeReq ==> Placed(g.t[i], limits)
      modifies this`mode, this`newData, this`lastConex, table
      ensures Abstract() == Balanced(s, g, Surroundings(), elapsed)
      ensures forall k :: chargerNumber <= k < table.Length ==> table[k] == old(table[k])
    {
      if recalcular || newData {
        newData, mode := false, Compute;
        return;
      }
      if lastConex != conex || conex == 0 {
        mode := if conex == 0 then Rest else Compute;
        lastConex := conex;
        return;
      }
      lastConex := conex;
      var over := PhasesOver(Prepared(s.t));
      if consumo > limit || over {
        mode := Compute;
        return;
      }
      var again := ServeRequests(elapsed, g.t, Prepared(s.t));
      if again { mode := Compute; }
    }

    method ServeRequests(elapsed: nat, ghost t: seq<Charger>, ghost p: seq<Charger>) returns (again: bool)
      requires Valid() && Shares(p) && t == Used()
      requires forall i :: 0 <= i < |t| && t[i].chargeReq ==> Placed(t[i], limits)
      modifies table
      ensures (Used(), again) == Served(t, FirstFit(t, 0, p, limits, limit, conexTri), conex, elapsed)
      ensures forall k :: chargerNumber <= k < table.Length ==> table[k] == old(table[k])
    {
      again := LookAtRequests(t, p);
      if conex > 1 {
        var fires := WatchSpare(elapsed, Used());
        again := again || fires;
      }
    }

    /** A DATA message: the sender's row is updated and the answer is computed from it. */
    method NewData(m: Data) returns (known: bool, dc: nat, permission: bool)
      requires Valid()
      modifies table
      ensures known == (Find(old(table[..]), chargerNumber, m.name) != ABSENT)
      ensures known ==> var j := Find(old(table[..]), chargerNumber, m.name);
        && table[..] == old(table[..])[j := Updated(old(table[..])[j], m)]
        && dc == table[j].consigna && permission == Permits(table[j])
      ensures !known ==> table[..] == old(table[..]) && !permission
    {
      var j := CheckInGroup(m.name, table, chargerNumber);
      known, dc, permission := j < ABSENT, 0, false;
      if known {
        table[j] := table[j].(conected := true, chargeReq := m.perm);
        if !m.perm {
          if !(m.hpt == B1 && table[j].hpt == C2) { table[j] := Measured(table[j], m); }
        } else if table[j].hpt != B1 && table[j].hpt != C2 {
          table[j] := Measured(table[j], m);
        }
        dc := table[j].consigna;
        if table[j].consigna > 0 && table[j].hpt != C1 {
          permission := !(table[j].hpt == B1 && !table[j].chargeReq);
        }
      }
    }
  }
}
