/**
  The loop that hands out spare amperes one at a time, going round the table until a round has
  given nothing.  One iteration is a function on values; what every run of the loop keeps, when the
  loop ends and when it goes on for ever are proved of that function, and the loop on arrays
  computes it.
 */
module Handout {
  import opened Chargers
  import opened Allocator

  /** Single-phase for this loop: no current at all on the side phases. */
  predicate SinglePhase(c: Charger) { c.currentB == 0 && c.currentC == 0 }

  function Cost(c: Charger): nat { if SinglePhase(c) then 1 else 3 }

  /** Rows the loop may raise: charging, no spare of their own, setpoint below 32 A. */
  predicate Eligible(c: Charger) { Evictable(c) && c.delta == 0 && c.consigna < CAP }

  /** Whether a row takes one ampere more from this phase (both counted from 0). */
  predicate OnPhases(c: Charger, circuit: nat, phase: nat) {
    c.circuito == circuit + 1 && (SinglePhase(c) ==> c.fase == phase + 1)
  }

  predicate Shaped(spare: seq<seq<int>>) { forall k :: 0 <= k < |spare| ==> |spare[k]| == 3 }

  predicate CanTake(c: Charger, spare: seq<seq<int>>, left: nat)
    requires Shaped(spare)
  {
    && Eligible(c) && left >= Cost(c)
    && forall k, f :: 0 <= k < |spare| && 0 <= f < 3 && OnPhases(c, k, f) ==> spare[k][f] - 1 > 0
  }

  /**
    Who can take an ampere, on an existing circuit and phase: a charger plugged in without spare of
    its own and below 32 A, that leaves at least 1 A on its phase, or with 3 A to give on all three.
   */
  lemma CanTakeIff(c: Charger, spare: seq<seq<int>>, left: nat)
    requires Shaped(spare) && 1 <= c.circuito <= |spare| && 1 <= c.fase <= 3
    ensures var phases := spare[c.circuito - 1];
      CanTake(c, spare, left) <==>
        && (c.hpt == C2 || c.hpt == B2 || c.hpt == C1) && c.delta == 0 && c.consigna < 32
        && (if c.currentB == 0 && c.currentC == 0 then left >= 1 && phases[c.fase - 1] >= 2
            else left >= 3 && phases[0] >= 2 && phases[1] >= 2 && phases[2] >= 2)
  {
    var k := c.circuito - 1;
    var single := c.currentB == 0 && c.currentC == 0;
    assert OnPhases(c, k, c.fase - 1);
    assert single || (OnPhases(c, k, 0) && OnPhases(c, k, 1) && OnPhases(c, k, 2));
    forall i: nat, f: nat | i < |spare| && f < 3 && OnPhases(c, i, f) ensures i == k && (single ==> f == c.fase - 1) { }
  }

  // ----- one iteration

  /** The variables of the loop; `broken` tells that its break was reached. */
  datatype Handing = Handing(table: seq<Charger>, spare: seq<seq<int>>, left: nat, i: nat, last: nat, broken: bool)

  function Start(table: seq<Charger>, spare: seq<seq<int>>, total: nat): Handing {
    Handing(table, spare, total, 0, Byte(total), false)
  }

  predicate Guard(s: Handing) { s.left > 0 && !s.broken }

  predicate WellFormed(s: Handing, n: nat) {
    && n <= |s.table| && n <= MAX_GROUP_SIZE && Shaped(s.spare) && s.last < 256
    && (Guard(s) ==> s.i < n)
  }

  function Lowered(spare: seq<seq<int>>, c: Charger): (r: seq<seq<int>>)
    requires Shaped(spare)
    ensures |r| == |spare| && Shaped(r)
    ensures forall k, f :: 0 <= k < |r| && 0 <= f < 3 ==> r[k][f] == spare[k][f] - if OnPhases(c, k, f) then 1 else 0
  {
    seq(|spare|, k requires 0 <= k < |spare| =>
      seq(3, f requires 0 <= f < 3 => spare[k][f] - if OnPhases(c, k, f) then 1 else 0))
  }

  function Raise(c: Charger): Charger { c.(consigna := c.consigna + 1) }

  /** Row i takes what it can. */
  function Offered(s: Handing, n: nat): (r: Handing)
    requires WellFormed(s, n) && Guard(s)
    ensures Shaped(r.spare) && |r.table| == |s.table| && |r.spare| == |s.spare|
  {
    var c := s.table[s.i];
    if CanTake(c, s.spare, s.left) then
      s.(table := s.table[s.i := Raise(c)], spare := Lowered(s.spare, c), left := s.left - Cost(c))
    else s
  }

  /** The whole body of the loop. */
  function Next(s: Handing, n: nat): (r: Handing)
    requires WellFormed(s, n) && Guard(s)
    ensures WellFormed(r, n) && |r.table| == |s.table| && |r.spare| == |s.spare|
  {
    var t := Offered(s, n);
    if s.i + 1 < n then t.(i := s.i + 1)
    else if t.last == t.left then t.(i := 0, broken := true)
    else t.(i := 0, last := Byte(t.left))
  }

  /** The variables after at most k iterations. */
  function After(s: Handing, n: nat, k: nat): (r: Handing)
    requires WellFormed(s, n)
    ensures WellFormed(r, n)
    decreases k
  {
    if k == 0 || !Guard(s) then s else After(Next(s, n), n, k - 1)
  }

  lemma {:induction false} AfterNext(s: Handing, n: nat, k: nat)
    requires WellFormed(s, n) && Guard(After(s, n, k))
    ensures After(s, n, k + 1) == Next(After(s, n, k), n)
    decreases k
  {
    if k > 0 { AfterNext(Next(s, n), n, k - 1); }
  }

  lemma {:induction false} AfterAfter(s: Handing, n: nat, j: nat, k: nat)
    requires WellFormed(s, n)
    ensures After(After(s, n, j), n, k) == After(s, n, j + k)
    decreases j
  {
    if j > 0 && Guard(s) { AfterAfter(Next(s, n), n, j - 1, k); }
  }

  /** Once stopped, the loop stays stopped. */
  lemma StaysStopped(s: Handing, n: nat, j: nat, k: nat)
    requires WellFormed(s, n) && j <= k && !Guard(After(s, n, j))
    ensures After(s, n, k) == After(s, n, j)
  {
    AfterAfter(s, n, j, k - j);
  }

  ghost predicate Ends(s: Handing, n: nat)
    requires WellFormed(s, n)
  {
    exists k: nat :: !Guard(After(s, n, k))
  }

  // ----- conservation

  /** Weighted amperes handed out between two versions of the table. */
  function Raised(s: seq<Charger>, t: seq<Charger>, n: nat): int
    requires n <= |s| == |t|
  {
    if n == 0 then 0
    else Raised(s, t, n - 1) + if SinglePhase(s[n - 1]) then t[n - 1].consigna - s[n - 1].consigna
                               else 3 * (t[n - 1].consigna - s[n - 1].consigna)
  }

  /** Amperes handed out on one phase. */
  function RaisedOn(s: seq<Charger>, t: seq<Charger>, n: nat, circuit: nat, phase: nat): int
    requires n <= |s| == |t|
  {
    if n == 0 then 0
    else RaisedOn(s, t, n - 1, circuit, phase)
         + if OnPhases(s[n - 1], circuit, phase) then t[n - 1].consigna - s[n - 1].consigna else 0
  }

  lemma {:induction false} RaisedNothing(s: seq<Charger>, n: nat)
    requires n <= |s|
    ensures Raised(s, s, n) == 0
    ensures forall k: nat, f: nat :: RaisedOn(s, s, n, k, f) == 0
  {
    if n > 0 {
      RaisedNothing(s, n - 1);
      forall k: nat, f: nat ensures RaisedOn(s, s, n, k, f) == 0 { assert RaisedOn(s, s, n - 1, k, f) == 0; }
    }
  }

  lemma {:induction false} RaisedOnce(s: seq<Charger>, t: seq<Charger>, n: nat, i: nat)
    requires i < |t| == |s| && n <= |s|
    ensures Raised(s, t[i := Raise(t[i])], n) == Raised(s, t, n) + if i < n then Cost(s[i]) else 0
  {
    if n > 0 { RaisedOnce(s, t, n - 1, i); }
  }

  lemma {:induction false} RaisedOnOnce(s: seq<Charger>, t: seq<Charger>, n: nat, i: nat, k: nat, f: nat)
    requires i < |t| == |s| && n <= |s|
    ensures RaisedOn(s, t[i := Raise(t[i])], n, k, f)
         == RaisedOn(s, t, n, k, f) + if i < n && OnPhases(s[i], k, f) then 1 else 0
  {
    if n > 0 { RaisedOnOnce(s, t, n - 1, i, k, f); }
  }

  /** Amperes handed out on the three phases of the first m circuits. */
  function RaisedOnCircuits(s: seq<Charger>, t: seq<Charger>, n: nat, m: nat): int
    requires n <= |s| == |t|
  {
    if m == 0 then 0
    else RaisedOnCircuits(s, t, n, m - 1)
         + RaisedOn(s, t, n, m - 1, 0) + RaisedOn(s, t, n, m - 1, 1) + RaisedOn(s, t, n, m - 1, 2)
  }

  lemma {:induction false} OneRowOnCircuits(s: seq<Charger>, t: seq<Charger>, n: nat, m: nat)
    requires n < |s| == |t| && s[n].circuito >= 1 && 1 <= s[n].fase <= 3
    ensures RaisedOnCircuits(s, t, n + 1, m)
         == RaisedOnCircuits(s, t, n, m)
            + if s[n].circuito <= m then Cost(s[n]) * (t[n].consigna - s[n].consigna) else 0
  {
    if m > 0 { OneRowOnCircuits(s, t, n, m - 1); }
  }

  lemma {:induction false} NoRowsOnCircuits(s: seq<Charger>, t: seq<Charger>, m: nat)
    requires |s| == |t|
    ensures RaisedOnCircuits(s, t, 0, m) == 0
  {
    if m > 0 { NoRowsOnCircuits(s, t, m - 1); }
  }

  /** What all phases together gave is what was handed out. */
  lemma {:induction false} PhasesGave(s: seq<Charger>, t: seq<Charger>, n: nat, m: nat)
    requires n <= |s| == |t|
    requires forall i :: 0 <= i < n ==> 1 <= s[i].circuito <= m && 1 <= s[i].fase <= 3
    ensures RaisedOnCircuits(s, t, n, m) == Raised(s, t, n)
  {
    if n == 0 {
      NoRowsOnCircuits(s, t, m);
    } else {
      PhasesGave(s, t, n - 1, m);
      OneRowOnCircuits(s, t, n - 1, m);
    }
  }

  /** Only setpoints below 32 A of eligible rows among the first n have gone up, and to no more than 32 A. */
  predicate OnlyRaised(s: seq<Charger>, t: seq<Charger>, n: nat) {
    && |s| == |t|
    && forall i :: 0 <= i < |s| ==>
         && t[i] == s[i].(consigna := t[i].consigna)
         && s[i].consigna <= t[i].consigna
         && (t[i].consigna != s[i].consigna ==> i < n && Eligible(s[i]) && t[i].consigna <= CAP)
  }

  /** What is spare on a phase is what was, less what was given there, and nothing was taken below 1 A. */
  predicate PhasesConserve(s: Handing, t: Handing)
    requires Shaped(s.spare) && Shaped(t.spare) && |s.table| == |t.table|
  {
    && |s.spare| == |t.spare|
    && forall k, f :: 0 <= k < |s.spare| && 0 <= f < 3 ==>
         && t.spare[k][f] == s.spare[k][f] - RaisedOn(s.table, t.table, |s.table|, k, f)
         && (t.spare[k][f] == s.spare[k][f] || t.spare[k][f] >= 1)
  }

  /** What the loop keeps: amperes are conserved overall and on every phase, and none runs dry. */
  predicate Conserves(s: Handing, t: Handing, n: nat) {
    && Shaped(s.spare) && Shaped(t.spare)
    && OnlyRaised(s.table, t.table, n)
    && t.left + Raised(s.table, t.table, |s.table|) == s.left
    && PhasesConserve(s, t)
  }

  lemma ConservesNothing(s: Handing, n: nat)
    requires Shaped(s.spare)
    ensures Conserves(s, s, n)
  {
    RaisedNothing(s.table, |s.table|);
  }

  lemma OfferedConserves(start: Handing, s: Handing, n: nat)
    requires WellFormed(s, n) && Guard(s) && Conserves(start, s, n)
    ensures Conserves(start, Offered(s, n), n)
  {
    var c, t := s.table[s.i], Offered(s, n);
    if CanTake(c, s.spare, s.left) {
      assert c == start.table[s.i].(consigna := c.consigna);
      RaisedOnce(start.table, s.table, |s.table|, s.i);
      forall k, f | 0 <= k < |t.spare| && 0 <= f < 3
        ensures t.spare[k][f] == start.spare[k][f] - RaisedOn(start.table, t.table, |s.table|, k, f)
        ensures t.spare[k][f] == start.spare[k][f] || t.spare[k][f] >= 1
      {
        RaisedOnOnce(start.table, s.table, |s.table|, s.i, k, f);
      }
    }
  }

  lemma NextConserves(start: Handing, s: Handing, n: nat)
    requires WellFormed(s, n) && Guard(s) && Conserves(start, s, n)
    ensures Conserves(start, Next(s, n), n)
  {
    var t := Offered(s, n);
    OfferedConserves(start, s, n);
    assert Next(s, n).table == t.table && Next(s, n).spare == t.spare && Next(s, n).left == t.left;
  }

  /** Every number of iterations conserves amperes. */
  lemma {:induction false} AfterConserves(start: Handing, s: Handing, n: nat, k: nat)
    requires WellFormed(s, n) && Conserves(start, s, n)
    ensures Conserves(start, After(s, n, k), n)
    decreases k
  {
    if k > 0 && Guard(s) {
      NextConserves(start, s, n);
      AfterConserves(start, Next(s, n), n, k - 1);
    }
  }

  // ----- rounds

  predicate NobodyTakes(s: Handing, n: nat)
    requires n <= |s.table| && Shaped(s.spare)
  {
    forall j :: 0 <= j < n ==> !CanTake(s.table[j], s.spare, s.left)
  }

  /** Since the round began with r amperes left, at most 3 A went to each row seen, and if none did nobody could. */
  predicate InRound(s: Handing, n: nat, r: nat) {
    && WellFormed(s, n) && s.left <= r
    && if s.broken then s.left == r && s.left < 256 && NobodyTakes(s, n)
       else r <= s.left + 3 * s.i && s.i <= n && s.last == Byte(r) && (s.left == r ==> NobodyTakes(s, s.i))
  }

  /** Nobody can take anything and the byte cannot show what is left. */
  predicate Stuck(s: Handing, n: nat) {
    WellFormed(s, n) && Guard(s) && s.left > 255 && NobodyTakes(s, n)
  }

  /** One iteration, and the amperes with which the round it ends in began. */
  lemma NextInRound(s: Handing, n: nat, r: nat) returns (r': nat)
    requires InRound(s, n, r) && Guard(s)
    ensures InRound(Next(s, n), n, r')
    ensures var t := Next(s, n);
      || !Guard(t) || Stuck(t, n) || t.left < s.left
      || (t.left == s.left && s.left != r && t.left == r')
      || (t.left == s.left && r' == r && t.i == s.i + 1)
  {
    var t := Next(s, n);
    if s.i + 1 < n {
      r' := r;
    } else {
      r' := t.left;
    }
  }

  /** Every run of the loop stops or gets stuck. */
  lemma {:induction false} Settles(s: Handing, n: nat, r: nat) returns (k: nat)
    requires InRound(s, n, r)
    ensures !Guard(After(s, n, k)) || Stuck(After(s, n, k), n)
    decreases s.left, if s.left == r then 0 else 1, if s.i <= n then n - s.i else 0
  {
    k := 0;
    if Guard(s) && !Stuck(s, n) {
      var t := Next(s, n);
      var r' := NextInRound(s, n, r);
      if !Guard(t) || Stuck(t, n) {
        k := 1;
        assert After(s, n, 1) == After(t, n, 0) == t;
      } else {
        var j := Settles(t, n, r');
        k := j + 1;
      }
    }
  }

  lemma {:induction false} AfterInRound(s: Handing, n: nat, r: nat, k: nat) returns (r': nat)
    requires InRound(s, n, r)
    ensures InRound(After(s, n, k), n, r')
    decreases k
  {
    r' := r;
    if k > 0 && Guard(s) {
      var next := NextInRound(s, n, r);
      r' := AfterInRound(Next(s, n), n, next, k - 1);
    }
  }

  /** From a stuck state the guard holds and the break is missed after every number of iterations. */
  lemma {:induction false} StuckForEver(s: Handing, n: nat, k: nat)
    requires Stuck(s, n)
    ensures Stuck(After(s, n, k), n) && Guard(After(s, n, k))
    decreases k
  {
    if k > 0 {
      assert Offered(s, n) == s;
      assert Stuck(Next(s, n), n);
      StuckForEver(Next(s, n), n, k - 1);
    }
  }

  // ----- when the loop ends

  predicate Startable(table: seq<Charger>, spare: seq<seq<int>>, total: nat, n: nat) {
    n <= |table| && n <= MAX_GROUP_SIZE && Shaped(spare) && (n == 0 ==> total == 0)
  }

  /**
    Every run comes to a point where nothing is left or nobody can take it, and the loop ends
    exactly if at most 255 A are left then.
   */
  lemma EndsIff(table: seq<Charger>, spare: seq<seq<int>>, total: nat, n: nat) returns (k: nat)
    requires Startable(table, spare, total, n)
    ensures var start := Start(table, spare, total);
      var t := After(start, n, k);
      (t.left == 0 || NobodyTakes(t, n)) && (Ends(start, n) <==> t.left <= 255)
  {
    var start := Start(table, spare, total);
    k := Settles(start, n, total);
    var t := After(start, n, k);
    var r := AfterInRound(start, n, total, k);
    if Stuck(t, n) {
      forall j: nat ensures Guard(After(start, n, j)) { NeverStops(start, n, k, j); }
    }
  }

  lemma NeverStops(s: Handing, n: nat, k: nat, j: nat)
    requires WellFormed(s, n) && Stuck(After(s, n, k), n)
    ensures Guard(After(s, n, j))
  {
    if j <= k {
      if !Guard(After(s, n, j)) { StaysStopped(s, n, j, k); }
    } else {
      AfterAfter(s, n, k, j - k);
      StuckForEver(After(s, n, k), n, j - k);
    }
  }

  /** The amperes that the eligible rows among the first n could take at most. */
  function Room(s: seq<Charger>, n: nat): nat
    requires n <= |s|
  {
    if n == 0 then 0
    else Room(s, n - 1) + if Eligible(s[n - 1]) then Cost(s[n - 1]) * (CAP - s[n - 1].consigna) else 0
  }

  lemma {:induction false} RaisedWithinRoom(s: seq<Charger>, t: seq<Charger>, n: nat, m: nat)
    requires m <= |s| && OnlyRaised(s, t, n)
    ensures 0 <= Raised(s, t, m) <= Room(s, m)
  {
    if m > 0 { RaisedWithinRoom(s, t, n, m - 1); }
  }

  /** Told before the call: up to 255 A the loop ends; above that and the room of the group it does not. */
  lemma EndsByAmount(table: seq<Charger>, spare: seq<seq<int>>, total: nat, n: nat)
    requires Startable(table, spare, total, n)
    ensures total <= 255 ==> Ends(Start(table, spare, total), n)
    ensures total > 255 + Room(table, |table|) ==> !Ends(Start(table, spare, total), n)
  {
    var start := Start(table, spare, total);
    var k := EndsIff(table, spare, total, n);
    ConservesNothing(start, n);
    AfterConserves(start, start, n, k);
    RaisedWithinRoom(table, After(start, n, k).table, n, |table|);
  }

  /** A group whose only charger has the spare amperes itself: above 255 of them the loop never ends. */
  lemma EndlessHandout(total: nat)
    requires total > 255
    ensures var c := Charger("CHARGER1", 1, C2, 1, 1, 1, false, 32, 600, 0, 0, total, 0, true, false);
      !Ends(Start([c], [[32, 32, 32]], total), 1)
  {
    var c := Charger("CHARGER1", 1, C2, 1, 1, 1, false, 32, 600, 0, 0, total, 0, true, false);
    assert Room([c], 0) == 0;
    assert Room([c], 1) == 0;
    EndsByAmount([c], [[32, 32, 32]], total, 1);
  }

  // ----- the loop on arrays

  /** The spare currents of the first n circuits. */
  ghost function RowsBefore(spare: array2<int>, n: nat): (r: seq<seq<int>>)
    reads spare
    requires spare.Length1 == 3 && n <= spare.Length0
    ensures |r| == n && Shaped(r)
    ensures forall k, f :: 0 <= k < n && 0 <= f < 3 ==> r[k][f] == spare[k, f]
  {
    if n == 0 then [] else RowsBefore(spare, n - 1) + [[spare[n - 1, 0], spare[n - 1, 1], spare[n - 1, 2]]]
  }

  /** The contents of the spare currents. */
  ghost function Rows(spare: array2<int>): (r: seq<seq<int>>)
    reads spare
    requires spare.Length1 == 3
    ensures |r| == spare.Length0 && Shaped(r)
    ensures forall k, f :: 0 <= k < spare.Length0 && 0 <= f < 3 ==> r[k][f] == spare[k, f]
  {
    RowsBefore(spare, spare.Length0)
  }

  predicate PlacedIn(c: Charger, circuits: nat) {
    Evictable(c) ==> 1 <= c.circuito <= circuits && 1 <= c.fase <= 3
  }

  lemma SameRows(a: seq<seq<int>>, b: seq<seq<int>>)
    requires |a| == |b| && Shaped(a) && Shaped(b)
    requires forall k, f :: 0 <= k < |a| && 0 <= f < 3 ==> a[k][f] == b[k][f]
    ensures a == b
  {
    forall k | 0 <= k < |a| ensures a[k] == b[k] { }
  }

  /** Takes one ampere from every phase that a row uses. */
  method Lower(spare: array2<int>, c: Charger)
    requires spare.Length1 == 3 && 1 <= c.circuito <= spare.Length0 && 1 <= c.fase <= 3
    modifies spare
    ensures Rows(spare) == Lowered(old(Rows(spare)), c)
  {
    var circuit := c.circuito - 1;
    if c.currentB == 0 && c.currentC == 0 {
      spare[circuit, c.fase - 1] := spare[circuit, c.fase - 1] - 1;
    } else {
      spare[circuit, 0] := spare[circuit, 0] - 1;
      spare[circuit, 1] := spare[circuit, 1] - 1;
      spare[circuit, 2] := spare[circuit, 2] - 1;
    }
    SameRows(Rows(spare), Lowered(old(Rows(spare)), c));
  }

  /** Whether a row can take an ampere more, as the nested tests decide it. */
  method HasAmpere(spare: array2<int>, c: Charger, left: nat) returns (ok: bool)
    requires spare.Length1 == 3 && PlacedIn(c, spare.Length0) && left > 0
    ensures ok == CanTake(c, Rows(spare), left)
  {
    ok := false;
    if Evictable(c) && c.delta == 0 && c.consigna < CAP {
      var circuit, phase := c.circuito - 1, c.fase - 1;
      ghost var rows := Rows(spare);
      if c.currentB == 0 && c.currentC == 0 {
        ok := spare[circuit, phase] - 1 > 0;
        assert OnPhases(c, circuit, phase) && rows[circuit][phase] == spare[circuit, phase];
      } else if left >= 3 {
        ok := spare[circuit, 0] - 1 > 0 && spare[circuit, 1] - 1 > 0 && spare[circuit, 2] - 1 > 0;
        assert OnPhases(c, circuit, 0) && OnPhases(c, circuit, 1) && OnPhases(c, circuit, 2);
        assert rows[circuit][0] == spare[circuit, 0] && rows[circuit][1] == spare[circuit, 1];
        assert rows[circuit][2] == spare[circuit, 2];
      }
    }
  }

  /** Row i takes what it can, in place. */
  method Offer(table: array<Charger>, n: nat, i: nat, spare: array2<int>, left: nat, ghost s: Handing)
    returns (left': nat)
    requires WellFormed(s, n) && Guard(s) && spare.Length1 == 3 && PlacedIn(s.table[s.i], spare.Length0)
    requires table[..] == s.table && Rows(spare) == s.spare && left == s.left && i == s.i
    modifies table, spare
    ensures var t := Offered(s, n); table[..] == t.table && Rows(spare) == t.spare && left' == t.left
  {
    left' := left;
    var c := table[i];
    assert c == s.table[i];
    var ok := HasAmpere(spare, c, left);
    if ok {
      Lower(spare, c);
      left' := if c.currentB == 0 && c.currentC == 0 then left - 1 else left - 3;
      table[i] := c.(consigna := c.consigna + 1);
    }
  }

  /** The body of the loop, in place. */
  method Iterate(table: array<Charger>, n: nat, i: nat, spare: array2<int>, left: nat, last: nat, ghost s: Handing)
    returns (i': nat, left': nat, last': nat, broken: bool)
    requires WellFormed(s, n) && Guard(s) && spare.Length1 == 3 && PlacedIn(s.table[s.i], spare.Length0)
    requires s == Handing(table[..], Rows(spare), left, i, last, false)
    modifies table, spare
    ensures Next(s, n) == Handing(table[..], Rows(spare), left', i', last', broken)
  {
    left' := Offer(table, n, i, spare, left, s);
    i', last', broken := if i + 1 >= n then 0 else i + 1, last, false;
    if i' == 0 {
      if last == left' { broken := true; } else { last' := Byte(left'); }
    }
  }

  /**
    The handout.  It ends if the loop on values does, with the values after k iterations: amperes
    are conserved, only eligible setpoints rise, no phase is taken below 1 A, and if something is
    left, at most 255 A, nobody could take it.
   */
  method HandOut(table: array<Charger>, n: nat, spare: array2<int>, total: nat) returns (left: nat, ghost k: nat)
    requires spare.Length1 == 3 && Startable(table[..], Rows(spare), total, n)
    requires Ends(Start(table[..], Rows(spare), total), n)
    requires forall i :: 0 <= i < n ==> PlacedIn(table[i], spare.Length0)
    modifies table, spare
    ensures var start := Start(old(table[..]), old(Rows(spare)), total);
      var t := After(start, n, k);
      && !Guard(t) && table[..] == t.table && Rows(spare) == t.spare && left == t.left
      && Conserves(start, t, n) && (left > 0 ==> NobodyTakes(t, n))
    ensures left <= 255
  {
    ghost var start := Start(table[..], Rows(spare), total);
    ghost var end: nat :| !Guard(After(start, n, end));
    left, k := total, 0;
    ghost var s := start;
    var i, last, broken := 0, Byte(total), false;
    while left > 0 && !broken
      invariant WellFormed(s, n) && s == After(start, n, k) && k <= end
      invariant s == Handing(table[..], Rows(spare), left, i, last, broken)
      decreases end - k
    {
      StillPlaced(start, n, k, spare.Length0);
      AfterNext(start, n, k);
      i, left, last, broken := Iterate(table, n, i, spare, left, last, s);
      k, s := k + 1, Next(s, n);
    }
    Outcome(start, n, total, k);
  }

  /** Started with at most 255 A, the handout always ends, with all of that. */
  method HandOutWithinByte(table: array<Charger>, n: nat, spare: array2<int>, total: nat)
    returns (left: nat, ghost t: Handing)
    requires spare.Length1 == 3 && Startable(table[..], Rows(spare), total, n) && total <= 255
    requires forall i :: 0 <= i < n ==> PlacedIn(table[i], spare.Length0)
    modifies table, spare
    ensures table[..] == t.table && Rows(spare) == t.spare && left == t.left && WellFormed(t, n)
    ensures Conserves(Start(old(table[..]), old(Rows(spare)), total), t, n) && (left > 0 ==> NobodyTakes(t, n))
  {
    EndsByAmount(table[..], Rows(spare), total, n);
    ghost var start, k := Start(table[..], Rows(spare), total), 0;
    left, k := HandOut(table, n, spare, total);
    t := After(start, n, k);
  }

  lemma StillPlaced(start: Handing, n: nat, k: nat, circuits: nat)
    requires WellFormed(start, n) && Guard(After(start, n, k))
    requires forall i :: 0 <= i < n ==> PlacedIn(start.table[i], circuits)
    ensures var s := After(start, n, k); PlacedIn(s.table[s.i], circuits)
  {
    ConservesNothing(start, n);
    AfterConserves(start, start, n, k);
    var s := After(start, n, k);
    assert s.table[s.i] == start.table[s.i].(consigna := s.table[s.i].consigna);
  }

  lemma Outcome(start: Handing, n: nat, r: nat, k: nat)
    requires InRound(start, n, r) && !Guard(After(start, n, k))
    ensures var t := After(start, n, k);
      t.left <= 255 && (t.left > 0 ==> NobodyTakes(t, n)) && Conserves(start, t, n)
  {
    var r' := AfterInRound(start, n, r, k);
    ConservesNothing(start, n);
    AfterConserves(start, start, n, k);
  }
}
