/**
  The loop that throws out the newest chargers while the share of each is under
  6 A, with its two byte counters.
 */
module Eviction {
  import opened Chargers

  const FLOOR: nat := 6

  /** State of the loop; `gone` collects the rows it has thrown out. */
  datatype Loop = Loop(t: seq<Charger>, conex: nat, tri: nat, share: nat, gone: set<nat>)

  /** Index and order of the newest evictable charger among the first n rows, else (0, 0). */
  function Newest(t: seq<Charger>, n: nat): (r: (nat, nat))
    requires n <= |t|
    ensures r.1 == 0 ==> r.0 == 0
    ensures r.1 > 0 ==> r.0 < n && Evictable(t[r.0]) && t[r.0].order == r.1
    ensures forall j :: 0 <= j < n && Evictable(t[j]) ==> t[j].order <= r.1
  {
    if n == 0 then (0, 0)
    else
      var (i, o) := Newest(t, n - 1);
      if Evictable(t[n - 1]) && o < t[n - 1].order then (n - 1, t[n - 1].order) else (i, o)
  }

  /** Rows the search for the newest charger can still find. */
  function Findable(t: seq<Charger>, n: nat): nat
    requires n <= |t|
  {
    if n == 0 then 0
    else Findable(t, n - 1) + if Evictable(t[n - 1]) && t[n - 1].order > 0 then 1 else 0
  }

  /** Subtractions of 1 or 3 modulo 256 until the counter shows 0, wrapping at most twice. */
  function StepsToZero(tri: nat, three: bool): nat
    requires tri < 256
  {
    if !three then tri
    else if tri % 3 == 0 then tri / 3
    else if tri % 3 == 2 then (tri + 256) / 3
    else (tri + 512) / 3
  }

  function Stride(c: Charger): nat {
    if c.trifasico then 3 else 1
  }

  predicate Ready(l: Loop) {
    0 < |l.t| && l.tri < 256
  }

  /** One turn of the loop: throw out the newest charger (row 0 if there is none). */
  function Turn(l: Loop, limit: nat): (r: Loop)
    requires Ready(l)
    ensures Ready(r) && |r.t| == |l.t|
  {
    var j := Newest(l.t, |l.t|).0;
    var tri := Byte(l.tri - Stride(l.t[j]));
    Loop(l.t[j := Evicted(l.t[j])], Byte(l.conex - 1), tri,
         if tri > 0 then limit / tri else l.share, l.gone + {j})
  }

  predicate Stops(l: Loop) {
    l.share >= FLOOR || l.tri == 0
  }

  lemma {:induction false} FindableUpdate(t: seq<Charger>, n: nat, j: nat, c: Charger)
    requires n <= |t| && j < |t|
    requires !Evictable(c)
    ensures Findable(t[j := c], n) ==
            Findable(t, n) - if j < n && Evictable(t[j]) && t[j].order > 0 then 1 else 0
  {
    if n > 0 { FindableUpdate(t, n - 1, j, c); }
  }

  /** One stride brings a counter that is not 0 nearer to 0, even when it wraps. */
  lemma StrideDown(tri: nat, three: bool)
    requires 0 < tri < 256
    ensures StepsToZero(Byte(tri - if three then 3 else 1), three) < StepsToZero(tri, three)
  {
  }

  /** Either the search has fewer rows left to find, or the counter is one stride nearer to 0. */
  lemma TurnProgress(l: Loop, limit: nat)
    requires Ready(l) && !Stops(l)
    ensures var r := Turn(l, limit);
      || Findable(r.t, |r.t|) < Findable(l.t, |l.t|)
      || (Findable(r.t, |r.t|) == Findable(l.t, |l.t|) && r.t[0].trifasico == l.t[0].trifasico
          && StepsToZero(r.tri, r.t[0].trifasico) < StepsToZero(l.tri, l.t[0].trifasico))
  {
    var (j, o) := Newest(l.t, |l.t|);
    FindableUpdate(l.t, |l.t|, j, Evicted(l.t[j]));
    if o == 0 { StrideDown(l.tri, l.t[0].trifasico); }
  }

  /** The whole loop.  It is total: no table and no counter value makes it run for ever. */
  function Evict(l: Loop, limit: nat): (r: Loop)
    requires Ready(l)
    ensures Stops(r) && Ready(r) && |r.t| == |l.t|
    decreases Findable(l.t, |l.t|), StepsToZero(l.tri, l.t[0].trifasico)
  {
    if Stops(l) then l else
      TurnProgress(l, limit);
      Evict(Turn(l, limit), limit)
  }

  // ----- newest first

  /** The rows thrown out so far are no older than any row the search could still find. */
  predicate NewestFirst(start: seq<Charger>, l: Loop) {
    && |l.t| == |start|
    && (forall i :: 0 <= i < |start| ==> l.t[i].order == start[i].order)
    && forall i: nat, j: nat ::
         (i < |start| && j in l.gone && Evictable(l.t[i]) && l.t[i].order > 0) ==>
           j < |start| && start[i].order <= start[j].order
  }

  lemma {:induction false} EvictIsNewestFirst(start: seq<Charger>, l: Loop, limit: nat)
    requires Ready(l) && NewestFirst(start, l)
    ensures NewestFirst(start, Evict(l, limit))
    decreases Findable(l.t, |l.t|), StepsToZero(l.tri, l.t[0].trifasico)
  {
    if !Stops(l) {
      TurnProgress(l, limit);
      EvictIsNewestFirst(start, Turn(l, limit), limit);
    }
  }

  // ----- regular runs

  /** The weight counted in the first n rows, leaving out those in `gone`. */
  function Live(t: seq<Charger>, n: nat, gone: set<nat>): nat
    requires n <= |t|
  {
    if n == 0 then 0
    else Live(t, n - 1, gone) + if n - 1 !in gone && Counted(t[n - 1]) then Weight(t[n - 1]) else 0
  }

  function LiveCount(t: seq<Charger>, n: nat, gone: set<nat>): nat
    requires n <= |t|
  {
    if n == 0 then 0
    else LiveCount(t, n - 1, gone) + if n - 1 !in gone && Counted(t[n - 1]) then 1 else 0
  }

  lemma {:induction false} LiveRemove(t: seq<Charger>, n: nat, gone: set<nat>, j: nat)
    requires n <= |t| && j < |t| && j !in gone && Counted(t[j])
    ensures Live(t, n, gone + {j}) == Live(t, n, gone) - if j < n then Weight(t[j]) else 0
    ensures LiveCount(t, n, gone + {j}) == LiveCount(t, n, gone) - if j < n then 1 else 0
  {
    if n > 0 { LiveRemove(t, n - 1, gone, j); }
  }

  lemma {:induction false} LiveBounds(t: seq<Charger>, n: nat, gone: set<nat>)
    requires n <= |t|
    ensures LiveCount(t, n, gone) <= Live(t, n, gone) <= 3 * n
    ensures LiveCount(t, n, gone) == 0 ==> forall i: nat :: i < n && Counted(t[i]) ==> i in gone
    ensures LiveCount(t, n, gone) == 0 ==> Live(t, n, gone) == 0
  {
    if n > 0 { LiveBounds(t, n - 1, gone); }
  }

  /** The three-phase flag of every evictable row agrees with its measured currents. */
  predicate FlagsMatch(t: seq<Charger>) {
    forall i :: 0 <= i < |t| && Evictable(t[i]) ==> (t[i].trifasico <==> ThreePhase(t[i]))
  }

  /** The run never falls back to row 0 for want of a charger to throw out. */
  predicate NoFallback(l: Loop, limit: nat)
    requires Ready(l)
    decreases Findable(l.t, |l.t|), StepsToZero(l.tri, l.t[0].trifasico)
  {
    Stops(l) || (TurnProgress(l, limit); Newest(l.t, |l.t|).1 > 0 && NoFallback(Turn(l, limit), limit))
  }

  /** Rows thrown out are in their evicted form, the others are untouched. */
  predicate TracksRows(start: seq<Charger>, l: Loop) {
    && |l.t| == |start| <= MAX_GROUP_SIZE
    && (forall i: nat :: i in l.gone ==> i < |start| && Evictable(start[i]) && l.t[i] == Evicted(start[i]))
    && (forall i: nat :: i < |start| && i !in l.gone ==> l.t[i] == start[i])
  }

  /** What holds throughout a run without fallback that started on the table `start`. */
  predicate Tracks(start: seq<Charger>, l: Loop, limit: nat) {
    && TracksRows(start, l)
    && FlagsMatch(start)
    && l.tri == Live(start, |start|, l.gone)
    && l.conex == LiveCount(start, |start|, l.gone)
    && (l.tri > 0 ==> l.share == limit / l.tri)
  }

  /** Taking a row out brings both counters down to the count of the rest, without wrapping. */
  lemma CountsDown(start: seq<Charger>, gone: set<nat>, j: nat)
    requires |start| <= MAX_GROUP_SIZE && FlagsMatch(start) && j < |start| && j !in gone && Evictable(start[j])
    ensures Byte(Live(start, |start|, gone) - Stride(start[j])) == Live(start, |start|, gone + {j})
    ensures Byte(LiveCount(start, |start|, gone) - 1) == LiveCount(start, |start|, gone + {j})
  {
    LiveRemove(start, |start|, gone, j);
    LiveBounds(start, |start|, gone);
    LiveBounds(start, |start|, gone + {j});
    assert Stride(start[j]) == Weight(start[j]);
  }

  lemma TurnTracks(start: seq<Charger>, l: Loop, limit: nat)
    requires Ready(l) && !Stops(l) && Tracks(start, l, limit) && Newest(l.t, |l.t|).1 > 0
    ensures Tracks(start, Turn(l, limit), limit)
  {
    var j := Newest(l.t, |l.t|).0;
    CountsDown(start, l.gone, j);
  }

  lemma {:induction false} EvictTracks(start: seq<Charger>, l: Loop, limit: nat)
    requires Ready(l) && Tracks(start, l, limit) && NoFallback(l, limit)
    ensures Tracks(start, Evict(l, limit), limit)
    decreases Findable(l.t, |l.t|), StepsToZero(l.tri, l.t[0].trifasico)
  {
    if !Stops(l) {
      TurnProgress(l, limit);
      TurnTracks(start, l, limit);
      EvictTracks(start, Turn(l, limit), limit);
    }
  }

  /** Row j is the oldest one thrown out since, and without that the others would not have 6 A each. */
  predicate LastOut(start: seq<Charger>, since: set<nat>, gone: set<nat>, limit: nat, j: nat) {
    && j < |start| && j in gone && j !in since
    && limit < 6 * Live(start, |start|, gone - {j})
    && forall i: nat :: i < |start| && i in gone && i !in since ==> start[j].order <= start[i].order
  }

  lemma FirstOut(start: seq<Charger>, l: Loop, limit: nat, j: nat)
    requires Ready(l) && !Stops(l) && Tracks(start, l, limit) && j == Newest(l.t, |l.t|).0 && Newest(l.t, |l.t|).1 > 0
    ensures LastOut(start, l.gone, l.gone + {j}, limit, j)
  {
    assert l.gone + {j} - {j} == l.gone;
    DivAtLeast(limit, l.tri, FLOOR);
  }

  /** No more are thrown out than need be: the one thrown out last, the oldest, had to go. */
  lemma {:induction false} EvictIsMinimal(start: seq<Charger>, l: Loop, limit: nat) returns (j: nat)
    requires Ready(l) && Tracks(start, l, limit) && NoFallback(l, limit)
    ensures Evict(l, limit).gone == l.gone || LastOut(start, l.gone, Evict(l, limit).gone, limit, j)
    decreases Findable(l.t, |l.t|), StepsToZero(l.tri, l.t[0].trifasico)
  {
    j := Newest(l.t, |l.t|).0;
    if !Stops(l) {
      TurnProgress(l, limit);
      TurnTracks(start, l, limit);
      EvictTracks(start, Turn(l, limit), limit);
      FirstOut(start, l, limit, j);
      var k := EvictIsMinimal(start, Turn(l, limit), limit);
      if Evict(l, limit).gone != l.gone + {j} { j := k; }
    }
  }

  /** Weight of the counted rows that the search can never throw out. */
  function Stuck(t: seq<Charger>, n: nat): nat
    requires n <= |t|
  {
    if n == 0 then 0
    else Stuck(t, n - 1)
         + if Counted(t[n - 1]) && !(Evictable(t[n - 1]) && t[n - 1].order > 0) then Weight(t[n - 1]) else 0
  }

  lemma {:induction false} StuckStays(t: seq<Charger>, n: nat, gone: set<nat>)
    requires n <= |t|
    requires forall i: nat :: i in gone ==> i < |t| && Evictable(t[i]) && t[i].order > 0
    ensures Stuck(t, n) <= Live(t, n, gone)
    ensures (forall i: nat :: i < n && Evictable(t[i]) && t[i].order > 0 ==> i in gone) ==>
      Stuck(t, n) == Live(t, n, gone)
  {
    if n > 0 { StuckStays(t, n - 1, gone); }
  }

  lemma Products(x: nat, y: nat, b: nat)
    requires x <= y
    ensures x * b <= y * b
  {
    assert y * b == x * b + (y - x) * b;
  }

  lemma Quotients(a: nat, b: nat)
    requires b > 0
    ensures (a / b) * b <= a < (a / b + 1) * b
  {
    assert a == (a / b) * b + a % b;
  }

  lemma DivAtLeast(a: nat, b: nat, k: nat)
    requires b > 0
    ensures a / b >= k <==> a >= k * b
    ensures (a / b) * b <= a
  {
    Quotients(a, b);
    if a / b >= k { Products(k, a / b, b); } else { Products(a / b + 1, k, b); }
  }

  /**
    Exactly when a run is free of fallbacks, told from the table before the loop starts: what can
    never be thrown out either weighs nothing or leaves every share at 6 A.
   */
  lemma {:induction false} NoFallbackIff(start: seq<Charger>, l: Loop, limit: nat)
    requires Ready(l) && Tracks(start, l, limit)
    requires forall i: nat :: i in l.gone ==> start[i].order > 0
    ensures NoFallback(l, limit) <==> Stuck(start, |start|) == 0 || limit >= FLOOR * Stuck(start, |start|)
    decreases Findable(l.t, |l.t|), StepsToZero(l.tri, l.t[0].trifasico)
  {
    var n, stuck := |start|, Stuck(start, |start|);
    StuckStays(start, n, l.gone);
    if l.tri > 0 { DivAtLeast(limit, l.tri, FLOOR); }
    if !Stops(l) {
      TurnProgress(l, limit);
      var (j, o) := Newest(l.t, n);
      if o > 0 {
        TurnTracks(start, l, limit);
        NoFallbackIff(start, Turn(l, limit), limit);
      } else {
        assert forall i: nat :: i < n && Evictable(start[i]) && start[i].order > 0 ==> i in l.gone by {
          forall i: nat | i < n && Evictable(start[i]) && start[i].order > 0 ensures i in l.gone {
            assert !Evictable(l.t[i]) || l.t[i].order <= o;
          }
        }
      }
    }
  }
}
