/**
  Tasks that are requested more than once: which of them the ordering loop queues.  Each visit that
  pulls a name forward turns the tasks of that name by one, so the answer is the number of pulls.
 */
module Repeats {
  import opened Lists
  import opened Tasks

  // ----- pulling turns the tasks of a name

  lemma {:induction false} NamedConcat(a: seq<Task>, b: seq<Task>, n: string)
    ensures Named(a + b, n) == Named(a, n) + Named(b, n)
  {
    if b == [] {
      assert a + b == a;
    } else {
      var less, last := b[..|b| - 1], b[|b| - 1];
      NamedConcat(a, less, n);
      assert (a + b)[..|a + b| - 1] == a + less && (a + b)[|a + b| - 1] == last;
      var one := if last.name == n then [last] else [];
      assert Named(a, n) + Named(less, n) + one == Named(a, n) + (Named(less, n) + one);
    }
  }

  function One(t: Task, n: string): seq<Task> { if t.name == n then [t] else [] }

  lemma NamedOne(t: Task, n: string)
    ensures Named([t], n) == One(t, n)
  {
    assert [t][..0] == [];
  }

  lemma NamedThree(a: seq<Task>, t: Task, b: seq<Task>, n: string)
    ensures Named(a + [t] + b, n) == Named(a, n) + One(t, n) + Named(b, n)
    ensures Named([t] + (a + b), n) == One(t, n) + (Named(a, n) + Named(b, n))
  {
    NamedOne(t, n);
    NamedConcat(a + [t], b, n);
    NamedConcat(a, [t], n);
    NamedConcat([t], a + b, n);
    NamedConcat(a, b, n);
  }

  /** How a task stands among those of a name, before and after it moves to the front. */
  lemma NamedParts(ts: seq<Task>, t: Task, n: string) returns (a: seq<Task>, b: seq<Task>)
    requires t in ts && Distinct(ts)
    ensures t !in a && t !in b
    ensures Named(ts, n) == a + One(t, n) + b && Named(ToFront(ts, t), n) == One(t, n) + (a + b)
  {
    var i := IndexOf(ts, t);
    var left, right := ts[..i], ts[i + 1..];
    Split(ts, t);
    SplitApart(ts, t);
    NamedThree(left, t, right, n);
    a, b := Named(left, n), Named(right, n);
    NotNamed(left, t, n);
    NotNamed(right, t, n);
  }

  lemma NotNamed(ts: seq<Task>, t: Task, n: string)
    requires t !in ts
    ensures t !in Named(ts, n)
  {
    NamedMembers(ts, n);
  }

  /** Moving the last task of a name to the front turns the tasks of that name by one. */
  lemma MoveLast(ts: seq<Task>, t: Task)
    requires t in ts && Distinct(ts) && LastNamed(ts, t.name) == t
    ensures Named(ToFront(ts, t), t.name) == Turned(Named(ts, t.name))
  {
    var a, b := NamedParts(ts, t, t.name);
    LastToFront(a, t, b);
  }

  /** Moving the first one changes nothing among them. */
  lemma MoveFirst(ts: seq<Task>, t: Task)
    requires t in ts && Distinct(ts) && Named(ts, t.name) != [] && Named(ts, t.name)[0] == t
    ensures Named(ToFront(ts, t), t.name) == Named(ts, t.name)
  {
    var a, b := NamedParts(ts, t, t.name);
    FirstToFront(a, t, b);
  }

  lemma MoveOther(ts: seq<Task>, t: Task, n: string)
    requires t in ts && Distinct(ts) && t.name != n
    ensures Named(ToFront(ts, t), n) == Named(ts, n)
  {
    var a, b := NamedParts(ts, t, n);
    assert a + [] + b == a + b && [] + (a + b) == a + b;
  }

  lemma AddOther(ts: seq<Task>, t: Task, n: string)
    requires t.name != n
    ensures Named([t] + ts, n) == Named(ts, n)
  {
    NamedConcat([t], ts, n);
    NamedOne(t, n);
  }

  function TurnedIf(ts: seq<Task>, turn: bool): seq<Task> { if turn then Turned(ts) else ts }

  /** One visit turns the tasks of every name it moves by one, however often the name is listed. */
  lemma {:induction false} PulledNamed(start: seq<Task>, run: seq<Task>, c: Command, k: nat, serial: nat, n: string)
    requires k <= Needs(c) && Apart(start, serial) && n in Names(start)
    ensures Named(Pulled(start, run, c, k, serial).0, n) == TurnedIf(Named(start, n), n in Moved(start, run, c, k))
  {
    if k > 0 {
      PulledNamed(start, run, c, k - 1, serial, n);
      var (ts, id) := Pulled(start, run, c, k - 1, serial);
      assert Distinct(ts) by { PulledApart(start, run, c, k - 1, serial); }
      PullOneNamed(start, ts, run, NeedAt(c, k - 1), id, n, n in Moved(start, run, c, k - 1));
    }
  }

  /** `before` says whether this turn has moved n already. */
  lemma PullOneNamed(start: seq<Task>, ts: seq<Task>, run: seq<Task>, d: Need, id: nat, n: string, before: bool)
    requires (forall t :: t in start ==> t in ts) && n in Names(start) && Distinct(ts)
    requires Named(ts, n) == TurnedIf(Named(start, n), before)
    ensures Named(PullOne(start, ts, run, d, id).0, n)
         == TurnedIf(Named(start, n), before || (d.name == n && Moves(start, run, d)))
  {
    if Moves(start, run, d) {
      if d.name !in Names(start) {
        AddOther(ts, Task(d.name, DEFAULT_OPTIONS, id), n);
      } else if d.name != n {
        MoveOther(ts, LastNamed(start, d.name), n);
      } else {
        MoveAgain(start, ts, n, before);
      }
    }
  }

  lemma NamedSome(ts: seq<Task>, n: string)
    requires n in Names(ts)
    ensures Named(ts, n) != []
  {
    NamedMembers(ts, n);
  }

  lemma MoveAgain(start: seq<Task>, ts: seq<Task>, n: string, before: bool)
    requires (forall t :: t in start ==> t in ts) && n in Names(start) && Distinct(ts)
    requires Named(ts, n) == TurnedIf(Named(start, n), before)
    ensures Named(ToFront(ts, LastNamed(start, n)), n) == Turned(Named(start, n))
  {
    var t, of := LastNamed(start, n), Named(start, n);
    NamedSome(start, n);
    assert t == of[|of| - 1] && t in ts;
    if before { MoveFirst(ts, t); } else { MoveLast(ts, t); }
  }

  // ----- counting pulls

  predicate Wants(c: Command, n: string) { exists k :: 0 <= k < Needs(c) && NeedAt(c, k).name == n }

  /** The visit pulled n forward. */
  predicate Pulls(v: Visit, commands: map<string, Command>, n: string) {
    v.name in commands && n !in v.queued && Wants(commands[v.name], n)
  }

  function PullCount(visits: seq<Visit>, commands: map<string, Command>, n: string): nat {
    if visits == [] then 0
    else PullCount(visits[..|visits| - 1], commands, n) + if Pulls(visits[|visits| - 1], commands, n) then 1 else 0
  }

  lemma PullCountSnoc(visits: seq<Visit>, v: Visit, commands: map<string, Command>, n: string)
    ensures PullCount(visits + [v], commands, n)
         == PullCount(visits, commands, n) + if Pulls(v, commands, n) then 1 else 0
  {
    assert (visits + [v])[..|visits|] == visits;
  }

  /** What the loop can rely on before each turn. */
  predicate Steady(requested: seq<Task>, s: State, commands: map<string, Command>, rank: map<string, nat>) {
    && Acyclic(commands, rank) && Names(requested) <= commands.Keys
    && Apart(s.tasks, s.serial) && Names(s.tasks) <= commands.Keys
    && Names(requested) <= Names(s.tasks) + Names(s.run)
  }

  lemma SteadyHead(requested: seq<Task>, s: State, commands: map<string, Command>, rank: map<string, nat>)
    requires Steady(requested, s, commands, rank) && s.tasks != []
    ensures s.tasks[0].name in Names(s.tasks) && s.tasks[0].name in commands
  {
    assert s.tasks[0] in s.tasks;
  }

  /** A visit moves a requested name exactly when it is counted as a pull. */
  lemma PullIsMove(s: State, commands: map<string, Command>, n: string)
    requires s.tasks != [] && s.tasks[0].name in commands && n in Names(s.tasks) + Names(s.run)
    ensures var c := commands[s.tasks[0].name];
      n in Moved(s.tasks, s.run, c, Needs(c)) <==> Pulls(Visit(s.tasks[0].name, Names(s.run)), commands, n)
  {
    var c := commands[s.tasks[0].name];
    MovedMeans(s.tasks, s.run, c, Needs(c), n);
    if Pulls(Visit(s.tasks[0].name, Names(s.run)), commands, n) {
      var k :| 0 <= k < Needs(c) && NeedAt(c, k).name == n;
      assert Moves(s.tasks, s.run, NeedAt(c, k));
    }
  }

  // ----- the tasks of a name are turned once for each pull

  /** The requested tasks of a name, turned once for each pull. */
  function Occurrences(requested: seq<Task>, visits: seq<Visit>, commands: map<string, Command>, n: string)
    : (r: seq<Task>)
    requires n in Names(requested)
    ensures |r| > 0
  {
    NamedMembers(requested, n);
    TurnedTimes(Named(requested, n), PullCount(visits, commands, n))
  }

  predicate Turning(requested: seq<Task>, s: State, commands: map<string, Command>, n: string)
    requires n in Names(requested)
  {
    && (n !in Names(s.run) ==> Named(s.tasks, n) == Occurrences(requested, s.visits, commands, n))
    && forall t :: t in s.run && t.name == n ==> t == Occurrences(requested, s.visits, commands, n)[0]
  }

  lemma VisitTurns(requested: seq<Task>, s: State, commands: map<string, Command>, rank: map<string, nat>, n: string)
    requires Steady(requested, s, commands, rank) && s.tasks != [] && s.tasks[0].name in commands
    requires n in Names(requested) && Turning(requested, s, commands, n) && !Ready(s, commands[s.tasks[0].name])
    ensures Turning(requested, Turn(s, commands), commands, n)
  {
    var c := commands[s.tasks[0].name];
    var v := Visit(s.tasks[0].name, Names(s.run));
    PullIsMove(s, commands, n);
    PullCountSnoc(s.visits, v, commands, n);
    if n !in Names(s.run) {
      PulledNamed(s.tasks, s.run, c, Needs(c), s.serial, n);
    } else {
      assert !Pulls(v, commands, n);
    }
  }

  lemma PopTurns(requested: seq<Task>, s: State, commands: map<string, Command>, n: string)
    requires s.tasks != [] && s.tasks[0].name in commands && Ready(s, commands[s.tasks[0].name])
    requires n in Names(requested) && Turning(requested, s, commands, n)
    ensures Turning(requested, Turn(s, commands), commands, n)
  {
    var h, rest := s.tasks[0], s.tasks[1..];
    PopKeeps(s, commands);
    assert s.tasks == [h] + rest;
    NamedConcat([h], rest, n);
    NamedOne(h, n);
  }

  // ----- nobody is found not ready twice

  predicate Has(done: set<string>, ahead: set<string>, d: string) { d in done || d in ahead }

  /** All that v needs is queued or ahead of it, and while v waits only lower ranks are ahead. */
  predicate Settled(s: State, commands: map<string, Command>, rank: map<string, nat>, v: string) {
    && v in commands && v in rank
    && (forall k :: 0 <= k < Needs(commands[v]) ==>
          var d := NeedAt(commands[v], k);
          d.strict || d.name in Names(s.tasks) ==> Has(Names(s.run), Ahead(s.tasks, v), d.name))
    && (v !in Names(s.run) ==> forall x :: x in Ahead(s.tasks, v) ==> x in rank && rank[x] < rank[v])
  }

  lemma SettledIsReady(s: State, commands: map<string, Command>, rank: map<string, nat>)
    requires s.tasks != [] && Settled(s, commands, rank, s.tasks[0].name)
    ensures Ready(s, commands[s.tasks[0].name])
  {
    var c := commands[s.tasks[0].name];
    forall n ensures n !in Moved(s.tasks, s.run, c, Needs(c)) {
      MovedMeans(s.tasks, s.run, c, Needs(c), n);
    }
  }

  /** Whatever a visit moves is a command of lower rank. */
  lemma MovedRanks(requested: seq<Task>, s: State, commands: map<string, Command>, rank: map<string, nat>, x: string)
    requires Steady(requested, s, commands, rank) && s.tasks != [] && s.tasks[0].name in commands
    requires x in Moved(s.tasks, s.run, commands[s.tasks[0].name], Needs(commands[s.tasks[0].name]))
    ensures x in commands && x in rank && rank[x] < rank[s.tasks[0].name] && x !in Names(s.run)
  {
    var c := commands[s.tasks[0].name];
    MovedMeans(s.tasks, s.run, c, Needs(c), x);
    var j :| 0 <= j < Needs(c) && NeedAt(c, j).name == x && Moves(s.tasks, s.run, NeedAt(c, j));
  }

  lemma VisitedSettles(requested: seq<Task>, s: State, commands: map<string, Command>, rank: map<string, nat>)
    requires Steady(requested, s, commands, rank) && s.tasks != [] && s.tasks[0].name in commands
    requires !Ready(s, commands[s.tasks[0].name])
    ensures Settled(Turn(s, commands), commands, rank, s.tasks[0].name)
  {
    var v := s.tasks[0].name;
    var c := commands[v];
    var moved := Moved(s.tasks, s.run, c, Needs(c));
    forall x | x in moved ensures x in rank && rank[x] < rank[v] { MovedRanks(requested, s, commands, rank, x); }
    PulledAhead(s.tasks, s.run, c, Needs(c), s.serial, v);
    PulledNames(s.tasks, s.run, c, Needs(c), s.serial);
    forall k | 0 <= k < Needs(c) && NeedAt(c, k).name !in Names(s.run)
      && (NeedAt(c, k).strict || NeedAt(c, k).name in Names(s.tasks))
      ensures NeedAt(c, k).name in moved
    {
      MovedMeans(s.tasks, s.run, c, Needs(c), NeedAt(c, k).name);
      assert Moves(s.tasks, s.run, NeedAt(c, k));
    }
  }

  lemma VisitKeepsSettled(requested: seq<Task>, s: State, commands: map<string, Command>, rank: map<string, nat>,
                          v: string)
    requires Steady(requested, s, commands, rank) && s.tasks != [] && s.tasks[0].name in commands
    requires !Ready(s, commands[s.tasks[0].name]) && Settled(s, commands, rank, v)
    ensures Settled(Turn(s, commands), commands, rank, v)
  {
    var u := s.tasks[0].name;
    var c := commands[u];
    var moved := Moved(s.tasks, s.run, c, Needs(c));
    if u == v { SettledIsReady(s, commands, rank); }
    forall x | x in moved ensures x in rank && rank[x] < rank[u] && x !in Names(s.run) {
      MovedRanks(requested, s, commands, rank, x);
    }
    assert v !in moved;
    PulledAhead(s.tasks, s.run, c, Needs(c), s.serial, v);
    PulledNames(s.tasks, s.run, c, Needs(c), s.serial);
  }

  lemma PopKeepsSettled(s: State, commands: map<string, Command>, rank: map<string, nat>, v: string)
    requires s.tasks != [] && s.tasks[0].name in commands && Ready(s, commands[s.tasks[0].name])
    requires Settled(s, commands, rank, v)
    ensures Settled(Turn(s, commands), commands, rank, v)
  {
    var h := s.tasks[0].name;
    PopKeeps(s, commands);
    if h == v {
      var c := commands[v];
      forall k | 0 <= k < Needs(c) && (NeedAt(c, k).strict || NeedAt(c, k).name in Names(s.tasks))
        ensures NeedAt(c, k).name in Names(s.run)
      {
        MovedMeans(s.tasks, s.run, c, Needs(c), NeedAt(c, k).name);
      }
    }
  }

  function Visited(visits: seq<Visit>): set<string> { set v | v in visits :: v.name }

  predicate NoneTwice(visits: seq<Visit>) {
    visits == [] ||
    (visits[|visits| - 1].name !in Visited(visits[..|visits| - 1]) && NoneTwice(visits[..|visits| - 1]))
  }

  /** No name was visited twice, and all that were visited are settled. */
  predicate OnceEach(s: State, commands: map<string, Command>, rank: map<string, nat>) {
    && NoneTwice(s.visits)
    && forall v :: v in Visited(s.visits) ==> Settled(s, commands, rank, v)
  }

  lemma TurnKeepsOnce(requested: seq<Task>, s: State, commands: map<string, Command>, rank: map<string, nat>)
    requires Steady(requested, s, commands, rank) && s.tasks != [] && s.tasks[0].name in commands
    requires OnceEach(s, commands, rank)
    ensures OnceEach(Turn(s, commands), commands, rank)
  {
    var t, u := Turn(s, commands), s.tasks[0].name;
    if Ready(s, commands[u]) {
      forall v | v in Visited(t.visits) ensures Settled(t, commands, rank, v) { PopKeepsSettled(s, commands, rank, v); }
    } else {
      if u in Visited(s.visits) { SettledIsReady(s, commands, rank); }
      assert u !in Visited(s.visits);
      assert t.visits[..|s.visits|] == s.visits;
      VisitedSnoc(s.visits, Visit(u, Names(s.run)));
      VisitedSettles(requested, s, commands, rank);
      forall v | v in Visited(t.visits) ensures Settled(t, commands, rank, v) {
        if v != u {
          assert v in Visited(s.visits);
          VisitKeepsSettled(requested, s, commands, rank, v);
        }
      }
    }
  }

  /** The commands that list n. */
  function Wanting(commands: map<string, Command>, n: string): set<string> {
    set u | u in commands && Wants(commands[u], n)
  }

  lemma VisitedSnoc(visits: seq<Visit>, v: Visit)
    ensures Visited(visits + [v]) == Visited(visits) + {v.name}
  {
    forall n ensures n in Visited(visits + [v]) <==> n in Visited(visits) || n == v.name {
      if n in Visited(visits) { var w :| w in visits && w.name == n; assert w in visits + [v]; }
      if n == v.name { assert v in visits + [v]; }
    }
  }

  lemma OneMoreCommon(a: set<string>, x: string, want: set<string>)
    requires x !in a
    ensures |(a + {x}) * want| == |a * want| + if x in want then 1 else 0
  {
    if x in want { assert (a + {x}) * want == a * want + {x}; } else { assert (a + {x}) * want == a * want; }
  }

  /** Names are pulled at most once by each command that lists them. */
  lemma {:induction false} PullsAtMost(visits: seq<Visit>, commands: map<string, Command>, n: string)
    requires NoneTwice(visits)
    ensures PullCount(visits, commands, n) <= |Visited(visits) * Wanting(commands, n)|
  {
    if visits != [] {
      var less, v := visits[..|visits| - 1], visits[|visits| - 1];
      PullsAtMost(less, commands, n);
      assert visits == less + [v];
      VisitedSnoc(less, v);
      OneMoreCommon(Visited(less), v.name, Wanting(commands, n));
    }
  }

  lemma Smaller(a: set<string>, b: set<string>)
    requires a <= b
    ensures |a| <= |b|
  {
    assert b == a + (b - a);
  }

  // ----- a name that was never pulled waits for all that was requested before it

  predicate InTurn(requested: seq<Task>, s: State, commands: map<string, Command>, n: string) {
    PullCount(s.visits, commands, n) == 0 ==>
      && (n !in Names(s.run) ==> Ahead(requested, n) <= Ahead(s.tasks, n) + Names(s.run))
      && forall k :: 0 <= k < |s.run| && s.run[k].name == n ==> Ahead(requested, n) <= Names(s.run[..k])
  }

  lemma VisitKeepsInTurn(requested: seq<Task>, s: State, commands: map<string, Command>, rank: map<string, nat>,
                         n: string)
    requires Steady(requested, s, commands, rank) && s.tasks != [] && s.tasks[0].name in commands
    requires n in Names(requested) && InTurn(requested, s, commands, n) && !Ready(s, commands[s.tasks[0].name])
    ensures InTurn(requested, Turn(s, commands), commands, n)
  {
    var c := commands[s.tasks[0].name];
    PullIsMove(s, commands, n);
    PullCountSnoc(s.visits, Visit(s.tasks[0].name, Names(s.run)), commands, n);
    PulledAhead(s.tasks, s.run, c, Needs(c), s.serial, n);
  }

  lemma PopKeepsInTurn(requested: seq<Task>, s: State, commands: map<string, Command>, n: string)
    requires s.tasks != [] && s.tasks[0].name in commands && Ready(s, commands[s.tasks[0].name])
    requires InTurn(requested, s, commands, n)
    ensures InTurn(requested, Turn(s, commands), commands, n)
  {
    var t := Turn(s, commands);
    PopKeeps(s, commands);
    assert t.run[..|s.run|] == s.run;
    forall k | 0 <= k < |s.run| ensures t.run[k] == s.run[k] && t.run[..k] == s.run[..k] { }
    forall k | 0 <= k < |t.run| && t.run[k].name == n && PullCount(t.visits, commands, n) == 0
      ensures Ahead(requested, n) <= Names(t.run[..k])
    {
      if k == |s.run| {
        assert t.run[k] == s.tasks[0] && n !in Names(s.run);
        assert Ahead(s.tasks, n) == {};
      }
    }
  }

  // ----- a name that nothing before it leads to is never pulled

  predicate LeadsBy(d: Need, requested: set<string>, b: string) { d.name == b && (d.strict || b in requested) }

  /** Queueing a needs b first: as a dependency, or as an order-dependency that was requested. */
  predicate Leads(commands: map<string, Command>, requested: set<string>, a: string, b: string) {
    a in commands && exists k :: 0 <= k < Needs(commands[a]) && LeadsBy(NeedAt(commands[a], k), requested, b)
  }

  predicate Path(commands: map<string, Command>, requested: set<string>, p: seq<string>) {
    p != [] && forall i :: 0 <= i < |p| - 1 ==> Leads(commands, requested, p[i], p[i + 1])
  }

  ghost predicate Reaches(commands: map<string, Command>, requested: set<string>, a: string, b: string) {
    exists p :: Path(commands, requested, p) && p[0] == a && p[|p| - 1] == b
  }

  /** Something requested before the first task named n leads to n. */
  ghost predicate Needed(commands: map<string, Command>, requested: seq<Task>, n: string) {
    exists a :: a in Ahead(requested, n) && Reaches(commands, Names(requested), a, n)
  }

  /** A set of names that nothing leads out of; n is outside, all lower ranks are inside. */
  ghost predicate Fence(commands: map<string, Command>, requested: set<string>, rank: map<string, nat>, n: string,
                        inside: set<string>) {
    && n !in inside
    && (forall a, b :: a in inside && Leads(commands, requested, a, b) ==> b in inside)
    && (n in rank ==> forall x :: x in rank && rank[x] < rank[n] ==> x in inside)
  }

  predicate Untouched(requested: seq<Task>, s: State, commands: map<string, Command>, n: string, inside: set<string>) {
    && PullCount(s.visits, commands, n) == 0
    && (n !in Names(s.run) ==> Ahead(s.tasks, n) <= inside && Names(s.tasks) - Names(requested) <= inside)
  }

  /** What a task inside the fence, or n itself, moves is inside. */
  lemma MovedInside(requested: seq<Task>, s: State, commands: map<string, Command>, rank: map<string, nat>, n: string,
                    inside: set<string>, x: string)
    requires Steady(requested, s, commands, rank) && s.tasks != [] && s.tasks[0].name in commands
    requires Fence(commands, Names(requested), rank, n, inside) && Untouched(requested, s, commands, n, inside)
    requires n !in Names(s.run)
    requires x in Moved(s.tasks, s.run, commands[s.tasks[0].name], Needs(commands[s.tasks[0].name]))
    ensures x in inside
  {
    var u := s.tasks[0].name;
    var c := commands[u];
    if u == n {
      MovedRanks(requested, s, commands, rank, x);
    } else {
      MovedMeans(s.tasks, s.run, c, Needs(c), x);
      var j :| 0 <= j < Needs(c) && NeedAt(c, j).name == x && Moves(s.tasks, s.run, NeedAt(c, j));
      assert u in Ahead(s.tasks, n);
      if NeedAt(c, j).strict || x in Names(requested) {
        assert LeadsBy(NeedAt(c, j), Names(requested), x);
        assert Leads(commands, Names(requested), u, x);
      }
    }
  }

  lemma VisitKeepsUntouched(requested: seq<Task>, s: State, commands: map<string, Command>, rank: map<string, nat>,
                            n: string, inside: set<string>)
    requires Steady(requested, s, commands, rank) && s.tasks != [] && s.tasks[0].name in commands
    requires n in Names(requested)
    requires Fence(commands, Names(requested), rank, n, inside) && Untouched(requested, s, commands, n, inside)
    requires !Ready(s, commands[s.tasks[0].name])
    ensures Untouched(requested, Turn(s, commands), commands, n, inside)
  {
    var c := commands[s.tasks[0].name];
    var v := Visit(s.tasks[0].name, Names(s.run));
    PullIsMove(s, commands, n);
    PullCountSnoc(s.visits, v, commands, n);
    if n in Names(s.run) {
      assert !Pulls(v, commands, n);
    } else {
      var moved := Moved(s.tasks, s.run, c, Needs(c));
      forall x | x in moved ensures x in inside { MovedInside(requested, s, commands, rank, n, inside, x); }
      PulledAhead(s.tasks, s.run, c, Needs(c), s.serial, n);
      PulledNames(s.tasks, s.run, c, Needs(c), s.serial);
    }
  }

  lemma PopKeepsUntouched(requested: seq<Task>, s: State, commands: map<string, Command>, n: string,
                          inside: set<string>)
    requires s.tasks != [] && s.tasks[0].name in commands && Ready(s, commands[s.tasks[0].name])
    requires Untouched(requested, s, commands, n, inside)
    ensures Untouched(requested, Turn(s, commands), commands, n, inside)
  {
    PopKeeps(s, commands);
  }

  lemma PathLonger(commands: map<string, Command>, requested: set<string>, a: string, b: string, d: string)
    requires Reaches(commands, requested, a, b) && Leads(commands, requested, b, d)
    ensures Reaches(commands, requested, a, d)
  {
    var p :| Path(commands, requested, p) && p[0] == a && p[|p| - 1] == b;
    var q := p + [d];
    assert Path(commands, requested, q) && q[0] == a && q[|q| - 1] == d;
  }

  ghost function Inside(commands: map<string, Command>, requested: seq<Task>, rank: map<string, nat>, n: string)
    : set<string>
  {
    set x | x in commands.Keys &&
      ((exists a :: a in Ahead(requested, n) && Reaches(commands, Names(requested), a, x))
       || (x in rank && n in rank && rank[x] < rank[n]))
  }

  lemma NotNeededIsFenced(commands: map<string, Command>, requested: seq<Task>, rank: map<string, nat>, n: string)
    requires Acyclic(commands, rank) && Names(requested) <= commands.Keys && n in Names(requested)
    requires !Needed(commands, requested, n)
    ensures Fence(commands, Names(requested), rank, n, Inside(commands, requested, rank, n))
    ensures Ahead(requested, n) <= Inside(commands, requested, rank, n)
  {
    var inside, names := Inside(commands, requested, rank, n), Names(requested);
    forall a, b | a in inside && Leads(commands, names, a, b) ensures b in inside {
      var k :| 0 <= k < Needs(commands[a]) && LeadsBy(NeedAt(commands[a], k), names, b);
      assert b in commands && rank[b] < rank[a];
      if r :| r in Ahead(requested, n) && Reaches(commands, names, r, a) { PathLonger(commands, names, r, a, b); }
    }
    AheadConcat(requested, [], n);
    forall a | a in Ahead(requested, n) ensures a in inside {
      assert Path(commands, names, [a]);
      assert Reaches(commands, names, a, a);
    }
  }

  // ----- the outcome

  /** All that holds between turns about the requested name n. */
  ghost predicate Tracked(requested: seq<Task>, s: State, commands: map<string, Command>, rank: map<string, nat>,
                          n: string)
    requires n in Names(requested)
  {
    && Turning(requested, s, commands, n)
    && InTurn(requested, s, commands, n)
    && (!Needed(commands, requested, n) ==> Untouched(requested, s, commands, n, Inside(commands, requested, rank, n)))
  }

  lemma BeginTracked(requested: seq<Task>, serial: nat, commands: map<string, Command>, rank: map<string, nat>,
                     n: string)
    requires Acyclic(commands, rank) && Names(requested) <= commands.Keys && n in Names(requested)
    ensures Tracked(requested, Begin(requested, serial), commands, rank, n)
  {
    if !Needed(commands, requested, n) { NotNeededIsFenced(commands, requested, rank, n); }
  }

  lemma TurnKeepsTracked(requested: seq<Task>, s: State, commands: map<string, Command>, rank: map<string, nat>,
                         n: string)
    requires Steady(requested, s, commands, rank) && s.tasks != [] && s.tasks[0].name in commands
    requires n in Names(requested) && Tracked(requested, s, commands, rank, n)
    ensures Tracked(requested, Turn(s, commands), commands, rank, n)
  {
    var inside := Inside(commands, requested, rank, n);
    if Ready(s, commands[s.tasks[0].name]) {
      PopTurns(requested, s, commands, n);
      PopKeepsInTurn(requested, s, commands, n);
      if !Needed(commands, requested, n) { PopKeepsUntouched(requested, s, commands, n, inside); }
    } else {
      VisitTurns(requested, s, commands, rank, n);
      VisitKeepsInTurn(requested, s, commands, rank, n);
      if !Needed(commands, requested, n) {
        NotNeededIsFenced(commands, requested, rank, n);
        VisitKeepsUntouched(requested, s, commands, rank, n, inside);
      }
    }
  }
}
