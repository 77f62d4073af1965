/**
  The task ordering loop of the build tool's command line: a list of requested tasks is turned
  into a queue in which dependencies come first.
 */
module Tasks {
  import opened Lists

  /** A task as built from a word of the command line; `id` stands for the identity of the object. */
  datatype Task = Task(name: string, options: nat, id: nat)

  datatype Command = Command(dependencies: seq<string>, orderDependencies: seq<string>)

  /** A dependency, or an order-dependency, which matters only while it waits in the list. */
  datatype Need = Need(name: string, strict: bool)

  const DEFAULT_OPTIONS: nat := 0

  function Names(ts: seq<Task>): set<string> { set t | t in ts :: t.name }

  function Needs(c: Command): nat { |c.dependencies| + |c.orderDependencies| }

  /** Dependencies first, then order-dependencies, in the order in which the loop looks at them. */
  function NeedAt(c: Command, k: nat): Need
    requires k < Needs(c)
  {
    if k < |c.dependencies| then Need(c.dependencies[k], true)
    else Need(c.orderDependencies[k - |c.dependencies|], false)
  }

  /** Every dependency is a command, and `rank` shows there is no cycle. */
  predicate Acyclic(commands: map<string, Command>, rank: map<string, nat>) {
    && rank.Keys == commands.Keys
    && forall n, k :: n in commands && 0 <= k < Needs(commands[n]) ==>
         var d := NeedAt(commands[n], k);
         (d.strict ==> d.name in commands) && (d.name in commands ==> rank[d.name] < rank[n])
  }

  // ----- one turn of the loop

  /** The list with the given member popped and put in front. */
  function ToFront(ts: seq<Task>, t: Task): (r: seq<Task>)
    requires t in ts
    ensures |r| == |ts| && r[0] == t
    ensures forall x :: x in r <==> x in ts
  {
    var i := IndexOf(ts, t);
    Split(ts, t);
    [t] + (ts[..i] + ts[i + 1..])
  }

  /** The tasks of one name, in order. */
  function Named(ts: seq<Task>, n: string): seq<Task> {
    if ts == [] then []
    else Named(ts[..|ts| - 1], n) + if ts[|ts| - 1].name == n then [ts[|ts| - 1]] else []
  }

  lemma {:induction false} NamedMembers(ts: seq<Task>, n: string)
    ensures forall t :: t in Named(ts, n) <==> t in ts && t.name == n
    ensures Named(ts, n) == [] <==> n !in Names(ts)
  {
    if ts != [] {
      var less, last := ts[..|ts| - 1], ts[|ts| - 1];
      NamedMembers(less, n);
      assert ts == less + [last];
      assert last.name == n ==> Named(ts, n)[|Named(ts, n)| - 1] == last;
      NamesSnoc(less, last);
    }
  }

  /** The task that a dictionary built from the list holds for a name: the last one. */
  function LastNamed(ts: seq<Task>, n: string): (t: Task)
    requires n in Names(ts)
    ensures t in ts && t.name == n
  {
    NamedMembers(ts, n);
    Named(ts, n)[|Named(ts, n)| - 1]
  }

  /** A need that is not queued yet moves to the front, or is added there if it must be there. */
  predicate Moves(start: seq<Task>, run: seq<Task>, d: Need) {
    d.name !in Names(run) && (d.strict || d.name in Names(start))
  }

  /** The effect of one need on the list `ts`, `start` being the list at the beginning of the turn. */
  function PullOne(start: seq<Task>, ts: seq<Task>, run: seq<Task>, d: Need, id: nat): (r: (seq<Task>, nat))
    requires forall t :: t in start ==> t in ts
    ensures forall t :: t in ts ==> t in r.0
    ensures id <= r.1
  {
    if !Moves(start, run, d) then (ts, id)
    else if d.name in Names(start) then (ToFront(ts, LastNamed(start, d.name)), id)
    else ([Task(d.name, DEFAULT_OPTIONS, id)] + ts, id + 1)
  }

  /** The list after the first k needs of its first task have been looked at. */
  function Pulled(start: seq<Task>, run: seq<Task>, c: Command, k: nat, serial: nat): (r: (seq<Task>, nat))
    requires k <= Needs(c)
    ensures forall t :: t in start ==> t in r.0
    ensures serial <= r.1
  {
    if k == 0 then (start, serial)
    else
      var (ts, id) := Pulled(start, run, c, k - 1, serial);
      PullOne(start, ts, run, NeedAt(c, k - 1), id)
  }

  /** The names that the first k needs move or add. */
  function Moved(start: seq<Task>, run: seq<Task>, c: Command, k: nat): set<string>
    requires k <= Needs(c)
  {
    if k == 0 then {}
    else
      var d := NeedAt(c, k - 1);
      Moved(start, run, c, k - 1) + if Moves(start, run, d) then {d.name} else {}
  }

  lemma {:induction false} MovedMeans(start: seq<Task>, run: seq<Task>, c: Command, k: nat, n: string)
    requires k <= Needs(c)
    ensures n in Moved(start, run, c, k) <==>
      exists j :: 0 <= j < k && NeedAt(c, j).name == n && Moves(start, run, NeedAt(c, j))
  {
    if k > 0 { MovedMeans(start, run, c, k - 1, n); }
  }

  /** A turn that found the first task not ready, and what was queued by then. */
  datatype Visit = Visit(name: string, queued: set<string>)

  /** The loop's variables, and what it has done: what waited when each task was queued, and its visits. */
  datatype State = State(tasks: seq<Task>, run: seq<Task>, serial: nat, waiting: seq<set<string>>, visits: seq<Visit>)

  predicate Ready(s: State, c: Command) { Moved(s.tasks, s.run, c, Needs(c)) == {} }

  function Turn(s: State, commands: map<string, Command>): State
    requires s.tasks != [] && s.tasks[0].name in commands
  {
    var task := s.tasks[0];
    var c := commands[task.name];
    if !Ready(s, c) then
      var (ts, id) := Pulled(s.tasks, s.run, c, Needs(c), s.serial);
      s.(tasks := ts, serial := id, visits := s.visits + [Visit(task.name, Names(s.run))])
    else if task.name in Names(s.run) then s.(tasks := s.tasks[1..])
    else s.(tasks := s.tasks[1..], run := s.run + [task], waiting := s.waiting + [Names(s.tasks)])
  }

  function Begin(requested: seq<Task>, serial: nat): State { State(requested, [], serial, [], []) }

  // ----- names

  lemma NamesConcat(a: seq<Task>, b: seq<Task>)
    ensures Names(a + b) == Names(a) + Names(b)
  {
    forall n ensures n in Names(a + b) <==> n in Names(a) || n in Names(b) {
      if n in Names(a + b) { var t :| t in a + b && t.name == n; }
      if n in Names(a) { var t :| t in a && t.name == n; assert t in a + b; }
      if n in Names(b) { var t :| t in b && t.name == n; assert t in a + b; }
    }
  }

  lemma NamesOne(t: Task)
    ensures Names([t]) == {t.name}
  {
    assert t in [t];
  }

  lemma NamesSnoc(ts: seq<Task>, t: Task)
    ensures Names(ts + [t]) == Names(ts) + {t.name}
  {
    NamesConcat(ts, [t]);
    NamesOne(t);
  }

  lemma NamesCons(t: Task, ts: seq<Task>)
    ensures Names([t] + ts) == Names(ts) + {t.name}
  {
    NamesConcat([t], ts);
    NamesOne(t);
  }

  lemma NamesRest(ts: seq<Task>)
    requires ts != []
    ensures Names(ts) == Names(ts[1..]) + {ts[0].name}
  {
    NamesCons(ts[0], ts[1..]);
    assert ts == [ts[0]] + ts[1..];
  }

  lemma PopKeeps(s: State, commands: map<string, Command>)
    requires s.tasks != [] && s.tasks[0].name in commands && Ready(s, commands[s.tasks[0].name])
    ensures var t := Turn(s, commands);
      && Names(s.tasks) == Names(t.tasks) + {s.tasks[0].name}
      && Names(t.run) == Names(s.run) + {s.tasks[0].name}
  {
    NamesRest(s.tasks);
    NamesSnoc(s.run, s.tasks[0]);
  }

  // ----- what pulling does to the list

  lemma {:induction false} PulledNames(start: seq<Task>, run: seq<Task>, c: Command, k: nat, serial: nat)
    requires k <= Needs(c)
    ensures Names(Pulled(start, run, c, k, serial).0) == Names(start) + Moved(start, run, c, k)
  {
    if k > 0 {
      PulledNames(start, run, c, k - 1, serial);
      var (ts, id) := Pulled(start, run, c, k - 1, serial);
      PullOneNames(start, ts, run, NeedAt(c, k - 1), id);
    }
  }

  lemma PullOneNames(start: seq<Task>, ts: seq<Task>, run: seq<Task>, d: Need, id: nat)
    requires forall t :: t in start ==> t in ts
    ensures Names(PullOne(start, ts, run, d, id).0) == Names(ts) + if Moves(start, run, d) then {d.name} else {}
  {
    if Moves(start, run, d) {
      if d.name in Names(start) {
      } else {
        NamesCons(Task(d.name, DEFAULT_OPTIONS, id), ts);
      }
    }
  }

  /** The task in front was moved there, and the list grows only by names that are new to it. */
  lemma {:induction false} PulledShape(start: seq<Task>, run: seq<Task>, c: Command, k: nat, serial: nat)
    requires k <= Needs(c)
    ensures var r, moved := Pulled(start, run, c, k, serial).0, Moved(start, run, c, k);
      && (moved != {} ==> r != [] && r[0].name in moved)
      && (moved <= Names(start) ==> |r| == |start|)
      && moved !! Names(run)
  {
    if k > 0 { PulledShape(start, run, c, k - 1, serial); }
  }

  /** Tasks are told apart, and numbers not yet used are free. */
  predicate Apart(ts: seq<Task>, serial: nat) {
    Distinct(ts) && forall t :: t in ts ==> t.id < serial
  }

  lemma ToFrontApart(ts: seq<Task>, t: Task)
    requires t in ts && Distinct(ts)
    ensures Distinct(ToFront(ts, t))
  {
    DistinctMove(ts, IndexOf(ts, t));
  }

  lemma {:induction false} PulledApart(start: seq<Task>, run: seq<Task>, c: Command, k: nat, serial: nat)
    requires k <= Needs(c) && Apart(start, serial)
    ensures var (ts, id) := Pulled(start, run, c, k, serial); Apart(ts, id)
  {
    if k > 0 {
      PulledApart(start, run, c, k - 1, serial);
      var (ts, id) := Pulled(start, run, c, k - 1, serial);
      PullOneApart(start, ts, run, NeedAt(c, k - 1), id);
    }
  }

  lemma PullOneApart(start: seq<Task>, ts: seq<Task>, run: seq<Task>, d: Need, id: nat)
    requires (forall t :: t in start ==> t in ts) && Apart(ts, id)
    ensures var (r, next) := PullOne(start, ts, run, d, id); Apart(r, next)
  {
    if Moves(start, run, d) && d.name in Names(start) { ToFrontApart(ts, LastNamed(start, d.name)); }
  }

  /** Added tasks have default options and a name that was not in the list. */
  lemma {:induction false} PulledOrigin(start: seq<Task>, run: seq<Task>, c: Command, k: nat, serial: nat, t: Task)
    requires k <= Needs(c) && t in Pulled(start, run, c, k, serial).0
    ensures t in start || (t.options == DEFAULT_OPTIONS && t.name !in Names(start) && t.name !in Names(run))
  {
    if k > 0 && t in Pulled(start, run, c, k - 1, serial).0 { PulledOrigin(start, run, c, k - 1, serial, t); }
  }

  // ----- what stands ahead of a name

  /** The names that come before the first task named n; all names if there is none. */
  function Ahead(ts: seq<Task>, n: string): set<string> {
    if ts == [] || ts[0].name == n then {} else {ts[0].name} + Ahead(ts[1..], n)
  }

  lemma {:induction false} AheadConcat(a: seq<Task>, b: seq<Task>, n: string)
    ensures Ahead(a + b, n) == if n in Names(a) then Ahead(a, n) else Names(a) + Ahead(b, n)
    ensures n !in Ahead(a, n) && Ahead(a, n) <= Names(a)
  {
    if a == [] {
      assert a + b == b;
    } else {
      AheadConcat(a[1..], b, n);
      NamesRest(a);
      assert (a + b)[1..] == a[1..] + b;
    }
  }

  lemma AheadParts(a: seq<Task>, t: Task, b: seq<Task>, n: string)
    requires t.name != n
    ensures Ahead([t] + (a + b), n) == Ahead(a + ([t] + b), n) + {t.name}
  {
    AheadConcat(a, [t] + b, n);
    AheadConcat(a, b, n);
    AheadCons(t, a + b, n);
    AheadCons(t, b, n);
  }

  /** Moving a task to the front puts its name ahead of every other name. */
  lemma AheadToFront(ts: seq<Task>, t: Task, n: string)
    requires t in ts
    ensures Ahead(ToFront(ts, t), n) == if t.name == n then {} else Ahead(ts, n) + {t.name}
  {
    if t.name != n {
      var i := IndexOf(ts, t);
      Split(ts, t);
      assert ts == ts[..i] + ([t] + ts[i + 1..]);
      AheadParts(ts[..i], t, ts[i + 1..], n);
      assert ToFront(ts, t) == [t] + (ts[..i] + ts[i + 1..]);
    }
  }

  lemma AheadCons(t: Task, ts: seq<Task>, n: string)
    ensures Ahead([t] + ts, n) == if t.name == n then {} else {t.name} + Ahead(ts, n)
  {
    assert ([t] + ts)[1..] == ts;
  }

  /** All that was moved is ahead of every other name, and nothing else is ahead of what was moved. */
  lemma {:induction false} PulledAhead(start: seq<Task>, run: seq<Task>, c: Command, k: nat, serial: nat, n: string)
    requires k <= Needs(c)
    ensures var r, moved := Pulled(start, run, c, k, serial).0, Moved(start, run, c, k);
      if n in moved then Ahead(r, n) <= moved else Ahead(r, n) == Ahead(start, n) + moved
  {
    if k > 0 {
      PulledAhead(start, run, c, k - 1, serial, n);
      var (ts, id) := Pulled(start, run, c, k - 1, serial);
      PullOneAhead(start, ts, run, NeedAt(c, k - 1), id, n);
    }
  }

  lemma PullOneAhead(start: seq<Task>, ts: seq<Task>, run: seq<Task>, d: Need, id: nat, n: string)
    requires forall t :: t in start ==> t in ts
    ensures var r := PullOne(start, ts, run, d, id).0;
      Ahead(r, n) == if !Moves(start, run, d) then Ahead(ts, n) else if d.name == n then {} else Ahead(ts, n) + {d.name}
  {
    if Moves(start, run, d) {
      if d.name in Names(start) {
        AheadToFront(ts, LastNamed(start, d.name), n);
      } else {
        AheadCons(Task(d.name, DEFAULT_OPTIONS, id), ts, n);
      }
    }
  }
}
