/**
  What the ordering loop promises: an order in which every task can run, made of the tasks that
  were requested, and which of several tasks of one name it contains.
 */
module TaskOrder {
  import opened Lists
  import opened Tasks
  import opened Repeats

  // ----- promises about the queue

  /** No name twice, and dependencies before dependents. */
  predicate Ordered(run: seq<Task>, commands: map<string, Command>) {
    && (forall i, j :: 0 <= i < j < |run| ==> run[i].name != run[j].name)
    && forall k :: 0 <= k < |run| ==>
         && run[k].name in commands
         && forall d :: d in commands[run[k].name].dependencies ==> d in Names(run[..k])
  }

  /** When task k was queued, none of its order-dependencies was waiting, unless already queued. */
  predicate OrderRespected(run: seq<Task>, waiting: seq<set<string>>, commands: map<string, Command>) {
    && |waiting| == |run|
    && forall k :: 0 <= k < |run| ==>
         && run[k].name in commands
         && forall d :: d in commands[run[k].name].orderDependencies && d in waiting[k] ==> d in Names(run[..k])
  }

  /** A requested name is at every moment either waiting or queued. */
  predicate StillWanted(requested: set<string>, run: seq<Task>, waiting: seq<set<string>>) {
    |waiting| == |run| && forall k :: 0 <= k < |run| ==> requested <= waiting[k] + Names(run[..k])
  }

  /** Every task was requested, or is an added dependency nobody requested, with default options. */
  predicate FromRequests(requested: seq<Task>, ts: seq<Task>) {
    forall t :: t in ts ==> t in requested || (t.options == DEFAULT_OPTIONS && t.name !in Names(requested))
  }

  /** Order-dependencies that were requested themselves always come first. */
  lemma RequestedOrderDependenciesFirst(requested: set<string>, run: seq<Task>, waiting: seq<set<string>>,
                                        commands: map<string, Command>, k: nat, d: string)
    requires OrderRespected(run, waiting, commands) && StillWanted(requested, run, waiting)
    requires k < |run| && d in commands[run[k].name].orderDependencies && d in requested
    ensures d in Names(run[..k])
  {
    assert d in waiting[k] + Names(run[..k]);
  }

  /** Queueing the next task keeps the promises about the queue. */
  lemma QueueNext(run: seq<Task>, waiting: seq<set<string>>, t: Task, now: set<string>, requested: set<string>,
                  commands: map<string, Command>)
    requires Ordered(run, commands) && OrderRespected(run, waiting, commands) && StillWanted(requested, run, waiting)
    requires t.name in commands && t.name !in Names(run)
    requires forall d :: d in commands[t.name].dependencies ==> d in Names(run)
    requires forall d :: d in commands[t.name].orderDependencies && d in now ==> d in Names(run)
    requires requested <= now + Names(run)
    ensures Ordered(run + [t], commands) && OrderRespected(run + [t], waiting + [now], commands)
    ensures StillWanted(requested, run + [t], waiting + [now])
  {
    var r := run + [t];
    assert forall k :: 0 <= k <= |run| ==> r[..k] == run[..k];
    assert run[..|run|] == run;
    forall i | 0 <= i < |run| ensures run[i].name != t.name { assert run[i] in run; }
  }

  /** What the ordering loop keeps. */
  predicate Scheduling(requested: seq<Task>, s: State, commands: map<string, Command>) {
    && Ordered(s.run, commands) && OrderRespected(s.run, s.waiting, commands)
    && StillWanted(Names(requested), s.run, s.waiting)
    && FromRequests(requested, s.tasks) && FromRequests(requested, s.run)
  }

  lemma ReadyMeans(s: State, c: Command)
    requires Ready(s, c)
    ensures forall d :: d in c.dependencies ==> d in Names(s.run)
    ensures forall d :: d in c.orderDependencies && d in Names(s.tasks) ==> d in Names(s.run)
  {
    forall d | d in c.dependencies ensures d in Names(s.run) {
      var k :| 0 <= k < |c.dependencies| && c.dependencies[k] == d;
      assert NeedAt(c, k) == Need(d, true);
      MovedMeans(s.tasks, s.run, c, Needs(c), d);
    }
    forall d | d in c.orderDependencies && d in Names(s.tasks) ensures d in Names(s.run) {
      var k :| 0 <= k < |c.orderDependencies| && c.orderDependencies[k] == d;
      assert NeedAt(c, |c.dependencies| + k) == Need(d, false);
      MovedMeans(s.tasks, s.run, c, Needs(c), d);
    }
  }

  lemma PopSchedules(requested: seq<Task>, s: State, commands: map<string, Command>, rank: map<string, nat>)
    requires Steady(requested, s, commands, rank) && s.tasks != [] && s.tasks[0].name in commands
    requires Scheduling(requested, s, commands) && Ready(s, commands[s.tasks[0].name])
    ensures Scheduling(requested, Turn(s, commands), commands)
  {
    var h := s.tasks[0];
    ReadyMeans(s, commands[h.name]);
    if h.name !in Names(s.run) {
      QueueNext(s.run, s.waiting, h, Names(s.tasks), Names(requested), commands);
    }
  }

  lemma VisitSchedules(requested: seq<Task>, s: State, commands: map<string, Command>, rank: map<string, nat>)
    requires Steady(requested, s, commands, rank) && s.tasks != [] && s.tasks[0].name in commands
    requires Scheduling(requested, s, commands) && !Ready(s, commands[s.tasks[0].name])
    ensures Scheduling(requested, Turn(s, commands), commands)
  {
    var c := commands[s.tasks[0].name];
    forall t | t in Turn(s, commands).tasks
      ensures t in requested || (t.options == DEFAULT_OPTIONS && t.name !in Names(requested))
    {
      PulledOrigin(s.tasks, s.run, c, Needs(c), s.serial, t);
    }
  }

  lemma TurnKeepsSteady(requested: seq<Task>, s: State, commands: map<string, Command>, rank: map<string, nat>)
    requires Steady(requested, s, commands, rank) && s.tasks != [] && s.tasks[0].name in commands
    ensures Steady(requested, Turn(s, commands), commands, rank)
  {
    var c := commands[s.tasks[0].name];
    if Ready(s, c) {
      PopKeeps(s, commands);
      DistinctRest(s.tasks);
    } else {
      PulledApart(s.tasks, s.run, c, Needs(c), s.serial);
      PulledNames(s.tasks, s.run, c, Needs(c), s.serial);
      forall x | x in Moved(s.tasks, s.run, c, Needs(c)) ensures x in commands {
        MovedRanks(requested, s, commands, rank, x);
      }
    }
  }

  /** What holds between turns. */
  ghost predicate Between(requested: seq<Task>, s: State, commands: map<string, Command>, rank: map<string, nat>) {
    && Steady(requested, s, commands, rank) && Scheduling(requested, s, commands) && OnceEach(s, commands, rank)
    && forall n :: n in Names(requested) ==> Tracked(requested, s, commands, rank, n)
  }

  lemma TurnKeepsBetween(requested: seq<Task>, s: State, commands: map<string, Command>, rank: map<string, nat>)
    requires Between(requested, s, commands, rank) && s.tasks != [] && s.tasks[0].name in commands
    ensures Between(requested, Turn(s, commands), commands, rank)
  {
    TurnKeepsSteady(requested, s, commands, rank);
    TurnKeepsOnce(requested, s, commands, rank);
    if Ready(s, commands[s.tasks[0].name]) {
      PopSchedules(requested, s, commands, rank);
    } else {
      VisitSchedules(requested, s, commands, rank);
    }
    forall n | n in Names(requested) ensures Tracked(requested, Turn(s, commands), commands, rank, n) {
      TurnKeepsTracked(requested, s, commands, rank, n);
    }
  }

  // ----- nothing is queued without need

  /** Every name was requested or is a dependency of another one. */
  predicate Justified(names: set<string>, requested: set<string>, commands: map<string, Command>) {
    forall n {:trigger HasCause(names, requested, commands, n)} ::
      n in names ==> HasCause(names, requested, commands, n)
  }

  predicate HasCause(names: set<string>, requested: set<string>, commands: map<string, Command>, n: string) {
    n in requested || exists u :: u in names && u in commands && n in commands[u].dependencies
  }

  lemma MovedJustified(s: State, commands: map<string, Command>, x: string)
    requires s.tasks != [] && s.tasks[0].name in commands
    requires var c := commands[s.tasks[0].name]; x in Moved(s.tasks, s.run, c, Needs(c)) && x !in Names(s.tasks)
    ensures s.tasks[0].name in Names(s.tasks) && x in commands[s.tasks[0].name].dependencies
  {
    var c := commands[s.tasks[0].name];
    MovedMeans(s.tasks, s.run, c, Needs(c), x);
    assert s.tasks[0] in s.tasks;
  }

  lemma TurnKeepsJustified(requested: set<string>, s: State, commands: map<string, Command>)
    requires s.tasks != [] && s.tasks[0].name in commands
    requires Justified(Names(s.tasks) + Names(s.run), requested, commands)
    ensures var t := Turn(s, commands); Justified(Names(t.tasks) + Names(t.run), requested, commands)
  {
    var c, t := commands[s.tasks[0].name], Turn(s, commands);
    var before, after := Names(s.tasks) + Names(s.run), Names(t.tasks) + Names(t.run);
    if Ready(s, c) {
      PopKeeps(s, commands);
      assert after == before;
    } else {
      PulledNames(s.tasks, s.run, c, Needs(c), s.serial);
      forall n | n in after ensures HasCause(after, requested, commands, n) {
        if n !in before {
          MovedJustified(s, commands, n);
        } else if n !in requested {
          assert HasCause(before, requested, commands, n);
          var u :| u in before && u in commands && n in commands[u].dependencies;
          assert u in after;
        }
      }
    }
  }

  /** With a task, its dependencies. */
  predicate Closed(names: set<string>, commands: map<string, Command>) {
    forall n, d :: n in names && n in commands && d in commands[n].dependencies ==> d in names
  }

  function Above(names: set<string>, rank: map<string, nat>, n: string): set<string> {
    set u | u in names && u in rank && n in rank && rank[u] > rank[n]
  }

  lemma {:induction false} JustifiedIn(names: set<string>, requested: set<string>, commands: map<string, Command>,
                                       rank: map<string, nat>, others: set<string>, n: string)
    requires Acyclic(commands, rank) && Justified(names, requested, commands)
    requires requested <= others && Closed(others, commands) && n in names
    ensures n in others
    decreases |Above(names, rank, n)|
  {
    if n !in requested {
      assert HasCause(names, requested, commands, n);
      var u :| u in names && u in commands && n in commands[u].dependencies;
      var c := commands[u];
      var k :| 0 <= k < |c.dependencies| && c.dependencies[k] == n;
      assert NeedAt(c, k) == Need(n, true);
      assert Above(names, rank, u) < Above(names, rank, n) by { assert u in Above(names, rank, n); }
      SmallerSet(Above(names, rank, u), Above(names, rank, n));
      JustifiedIn(names, requested, commands, rank, others, u);
    }
  }

  lemma SmallerSet<T>(a: set<T>, b: set<T>)
    requires a < b
    ensures |a| < |b|
  {
    assert |b| == |a| + |b - a| by { assert a + (b - a) == b && a !! (b - a); }
    var x :| x in b && x !in a;
    assert x in b - a;
  }

  lemma OrderedIsClosed(run: seq<Task>, commands: map<string, Command>)
    requires Ordered(run, commands)
    ensures Closed(Names(run), commands)
  {
    forall n, d | n in Names(run) && n in commands && d in commands[n].dependencies ensures d in Names(run) {
      var k := IndexNamed(run, n);
      var t :| t in run[..k] && t.name == d;
      assert t in run;
    }
  }

  /**
    The queued names are the requested ones and what they depend on, and no others: the least set
    that contains the requests and, with a task, its dependencies.
   */
  lemma QueueIsLeast(requested: set<string>, run: seq<Task>, commands: map<string, Command>, rank: map<string, nat>)
    requires Acyclic(commands, rank) && Ordered(run, commands) && requested <= Names(run)
    requires Justified(Names(run), requested, commands)
    ensures Closed(Names(run), commands)
    ensures forall others :: requested <= others && Closed(others, commands) ==> Names(run) <= others
  {
    OrderedIsClosed(run, commands);
    forall others | requested <= others && Closed(others, commands) ensures Names(run) <= others {
      forall n | n in Names(run) ensures n in others {
        JustifiedIn(Names(run), requested, commands, rank, others, n);
      }
    }
  }

  // ----- the loop

  /** The first k needs have been looked at: what the list is then, and whether nothing was moved. */
  predicate LookedAt(start: seq<Task>, run: seq<Task>, c: Command, k: nat, serial: nat, ts: seq<Task>, id: nat,
                     none: bool)
    requires k <= Needs(c)
  {
    (ts, id) == Pulled(start, run, c, k, serial) && (none <==> Moved(start, run, c, k) == {})
  }

  /** Moves or adds the dependencies of the first task that are not queued yet. */
  method PullDependencies(tasks: seq<Task>, run: seq<Task>, c: Command, serial: nat)
    returns (tasks': seq<Task>, serial': nat, ready: bool)
    ensures LookedAt(tasks, run, c, |c.dependencies|, serial, tasks', serial', ready)
  {
    tasks', serial', ready := tasks, serial, true;
    for k := 0 to |c.dependencies|
      invariant LookedAt(tasks, run, c, k, serial, tasks', serial', ready)
    {
      tasks', serial', ready := PullNext(tasks, tasks', run, c, k, ready, serial, serial');
    }
  }

  method PullNext(start: seq<Task>, ts: seq<Task>, run: seq<Task>, c: Command, k: nat, none: bool, ghost serial: nat,
                  id: nat)
    returns (ts': seq<Task>, id': nat, ready: bool)
    requires k < |c.dependencies| && LookedAt(start, run, c, k, serial, ts, id, none)
    ensures LookedAt(start, run, c, k + 1, serial, ts', id', ready)
  {
    assert NeedAt(c, k) == Need(c.dependencies[k], true);
    var moved;
    ts', id', moved := PullDependency(start, ts, run, c.dependencies[k], id);
    ready := none && !moved;
  }

  method PullDependency(start: seq<Task>, ts: seq<Task>, run: seq<Task>, dep: string, id: nat)
    returns (ts': seq<Task>, id': nat, moved: bool)
    requires forall t :: t in start ==> t in ts
    ensures (ts', id') == PullOne(start, ts, run, Need(dep, true), id) && moved == Moves(start, run, Need(dep, true))
  {
    ts', id', moved := ts, id, false;
    if dep !in Names(run) {
      if dep in Names(start) {
        ts' := ToFront(ts, LastNamed(start, dep));
      } else {
        ts', id' := [Task(dep, DEFAULT_OPTIONS, id)] + ts, id + 1;
      }
      moved := true;
    }
  }

  method PullOrderDependency(start: seq<Task>, ts: seq<Task>, run: seq<Task>, dep: string, ghost id: nat)
    returns (ts': seq<Task>, moved: bool)
    requires forall t :: t in start ==> t in ts
    ensures (ts', id) == PullOne(start, ts, run, Need(dep, false), id) && moved == Moves(start, run, Need(dep, false))
  {
    ts', moved := ts, false;
    if dep in Names(start) && dep !in Names(run) {
      ts', moved := ToFront(ts, LastNamed(start, dep)), true;
    }
  }

  /** Moves the order-dependencies that are waiting in the list to the front. */
  method PullOrderDependencies(tasks: seq<Task>, pulled: seq<Task>, run: seq<Task>, c: Command, none: bool,
                               ghost serial: nat, ghost serial': nat)
    returns (tasks': seq<Task>, ready: bool)
    requires LookedAt(tasks, run, c, |c.dependencies|, serial, pulled, serial', none)
    ensures LookedAt(tasks, run, c, Needs(c), serial, tasks', serial', ready)
  {
    tasks', ready := pulled, none;
    for k := |c.dependencies| to Needs(c)
      invariant LookedAt(tasks, run, c, k, serial, tasks', serial', ready)
    {
      tasks', ready := PullNextOrder(tasks, tasks', run, c, k, ready, serial, serial');
    }
  }

  method PullNextOrder(start: seq<Task>, ts: seq<Task>, run: seq<Task>, c: Command, k: nat, none: bool,
                       ghost serial: nat, ghost id: nat)
    returns (ts': seq<Task>, ready: bool)
    requires |c.dependencies| <= k < Needs(c) && LookedAt(start, run, c, k, serial, ts, id, none)
    ensures LookedAt(start, run, c, k + 1, serial, ts', id, ready)
  {
    var dep := c.orderDependencies[k - |c.dependencies|];
    assert NeedAt(c, k) == Need(dep, false);
    var moved;
    ts', moved := PullOrderDependency(start, ts, run, dep, id);
    ready := none && !moved;
  }

  /** The measure by which a turn gets nearer to the end. */
  lemma TurnProgress(requested: seq<Task>, s: State, commands: map<string, Command>, rank: map<string, nat>)
    requires Steady(requested, s, commands, rank) && s.tasks != [] && s.tasks[0].name in commands
    ensures var t, left := Turn(s, commands), commands.Keys - Names(s.tasks) - Names(s.run);
      var left' := commands.Keys - Names(t.tasks) - Names(t.run);
      || left' < left
      || (left' == left && |t.tasks| < |s.tasks|)
      || (&& left' == left && |t.tasks| == |s.tasks| && t.tasks != []
          && t.tasks[0].name in rank && rank[t.tasks[0].name] < rank[s.tasks[0].name])
  {
    var c := commands[s.tasks[0].name];
    if Ready(s, c) {
      PopKeeps(s, commands);
      assert s.tasks[0] in s.tasks;
    } else {
      var moved := Moved(s.tasks, s.run, c, Needs(c));
      PulledNames(s.tasks, s.run, c, Needs(c), s.serial);
      PulledShape(s.tasks, s.run, c, Needs(c), s.serial);
      forall x | x in moved ensures x in commands && x in rank && rank[x] < rank[s.tasks[0].name] {
        MovedRanks(requested, s, commands, rank, x);
      }
      if !(moved <= Names(s.tasks)) {
        var x :| x in moved && x !in Names(s.tasks);
        assert x in commands.Keys - Names(s.tasks) - Names(s.run);
      }
    }
  }

  /** All that the loop promises of its answer. */
  ghost predicate Answers(requested: seq<Task>, commands: map<string, Command>, run: seq<Task>,
                          waiting: seq<set<string>>, visits: seq<Visit>) {
    && Ordered(run, commands) && Names(requested) <= Names(run) && FromRequests(requested, run)
    && OrderRespected(run, waiting, commands) && StillWanted(Names(requested), run, waiting)
    && NoneTwice(visits)
    && forall n :: n in Names(requested) ==>
         && (forall t :: t in run && t.name == n ==> t == Occurrences(requested, visits, commands, n)[0])
         && (PullCount(visits, commands, n) == 0 <==> !Needed(commands, requested, n))
  }

  /**
    The ordering loop.  It terminates, queues each name once, covers every request, puts
    dependencies first, and never queues a task while an order-dependency of it is waiting.  Of the
    requested tasks of a name it queues the first, turned back by one for each visit that pulled the
    name forward; and it pulls a name exactly when something requested before it leads to it.
   */
  method OrderTasks(requested: seq<Task>, commands: map<string, Command>, serial: nat, ghost rank: map<string, nat>)
    returns (run: seq<Task>, ghost waiting: seq<set<string>>, ghost visits: seq<Visit>)
    requires Acyclic(commands, rank) && Names(requested) <= commands.Keys && Apart(requested, serial)
    ensures Ordered(run, commands) && Names(requested) <= Names(run) && FromRequests(requested, run)
    ensures forall n :: n in Names(requested) ==> Announced(requested, commands, run, n)
    ensures Answers(requested, commands, run, waiting, visits)
    ensures Closed(Names(run), commands)
    ensures forall others :: Names(requested) <= others && Closed(others, commands) ==> Names(run) <= others
  {
    var tasks, next := requested, serial;
    run := [];
    ghost var s := Begin(requested, serial);
    forall n | n in Names(requested) ensures Tracked(requested, s, commands, rank, n) {
      BeginTracked(requested, serial, commands, rank, n);
    }
    while tasks != []
      invariant Between(requested, s, commands, rank) && (tasks, run, next) == (s.tasks, s.run, s.serial)
      invariant Justified(Names(tasks) + Names(run), Names(requested), commands)
      decreases commands.Keys - Names(tasks) - Names(run), |tasks|,
                if tasks != [] && tasks[0].name in rank then rank[tasks[0].name] else 0
    {
      SteadyHead(requested, s, commands, rank);
      TurnProgress(requested, s, commands, rank);
      TurnKeepsBetween(requested, s, commands, rank);
      TurnKeepsJustified(Names(requested), s, commands);
      var task := tasks[0];
      var pulled, next', ready := PullDependencies(tasks, run, commands[task.name], next);
      var tasks', ready' := PullOrderDependencies(tasks, pulled, run, commands[task.name], ready, next, next');
      if ready' {
        tasks := tasks[1..];
        if task.name !in Names(run) { run := run + [task]; }
      } else {
        tasks, next := tasks', next';
      }
      s := Turn(s, commands);
    }
    waiting, visits := s.waiting, s.visits;
    assert Names(tasks) + Names(run) == Names(run);
    QueueIsLeast(Names(requested), run, commands, rank);
    forall n | n in Names(requested) ensures PullCount(visits, commands, n) == 0 <==> !Needed(commands, requested, n) {
      PulledIffNeeded(requested, s, commands, rank, n);
    }
    forall n | n in Names(requested) ensures Announced(requested, commands, run, n) {
      AnnouncementHolds(requested, commands, run, waiting, visits, n);
    }
  }

  /**
    What a caller can tell beforehand of the announcement that of repeated tasks the first is
    executed: it is true of a name that nothing requested before leads to; and of a repeated name
    that at most one command lists, only then.
   */
  ghost predicate Announced(requested: seq<Task>, commands: map<string, Command>, run: seq<Task>, n: string) {
    var of := Named(requested, n);
    && of != []
    && (!Needed(commands, requested, n) ==> of[0] in run)
    && (|Wanting(commands, n)| <= 1 && Needed(commands, requested, n) ==>
      of[|of| - 1] in run && (|of| > 1 ==> of[0] !in run))
  }

  lemma AnnouncementHolds(requested: seq<Task>, commands: map<string, Command>, run: seq<Task>,
                          waiting: seq<set<string>>, visits: seq<Visit>, n: string)
    requires Distinct(requested) && Answers(requested, commands, run, waiting, visits) && n in Names(requested)
    ensures Announced(requested, commands, run, n)
  {
    NamedMembers(requested, n);
    if !Needed(commands, requested, n) {
      FirstRuns(requested, commands, run, waiting, visits, n);
    } else if |Wanting(commands, n)| <= 1 {
      AnnouncementIff(requested, commands, run, waiting, visits, n);
    }
  }

  // ----- pulled exactly when needed

  /** Whatever a queued task leads to was queued before it. */
  lemma {:induction false} PathPrecedes(requested: set<string>, run: seq<Task>, waiting: seq<set<string>>,
                                        commands: map<string, Command>, p: seq<string>, k: nat)
    requires Ordered(run, commands) && OrderRespected(run, waiting, commands) && StillWanted(requested, run, waiting)
    requires Path(commands, requested, p) && k < |run| && run[k].name == p[0]
    ensures |p| == 1 || p[|p| - 1] in Names(run[..k])
    decreases |p|
  {
    if |p| > 1 {
      var d := p[1];
      LeadPrecedes(requested, run, waiting, commands, k, d);
      var j := IndexNamed(run[..k], d);
      var rest := p[1..];
      assert Path(commands, requested, rest) by {
        forall i | 0 <= i < |rest| - 1 ensures Leads(commands, requested, rest[i], rest[i + 1]) {
          assert Leads(commands, requested, p[i + 1], p[i + 2]);
        }
      }
      PathPrecedes(requested, run, waiting, commands, rest, j);
      assert rest[|rest| - 1] == p[|p| - 1];
      if |rest| > 1 {
        var t :| t in run[..j] && t.name == p[|p| - 1];
        assert t in run[..k];
      }
    }
  }

  lemma IndexNamed(ts: seq<Task>, n: string) returns (j: nat)
    requires n in Names(ts)
    ensures j < |ts| && ts[j].name == n
  {
    var t :| t in ts && t.name == n;
    j :| j < |ts| && ts[j] == t;
  }

  lemma LeadPrecedes(requested: set<string>, run: seq<Task>, waiting: seq<set<string>>, commands: map<string, Command>,
                     k: nat, d: string)
    requires Ordered(run, commands) && OrderRespected(run, waiting, commands) && StillWanted(requested, run, waiting)
    requires k < |run| && Leads(commands, requested, run[k].name, d)
    ensures d in Names(run[..k])
  {
    var c := commands[run[k].name];
    var j :| 0 <= j < Needs(c) && LeadsBy(NeedAt(c, j), requested, d);
    if j < |c.dependencies| {
      assert d in c.dependencies;
    } else {
      assert d in c.orderDependencies;
      RequestedOrderDependenciesFirst(requested, run, waiting, commands, k, d);
    }
  }

  lemma PulledIffNeeded(requested: seq<Task>, s: State, commands: map<string, Command>, rank: map<string, nat>,
                        n: string)
    requires Between(requested, s, commands, rank) && s.tasks == [] && n in Names(requested)
    ensures PullCount(s.visits, commands, n) == 0 <==> !Needed(commands, requested, n)
  {
    assert Tracked(requested, s, commands, rank, n);
    if PullCount(s.visits, commands, n) == 0 && Needed(commands, requested, n) {
      var a :| a in Ahead(requested, n) && Reaches(commands, Names(requested), a, n);
      var p :| Path(commands, Names(requested), p) && p[0] == a && p[|p| - 1] == n;
      AheadConcat(requested, [], n);
      var k := IndexNamed(s.run, n);
      assert a in Names(s.run[..k]);
      var j := IndexNamed(s.run[..k], a);
      PathPrecedes(Names(requested), s.run, s.waiting, commands, p, j);
      var i := IndexNamed(s.run[..j], n);
      assert false;
    }
  }

  // ----- which of several tasks of a name is executed

  lemma {:induction false} NamedDistinct(ts: seq<Task>, n: string)
    requires Distinct(ts)
    ensures Distinct(Named(ts, n))
  {
    if ts != [] {
      var less, last := ts[..|ts| - 1], ts[|ts| - 1];
      assert ts == less + [last];
      assert multiset(ts) == multiset(less) + multiset{last};
      assert Distinct(less) by {
        forall x | x in less ensures multiset(less)[x] == 1 { assert x in ts; }
      }
      NamedDistinct(less, n);
      NamedMembers(less, n);
      assert multiset(ts)[last] == 1;
    }
  }

  lemma DistinctRest(ts: seq<Task>)
    requires ts != [] && Distinct(ts)
    ensures Distinct(ts[1..])
  {
    assert ts == [ts[0]] + ts[1..];
    assert multiset(ts) == multiset{ts[0]} + multiset(ts[1..]);
    forall x | x in ts[1..] ensures multiset(ts[1..])[x] == 1 { assert x in ts; }
  }

  lemma QueuedTask(requested: seq<Task>, commands: map<string, Command>, run: seq<Task>, waiting: seq<set<string>>,
                   visits: seq<Visit>, n: string)
    requires Answers(requested, commands, run, waiting, visits) && n in Names(requested) && Named(requested, n) != []
    ensures var of := Named(requested, n);
      var t := of[HeadIndex(|of|, PullCount(visits, commands, n))];
      t in run && forall u :: u in run && u.name == n ==> u == t
  {
    TurnedAt(Named(requested, n), PullCount(visits, commands, n), 0);
    var k := IndexNamed(run, n);
    assert run[k] in run;
  }

  /** Which of the requested tasks of a name is in the queue. */
  lemma QueuedOne(requested: seq<Task>, commands: map<string, Command>, run: seq<Task>, waiting: seq<set<string>>,
                  visits: seq<Visit>, n: string, i: nat)
    requires Distinct(requested) && Answers(requested, commands, run, waiting, visits)
    requires n in Names(requested) && i < |Named(requested, n)|
    ensures var of := Named(requested, n);
      of[i] in run <==> i == HeadIndex(|of|, PullCount(visits, commands, n))
  {
    var of, h := Named(requested, n), HeadIndex(|Named(requested, n)|, PullCount(visits, commands, n));
    QueuedTask(requested, commands, run, waiting, visits, n);
    if i != h {
      NamedDistinct(requested, n);
      DistinctAt(of, if i < h then i else h, if i < h then h else i);
      NamedMembers(requested, n);
      assert of[i] in of;
    }
  }

  /** The first of the requested tasks of a name is executed exactly when whole turns of pulls brought it back. */
  lemma FirstRunsIff(requested: seq<Task>, commands: map<string, Command>, run: seq<Task>, waiting: seq<set<string>>,
                     visits: seq<Visit>, n: string)
    requires Distinct(requested) && Answers(requested, commands, run, waiting, visits) && n in Names(requested)
    ensures Named(requested, n) != []
    ensures Named(requested, n)[0] in run <==>
      exists q: nat :: PullCount(visits, commands, n) == q * |Named(requested, n)|
  {
    NamedMembers(requested, n);
    QueuedOne(requested, commands, run, waiting, visits, n, 0);
    FirstAgain(|Named(requested, n)|, PullCount(visits, commands, n));
  }

  /** If nothing requested before a name leads to it, its first task is executed, as announced. */
  lemma FirstRuns(requested: seq<Task>, commands: map<string, Command>, run: seq<Task>, waiting: seq<set<string>>,
                  visits: seq<Visit>, n: string)
    requires Distinct(requested) && Answers(requested, commands, run, waiting, visits)
    requires n in Names(requested) && !Needed(commands, requested, n)
    ensures Named(requested, n) != [] && Named(requested, n)[0] in run
  {
    NamedMembers(requested, n);
    QueuedOne(requested, commands, run, waiting, visits, n, 0);
  }

  /**
    For a repeated name that at most one command lists, the announcement that the first is executed
    is true exactly when nothing requested before it leads to it; otherwise the last is executed.
   */
  lemma AnnouncementIff(requested: seq<Task>, commands: map<string, Command>, run: seq<Task>, waiting: seq<set<string>>,
                        visits: seq<Visit>, n: string)
    requires Distinct(requested) && Answers(requested, commands, run, waiting, visits)
    requires n in Names(requested) && |Wanting(commands, n)| <= 1
    ensures var of := Named(requested, n);
      && of != []
      && (Needed(commands, requested, n) ==> of[|of| - 1] in run)
      && (|of| > 1 ==> (of[0] in run <==> !Needed(commands, requested, n)))
  {
    var of, pulls := Named(requested, n), PullCount(visits, commands, n);
    NamedMembers(requested, n);
    PullsAtMost(visits, commands, n);
    Smaller(Visited(visits) * Wanting(commands, n), Wanting(commands, n));
    QueuedOne(requested, commands, run, waiting, visits, n, 0);
    QueuedOne(requested, commands, run, waiting, visits, n, |of| - 1);
    assert HeadIndex(|of|, 1) == (if HeadIndex(|of|, 0) == 0 then |of| - 1 else 0);
  }

  lemma ThreeTasks(task: Task, first: Task, again: Task)
    requires first.name == again.name != task.name
    ensures Names([task, first, again]) == {task.name, first.name}
    ensures Ahead([task, first, again], first.name) == {task.name}
  {
    NamesCons(task, [first, again]);
    NamesCons(first, [again]);
    NamesOne(again);
    assert [task, first, again] == [task] + [first, again] && [first, again] == [first] + [again];
    AheadCons(task, [first, again], first.name);
  }

  lemma TwoOfThree(task: Task, first: Task, again: Task)
    requires first.name == again.name != task.name
    ensures Named([task, first, again], first.name) == [first, again]
  {
    var n := first.name;
    assert [task, first, again] == [task] + [first, again] && [first, again] == [first] + [again];
    NamedConcat([task], [first, again], n);
    NamedConcat([first], [again], n);
    NamedOne(task, n);
    NamedOne(first, n);
    NamedOne(again, n);
  }

  /** One command that depends on another, and nothing else. */
  predicate Pair(commands: map<string, Command>, task: string, dep: string) {
    && task != dep && commands.Keys == {task, dep}
    && commands[task] == Command([dep], []) && commands[dep] == Command([], [])
  }

  lemma PairWants(commands: map<string, Command>, task: string, dep: string)
    requires Pair(commands, task, dep)
    ensures Wanting(commands, dep) == {task}
  {
    assert NeedAt(commands[task], 0) == Need(dep, true);
  }

  lemma PairNeeds(commands: map<string, Command>, task: Task, first: Task, again: Task)
    requires first.name == again.name && Pair(commands, task.name, first.name)
    ensures Needed(commands, [task, first, again], first.name)
  {
    var names, n := Names([task, first, again]), first.name;
    ThreeTasks(task, first, again);
    var p := [task.name, n];
    assert LeadsBy(NeedAt(commands[task.name], 0), names, n);
    assert Leads(commands, names, p[0], p[1]);
    assert Path(commands, names, p) && p[0] == task.name && p[|p| - 1] == n;
    assert Reaches(commands, names, task.name, n);
  }

  /** When a task is requested, and then twice one that it depends on, the second of these is executed. */
  method LaterRepeatRuns(task: Task, first: Task, again: Task, serial: nat) returns (run: seq<Task>)
    requires first.name == again.name != task.name && Apart([task, first, again], serial)
    ensures again in run && first !in run
  {
    var dep := first.name;
    var commands := map[task.name := Command([dep], []), dep := Command([], [])];
    ghost var rank := map[task.name := 1, dep := 0];
    ThreeTasks(task, first, again);
    ghost var waiting, visits;
    run, waiting, visits := OrderTasks([task, first, again], commands, serial, rank);
    TwoOfThree(task, first, again);
    PairWants(commands, task.name, dep);
    PairNeeds(commands, task, first, again);
    AnnouncementIff([task, first, again], commands, run, waiting, visits, dep);
  }
}
