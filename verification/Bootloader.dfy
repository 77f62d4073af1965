/**
  Programming the power board: a firmware file is sent row by row, each row
  cut into pieces that fit the transfer protocol, and the whole is verified at the end.
 */
module Bootloader {

  const SEND_MAX: nat := 121   // 128 minus the 7-byte header of a send command
  const FINAL_MAX: nat := 113  // 128 minus the 15-byte header of a row command

  type Bytes = seq<nat>

  /** Result of a command, with the failures of the link told apart. */
  datatype Status = Success | LinkFailure | Failure(code: nat)

  datatype Action = Program | Erase | Verify

  datatype Row = Row(address: nat, data: Bytes)

  /** A line of the file as the parsers see it; comments never get this far. */
  datatype Line =
    | DataRow(row: Row)
    | BadRow(code: nat)
    | Vector(iv: Bytes)
    | BadVector(code: nat)
    | OtherMeta
    | Ignored

  datatype Command =
    | Enter
    | SetMetadata
    | SetVector(iv: Bytes)
    | Send(data: Bytes)
    | EraseRow(address: nat)
    | ProgramRow(address: nat, data: Bytes)
    | VerifyRow(address: nat, data: Bytes)
    | VerifyApplication
    | Exit

  // ----- how a row is cut

  function Min(a: nat, b: nat): nat { if a < b then a else b }

  /** The send commands for what follows the first `offset` bytes. */
  function Sends(data: Bytes, offset: nat): (r: seq<Command>)
    requires offset <= |data|
    decreases |data| - offset
  {
    if |data| - offset <= FINAL_MAX then []
    else
      var n := Min(SEND_MAX, |data| - offset);
      [Send(data[offset..offset + n])] + Sends(data, offset + n)
  }

  /** How far the send commands get. */
  function Sent(size: nat, offset: nat): (r: nat)
    requires offset <= size
    ensures offset <= r <= size && size - r <= FINAL_MAX
    decreases size - offset
  {
    if size - offset <= FINAL_MAX then offset else Sent(size, offset + Min(SEND_MAX, size - offset))
  }

  function RowCommand(action: Action, row: Row, rest: Bytes): Command {
    match action
    case Erase => EraseRow(row.address)
    case Program => ProgramRow(row.address, rest)
    case Verify => VerifyRow(row.address, rest)
  }

  /** Pieces and a final command with the rest of the row; erasing needs no data. */
  function RowCommands(action: Action, row: Row): seq<Command> {
    (if action.Erase? then [] else Sends(row.data, 0)) + [RowCommand(action, row, row.data[Sent(|row.data|, 0)..])]
  }

  /** The bytes a list of commands carries to the board's row buffer. */
  function Carried(cs: seq<Command>): Bytes {
    if cs == [] then []
    else
      (match cs[0]
       case Send(d) => d
       case ProgramRow(_, d) => d
       case VerifyRow(_, d) => d
       case _ => []) + Carried(cs[1..])
  }

  lemma {:induction false} CarriedConcat(a: seq<Command>, b: seq<Command>)
    ensures Carried(a + b) == Carried(a) + Carried(b)
  {
    if a == [] {
      assert a + b == b;
    } else {
      assert (a + b)[1..] == a[1..] + b;
      CarriedConcat(a[1..], b);
    }
  }

  lemma CarriedSend(piece: Bytes, rest: seq<Command>)
    ensures Carried([Send(piece)] + rest) == piece + Carried(rest)
  {
    assert ([Send(piece)] + rest)[1..] == rest;
  }

  lemma {:induction false} SendsCarry(data: Bytes, offset: nat)
    requires offset <= |data|
    ensures Carried(Sends(data, offset)) == data[offset..Sent(|data|, offset)]
    decreases |data| - offset
  {
    if |data| - offset > FINAL_MAX {
      var next, end := offset + Min(SEND_MAX, |data| - offset), Sent(|data|, offset);
      SendsCarry(data, next);
      CarriedSend(data[offset..next], Sends(data, next));
      assert data[offset..end] == data[offset..next] + data[next..end];
    }
  }

  lemma {:induction false} SendsFit(data: Bytes, offset: nat)
    requires offset <= |data|
    ensures forall c :: c in Sends(data, offset) ==> c.Send? && 0 < |c.data| <= SEND_MAX
    decreases |data| - offset
  {
    if |data| - offset > FINAL_MAX { SendsFit(data, offset + Min(SEND_MAX, |data| - offset)); }
  }

  /** Every piece but the last is full, and pieces are cut off exactly as long as more than 113 bytes are left. */
  lemma {:induction false} SendsFull(data: Bytes, offset: nat)
    requires offset <= |data|
    ensures var cs := Sends(data, offset);
      && (forall i :: 0 <= i < |cs| ==> cs[i].Send? && (i < |cs| - 1 ==> |cs[i].data| == 121))
      && (cs == [] <==> |data| - offset <= 113)
    decreases |data| - offset
  {
    if |data| - offset > FINAL_MAX { SendsFull(data, offset + Min(SEND_MAX, |data| - offset)); }
  }

  /** The pieces of a row are within their limits and together are the whole row. */
  lemma RowIsWhole(action: Action, row: Row)
    requires !action.Erase?
    ensures var cs := RowCommands(action, row);
      && Carried(cs) == row.data
      && cs != []
      && (forall i :: 0 <= i < |cs| - 1 ==> cs[i].Send? && 0 < |cs[i].data| <= SEND_MAX)
      && (action.Program? ==>
            cs[|cs| - 1].ProgramRow? && cs[|cs| - 1].address == row.address && |cs[|cs| - 1].data| <= FINAL_MAX)
      && (action.Verify? ==>
            cs[|cs| - 1].VerifyRow? && cs[|cs| - 1].address == row.address && |cs[|cs| - 1].data| <= FINAL_MAX)
  {
    var cs, sends := RowCommands(action, row), Sends(row.data, 0);
    var last := cs[|cs| - 1];
    SendsCarry(row.data, 0);
    SendsFit(row.data, 0);
    CarriedConcat(sends, [last]);
    var done := Sent(|row.data|, 0);
    assert [last][1..] == [];
    assert Carried([last]) == last.data + [];
    assert row.data == row.data[0..done] + row.data[done..];
  }

  // ----- what is sent, and when it stops

  function LineCommands(action: Action, line: Line): seq<Command> {
    match line
    case DataRow(row) => RowCommands(action, row)
    case Vector(iv) => [SetVector(iv)]
    case _ => []
  }

  function AllCommands(action: Action, lines: seq<Line>): seq<Command> {
    if lines == [] then [] else LineCommands(action, lines[0]) + AllCommands(action, lines[1..])
  }

  predicate Readable(line: Line) { !line.BadRow? && !line.BadVector? }

  /** What was sent, what of it succeeded, and the answers still to come. */
  datatype Log = Log(trace: seq<Command>, good: seq<Command>, answers: seq<Status>)

  function One(l: Log, c: Command): (Log, Status) {
    var a := if l.answers == [] then LinkFailure else l.answers[0];
    (Log(l.trace + [c], if a.Success? then l.good + [c] else l.good, if l.answers == [] then [] else l.answers[1..]), a)
  }

  /** One command after the other, up to the first that fails. */
  function Do(l: Log, cs: seq<Command>): (Log, Status)
    decreases |cs|
  {
    if cs == [] then (l, Success)
    else
      var (m, a) := One(l, cs[0]);
      if a.Success? then Do(m, cs[1..]) else (m, a)
  }

  function OnLine(l: Log, action: Action, line: Line): (Log, Status) {
    match line
    case BadRow(code) => (l, Failure(code))
    case BadVector(code) => (l, Failure(code))
    case _ => Do(l, LineCommands(action, line))
  }

  /** The lines of the file up to the first that fails; `aborts[i]` tells of a request to stop before line i. */
  function OnLines(l: Log, action: Action, lines: seq<Line>, aborts: seq<bool>): (Log, Status)
    requires |aborts| == |lines| + 1
    decreases |lines|
  {
    if aborts[0] then (l, Failure(0xAB))
    else if lines == [] then (l, Success)
    else
      var (m, err) := OnLine(l, action, lines[0]);
      if err.Success? then OnLines(m, action, lines[1..], aborts[1..]) else (m, err)
  }

  /** After programming or verifying the application is verified; the board is told to go on unless the link is down. */
  function Closing(l: Log, action: Action, err: Status): (Log, Status) {
    if err.Success? && !action.Erase? then
      var (m, verified) := One(l, VerifyApplication);
      (One(m, Exit).0, verified)
    else if !err.LinkFailure? then (One(l, Exit).0, err)
    else (l, err)
  }

  function Run(l: Log, action: Action, prologue: Status, lines: seq<Line>, aborts: seq<bool>): (Log, Status)
    requires |aborts| == |lines| + 1
  {
    if !prologue.Success? then (l, prologue)
    else
      var (m, entered) := Do(l, [Enter, SetMetadata]);
      var (n, err) := if entered.Success? then OnLines(m, action, lines, aborts) else (m, entered);
      Closing(n, action, err)
  }

  // ----- what a run has done

  /** The next n commands succeed. */
  predicate AllSucceed(answers: seq<Status>, n: nat) {
    n <= |answers| && forall i :: 0 <= i < n ==> answers[i].Success?
  }

  /** Since `l` some of the commands have been sent, from the first on and in order. */
  predicate InOrder(l: Log, m: Log, cs: seq<Command>) {
    && |l.trace| <= |m.trace| <= |l.trace| + |cs|
    && m.trace == l.trace + cs[..|m.trace| - |l.trace|]
  }

  /** Since `l` all the commands have been sent and have succeeded. */
  predicate AllDone(l: Log, m: Log, cs: seq<Command>) {
    && m.trace == l.trace + cs && m.good == l.good + cs
    && |cs| <= |l.answers| && m.answers == l.answers[|cs|..]
  }

  lemma {:induction false} DoMeans(l: Log, cs: seq<Command>)
    ensures var (m, err) := Do(l, cs);
      && (err.Success? <==> AllSucceed(l.answers, |cs|))
      && InOrder(l, m, cs)
      && (err.Success? ==> AllDone(l, m, cs))
    decreases |cs|
  {
    if cs == [] {
      assert l.trace + [] == l.trace && l.good + [] == l.good;
    } else {
      var (m, a) := One(l, cs[0]);
      if a.Success? {
        DoMeans(m, cs[1..]);
        DoneFurther(l, m, Do(m, cs[1..]).0, cs[0], cs[1..]);
        assert cs == [cs[0]] + cs[1..];
      } else {
        assert cs[..1] == [cs[0]];
      }
    }
  }

  lemma DoneFurther(l: Log, m: Log, n: Log, c: Command, cs: seq<Command>)
    requires (m, Success) == One(l, c) && InOrder(m, n, cs)
    ensures InOrder(l, n, [c] + cs)
    ensures AllDone(m, n, cs) ==> AllDone(l, n, [c] + cs)
    ensures AllSucceed(l.answers, 1 + |cs|) <==> AllSucceed(m.answers, |cs|)
  {
    var k := |n.trace| - |m.trace|;
    assert ([c] + cs)[..k + 1] == [c] + cs[..k];
    assert l.trace + ([c] + cs[..k]) == (l.trace + [c]) + cs[..k];
    assert forall i :: 0 <= i < |m.answers| ==> m.answers[i] == l.answers[i + 1];
    if AllDone(m, n, cs) {
      assert l.good + ([c] + cs) == (l.good + [c]) + cs && l.trace + ([c] + cs) == (l.trace + [c]) + cs;
    }
  }

  lemma {:induction false} DoConcat(l: Log, a: seq<Command>, b: seq<Command>)
    ensures Do(l, a + b) == var (m, err) := Do(l, a); if err.Success? then Do(m, b) else (m, err)
    decreases |a|
  {
    if a == [] {
      assert a + b == b;
    } else {
      var (m, err) := One(l, a[0]);
      assert (a + b)[1..] == a[1..] + b && (a + b)[0] == a[0];
      if err.Success? { DoConcat(m, a[1..], b); }
    }
  }

  lemma DoOne(l: Log, c: Command)
    ensures Do(l, [c]) == One(l, c)
  {
    assert [c][1..] == [];
  }

  /** Two stretches of commands, the second begun only if the first was done. */
  lemma InOrderConcat(l: Log, m: Log, n: Log, a: seq<Command>, b: seq<Command>)
    requires AllDone(l, m, a) && InOrder(m, n, b)
    ensures InOrder(l, n, a + b)
    ensures AllDone(m, n, b) ==> AllDone(l, n, a + b)
    ensures AllSucceed(l.answers, |a|) ==> (AllSucceed(l.answers, |a + b|) <==> AllSucceed(m.answers, |b|))
  {
    var k := |n.trace| - |m.trace|;
    assert (a + b)[..|a| + k] == a + b[..k];
    assert l.trace + (a + b[..k]) == (l.trace + a) + b[..k];
    assert forall i :: 0 <= i < |m.answers| ==> m.answers[i] == l.answers[i + |a|];
    if AllSucceed(l.answers, |a|) && AllSucceed(m.answers, |b|) {
      forall i | 0 <= i < |a + b| ensures l.answers[i].Success? { assert i >= |a| ==> m.answers[i - |a|].Success?; }
    }
    if AllDone(m, n, b) {
      assert l.good + (a + b) == (l.good + a) + b && l.trace + (a + b) == (l.trace + a) + b;
    }
  }

  lemma InOrderLonger(l: Log, m: Log, a: seq<Command>, b: seq<Command>)
    requires InOrder(l, m, a)
    ensures InOrder(l, m, a + b)
  {
    var k := |m.trace| - |l.trace|;
    assert (a + b)[..k] == a[..k];
  }

  /** Nothing in the file or from outside stops the run. */
  predicate Clear(lines: seq<Line>, aborts: seq<bool>) {
    (forall i :: 0 <= i < |lines| ==> Readable(lines[i])) && forall i :: 0 <= i < |aborts| ==> !aborts[i]
  }

  lemma ClearCons(lines: seq<Line>, aborts: seq<bool>)
    requires |aborts| == |lines| + 1 && lines != []
    ensures Clear(lines, aborts) <==> Readable(lines[0]) && !aborts[0] && Clear(lines[1..], aborts[1..])
  {
    if Readable(lines[0]) && !aborts[0] && Clear(lines[1..], aborts[1..]) {
      forall i | 0 <= i < |lines| ensures Readable(lines[i]) { assert i > 0 ==> lines[1..][i - 1] == lines[i]; }
      forall i | 0 <= i < |aborts| ensures !aborts[i] { assert i > 0 ==> aborts[1..][i - 1] == aborts[i]; }
    }
  }

  /** The loop over the file succeeds exactly if nothing stops it and every command does. */
  lemma {:induction false} LinesMean(l: Log, action: Action, lines: seq<Line>, aborts: seq<bool>)
    requires |aborts| == |lines| + 1
    ensures var (m, err) := OnLines(l, action, lines, aborts);
      var cs := AllCommands(action, lines);
      && (err.Success? <==> Clear(lines, aborts) && AllSucceed(l.answers, |cs|))
      && InOrder(l, m, cs)
      && (err.Success? ==> AllDone(l, m, cs))
    decreases |lines|
  {
    var cs := AllCommands(action, lines);
    if lines == [] {
      DoMeans(l, []);
    } else {
      ClearCons(lines, aborts);
      var first, rest := LineCommands(action, lines[0]), AllCommands(action, lines[1..]);
      DoMeans(l, first);
      InOrderLonger(l, Do(l, first).0, first, rest);
      var (m, err) := OnLine(l, action, lines[0]);
      if !aborts[0] && err.Success? {
        LinesMean(m, action, lines[1..], aborts[1..]);
        InOrderConcat(l, m, OnLines(m, action, lines[1..], aborts[1..]).0, first, rest);
      }
    }
  }

  /** All that a run may send but the last command. */
  function Plan(action: Action, lines: seq<Line>): seq<Command> {
    [Enter, SetMetadata] + AllCommands(action, lines) + if action.Erase? then [] else [VerifyApplication]
  }

  /** The run up to its closing commands. */
  lemma BodyMeans(l: Log, action: Action, lines: seq<Line>, aborts: seq<bool>)
    requires |aborts| == |lines| + 1
    ensures var cs := [Enter, SetMetadata] + AllCommands(action, lines);
      var (m, entered) := Do(l, [Enter, SetMetadata]);
      var (n, err) := if entered.Success? then OnLines(m, action, lines, aborts) else (m, entered);
      && (err.Success? <==> Clear(lines, aborts) && AllSucceed(l.answers, |cs|))
      && InOrder(l, n, cs)
      && (err.Success? ==> AllDone(l, n, cs))
  {
    DoMeans(l, [Enter, SetMetadata]);
    var (m, entered) := Do(l, [Enter, SetMetadata]);
    InOrderLonger(l, m, [Enter, SetMetadata], AllCommands(action, lines));
    if entered.Success? {
      LinesMean(m, action, lines, aborts);
      InOrderConcat(l, m, OnLines(m, action, lines, aborts).0, [Enter, SetMetadata], AllCommands(action, lines));
    }
  }

  /**
    A run succeeds exactly if the file could be opened and is readable, nobody asked to stop, and the
    board accepts every command up to the verification of the application.
   */
  lemma RunSucceedsIff(l: Log, action: Action, prologue: Status, lines: seq<Line>, aborts: seq<bool>)
    requires |aborts| == |lines| + 1
    ensures Run(l, action, prologue, lines, aborts).1.Success? <==>
      prologue.Success? && Clear(lines, aborts) && AllSucceed(l.answers, |Plan(action, lines)|)
  {
    BodyMeans(l, action, lines, aborts);
    var cs := [Enter, SetMetadata] + AllCommands(action, lines);
    if !action.Erase? {
      assert Plan(action, lines) == cs + [VerifyApplication];
      OneMore(l.answers, |cs|);
    } else {
      assert Plan(action, lines) == cs;
    }
  }

  lemma OneMore(answers: seq<Status>, n: nat)
    ensures AllSucceed(answers, n + 1) <==> AllSucceed(answers, n) && n < |answers| && answers[n].Success?
  {
  }

  /** A successful run has sent the whole plan, all of it accepted, and the exit. */
  lemma RunDoesAll(l: Log, action: Action, prologue: Status, lines: seq<Line>, aborts: seq<bool>)
    requires |aborts| == |lines| + 1 && Run(l, action, prologue, lines, aborts).1.Success?
    ensures var m := Run(l, action, prologue, lines, aborts).0;
      && m.trace == l.trace + Plan(action, lines) + [Exit]
      && l.good + Plan(action, lines) <= m.good
  {
    BodyMeans(l, action, lines, aborts);
    var (m, entered) := Do(l, [Enter, SetMetadata]);
    var (n, err) := if entered.Success? then OnLines(m, action, lines, aborts) else (m, entered);
    ClosedAll(l, n, action, [Enter, SetMetadata] + AllCommands(action, lines));
  }

  lemma ClosedAll(l: Log, n: Log, action: Action, cs: seq<Command>)
    requires AllDone(l, n, cs) && Closing(n, action, Success).1.Success?
    ensures var m, plan := Closing(n, action, Success).0, cs + if action.Erase? then [] else [VerifyApplication];
      m.trace == l.trace + plan + [Exit] && l.good + plan <= m.good
  {
    if !action.Erase? {
      assert l.trace + (cs + [VerifyApplication]) == (l.trace + cs) + [VerifyApplication];
      assert l.good + (cs + [VerifyApplication]) == (l.good + cs) + [VerifyApplication];
    } else {
      assert cs + [] == cs;
    }
  }

  /** Whatever happens, what was sent is the beginning of the plan, with at most an exit at its end. */
  lemma RunInOrder(l: Log, action: Action, prologue: Status, lines: seq<Line>, aborts: seq<bool>) returns (k: nat)
    requires |aborts| == |lines| + 1
    ensures k <= |Plan(action, lines)|
    ensures var sent, plan := Run(l, action, prologue, lines, aborts).0.trace, Plan(action, lines);
      sent == l.trace + plan[..k] || sent == l.trace + plan[..k] + [Exit]
  {
    BodyMeans(l, action, lines, aborts);
    var cs, plan := [Enter, SetMetadata] + AllCommands(action, lines), Plan(action, lines);
    var (m, entered) := Do(l, [Enter, SetMetadata]);
    var (n, err) := if entered.Success? then OnLines(m, action, lines, aborts) else (m, entered);
    if !prologue.Success? {
      k := 0;
      assert l.trace + plan[..0] == l.trace;
    } else {
      k := Closed(l, n, action, err, cs);
    }
  }

  lemma Closed(l: Log, n: Log, action: Action, err: Status, cs: seq<Command>) returns (k: nat)
    requires InOrder(l, n, cs) && (err.Success? ==> AllDone(l, n, cs))
    ensures var sent, plan := Closing(n, action, err).0.trace, cs + if action.Erase? then [] else [VerifyApplication];
      k <= |plan| && (sent == l.trace + plan[..k] || sent == l.trace + plan[..k] + [Exit])
  {
    var plan := cs + if action.Erase? then [] else [VerifyApplication];
    if err.Success? && !action.Erase? {
      k := |plan|;
      assert plan[..k] == plan;
      assert l.trace + plan == n.trace + [VerifyApplication];
    } else {
      k := |n.trace| - |l.trace|;
      assert plan[..k] == cs[..k];
    }
  }

  // ----- the code

  /** The board at the other end of the link: it answers each command from a fixed script. */
  class Session {
    var answers: seq<Status>
    var trace: seq<Command>
    /** The commands that succeeded. */
    var good: seq<Command>

    constructor (answers: seq<Status>)
      ensures this.answers == answers && trace == [] && good == []
    {
      this.answers, trace, good := answers, [], [];
    }

    function Now(): Log
      reads this
    {
      Log(trace, good, answers)
    }

    method Transfer(c: Command) returns (err: Status)
      modifies this
      ensures (Now(), err) == One(old(Now()), c)
    {
      trace := trace + [c];
      if answers == [] { return LinkFailure; }
      err, answers := answers[0], answers[1..];
      if err.Success? { good := good + [c]; }
    }

    /** Sends pieces until what is left fits the final command. */
    method SendData(data: Bytes) returns (err: Status, offset: nat)
      modifies this
      ensures (Now(), err) == Do(old(Now()), Sends(data, 0))
      ensures err.Success? ==> offset == Sent(|data|, 0)
      ensures offset <= |data|
    {
      err, offset := Success, 0;
      var subBufSize := Min(SEND_MAX, |data|);
      while err.Success? && |data| - offset > FINAL_MAX
        invariant offset <= |data|
        invariant err.Success? ==> Sent(|data|, 0) == Sent(|data|, offset)
        invariant Do(old(Now()), Sends(data, 0))
               == if err.Success? then Do(Now(), Sends(data, offset)) else (Now(), err)
        decreases |data| - offset
      {
        var cmdLen := if |data| - offset > subBufSize then subBufSize else |data| - offset;
        SendsCons(data, offset, cmdLen);
        err := Transfer(Send(data[offset..offset + cmdLen]));
        offset := offset + cmdLen;
      }
    }

    method ProcessRow(action: Action, row: Row) returns (err: Status)
      modifies this
      ensures (Now(), err) == Do(old(Now()), RowCommands(action, row))
    {
      if action.Erase? {
        DoOne(Now(), EraseRow(row.address));
        err := Transfer(EraseRow(row.address));
        return;
      }
      var offset;
      err, offset := SendData(row.data);
      ghost var whole := row.data[Sent(|row.data|, 0)..];
      DoConcat(old(Now()), Sends(row.data, 0), [RowCommand(action, row, whole)]);
      if err.Success? {
        var last := if action.Program? then ProgramRow(row.address, row.data[offset..])
                    else VerifyRow(row.address, row.data[offset..]);
        DoOne(Now(), last);
        err := Transfer(last);
      }
    }

    method ProcessLine(action: Action, line: Line) returns (err: Status)
      modifies this
      ensures (Now(), err) == OnLine(old(Now()), action, line)
    {
      match line {
        case DataRow(row) => err := ProcessRow(action, row);
        case BadRow(code) => err := Failure(code);
        case Vector(iv) =>
          DoOne(Now(), SetVector(iv));
          err := Transfer(SetVector(iv));
        case BadVector(code) => err := Failure(code);
        case _ => err := Success;
      }
    }

    /** The loop over the lines of the file, up to its end or to the first failure. */
    method ProcessLines(action: Action, lines: seq<Line>, aborts: seq<bool>) returns (err: Status, seen: nat)
      requires |aborts| == |lines| + 1
      modifies this
      ensures (Now(), err) == OnLines(old(Now()), action, lines, aborts)
      ensures err.Success? ==> seen == |Addresses(lines)|
    {
      err, seen := Success, 0;
      var i := 0;
      while err.Success?
        invariant 0 <= i <= |lines|
        invariant OnLines(old(Now()), action, lines, aborts)
               == if err.Success? then OnLines(Now(), action, lines[i..], aborts[i..]) else (Now(), err)
        invariant err.Success? ==> seen + |Addresses(lines[i..])| == |Addresses(lines)|
        decreases |lines| - i, err.Success?
      {
        if aborts[i] {
          err := Failure(0xAB);
          break;
        }
        if i == |lines| { break; }
        assert lines[i..][0] == lines[i] && lines[i..][1..] == lines[i + 1..] && aborts[i..][1..] == aborts[i + 1..];
        err := ProcessLine(action, lines[i]);
        if err.Success? {
          if lines[i].DataRow? { seen := seen + 1; }
          i := i + 1;
        }
      }
    }

    /**
      The run driver.  `prologue` is the outcome of opening, reading and checking the file, and
      `aborts[i]` says whether an abort was requested before line i.
     */
    method RunAction(action: Action, prologue: Status, lines: seq<Line>, aborts: seq<bool>)
      returns (err: Status, seen: nat)
      requires |aborts| == |lines| + 1
      modifies this
      ensures (Now(), err) == Run(old(Now()), action, prologue, lines, aborts)
      ensures err.Success? <==>
        prologue.Success? && Clear(lines, aborts) && AllSucceed(old(answers), |Plan(action, lines)|)
      ensures err.Success? ==> trace == old(trace) + Plan(action, lines) + [Exit] && seen == |Addresses(lines)|
      ensures err.Success? ==> old(good) + Plan(action, lines) <= good
    {
      seen := 0;
      RunSucceedsIff(Now(), action, prologue, lines, aborts);
      if Run(Now(), action, prologue, lines, aborts).1.Success? {
        RunDoesAll(Now(), action, prologue, lines, aborts);
      }
      if !prologue.Success? { return prologue, 0; }
      err := Open();
      if err.Success? { err, seen := ProcessLines(action, lines, aborts); }
      err := Close(action, err);
    }

    method Open() returns (err: Status)
      modifies this
      ensures (Now(), err) == Do(old(Now()), [Enter, SetMetadata])
    {
      assert [Enter, SetMetadata][1..] == [SetMetadata];
      err := Transfer(Enter);
      if err.Success? {
        DoOne(Now(), SetMetadata);
        err := Transfer(SetMetadata);
      }
    }

    method Close(action: Action, result: Status) returns (err: Status)
      modifies this
      ensures (Now(), err) == Closing(old(Now()), action, result)
    {
      err := result;
      if err.Success? && !action.Erase? {
        err := Transfer(VerifyApplication);
        var ignored := Transfer(Exit);
      } else if !err.LinkFailure? {
        var ignored := Transfer(Exit);
      }
    }
  }

  lemma SendsCons(data: Bytes, offset: nat, n: nat)
    requires offset <= |data| && |data| - offset > FINAL_MAX && n == Min(SEND_MAX, |data| - offset)
    ensures Sends(data, offset) == [Send(data[offset..offset + n])] + Sends(data, offset + n)
    ensures Sends(data, offset)[0] == Send(data[offset..offset + n])
    ensures Sends(data, offset)[1..] == Sends(data, offset + n)
    ensures Sent(|data|, offset + n) == Sent(|data|, offset)
  {
  }

  /** In particular, every row of the file was programmed, whole and in order. */
  function RowsProgrammed(lines: seq<Line>): Bytes {
    if lines == [] then []
    else (if lines[0].DataRow? then lines[0].row.data else []) + RowsProgrammed(lines[1..])
  }

  lemma {:induction false} AllRowsCarried(action: Action, lines: seq<Line>)
    requires !action.Erase?
    ensures Carried(AllCommands(action, lines)) == RowsProgrammed(lines)
  {
    if lines != [] {
      var line := lines[0];
      AllRowsCarried(action, lines[1..]);
      CarriedConcat(LineCommands(action, line), AllCommands(action, lines[1..]));
      if line.DataRow? { RowIsWhole(action, line.row); } else {
        assert LineCommands(action, line) == [] || LineCommands(action, line)[1..] == [];
      }
    }
  }

  // ----- what reaches the board, in the order of the file

  /** The row that a command of the action ends with. */
  function AddressOf(action: Action, c: Command): seq<nat> {
    match c
    case EraseRow(a) => if action.Erase? then [a] else []
    case ProgramRow(a, _) => if action.Program? then [a] else []
    case VerifyRow(a, _) => if action.Verify? then [a] else []
    case _ => []
  }

  function VectorOf(c: Command): seq<Bytes> { if c.SetVector? then [c.iv] else [] }

  /** The commands that act on rows, as the addresses of those rows. */
  function Addressed(action: Action, cs: seq<Command>): seq<nat> {
    if cs == [] then [] else AddressOf(action, cs[0]) + Addressed(action, cs[1..])
  }

  function Vectors(cs: seq<Command>): seq<Bytes> {
    if cs == [] then [] else VectorOf(cs[0]) + Vectors(cs[1..])
  }

  /** The rows of a file and its vectors. */
  function Addresses(lines: seq<Line>): seq<nat> {
    if lines == [] then []
    else (if lines[0].DataRow? then [lines[0].row.address] else []) + Addresses(lines[1..])
  }

  function FileVectors(lines: seq<Line>): seq<Bytes> {
    if lines == [] then []
    else (if lines[0].Vector? then [lines[0].iv] else []) + FileVectors(lines[1..])
  }

  lemma Assoc<T>(a: seq<T>, b: seq<T>, c: seq<T>)
    ensures (a + b) + c == a + (b + c)
  {
  }

  lemma {:induction false} AddressedConcat(action: Action, a: seq<Command>, b: seq<Command>)
    ensures Addressed(action, a + b) == Addressed(action, a) + Addressed(action, b)
    decreases |a|
  {
    if a == [] {
      assert a + b == b;
    } else {
      assert (a + b)[1..] == a[1..] + b && (a + b)[0] == a[0];
      AddressedConcat(action, a[1..], b);
      Assoc(AddressOf(action, a[0]), Addressed(action, a[1..]), Addressed(action, b));
    }
  }

  lemma {:induction false} VectorsConcat(a: seq<Command>, b: seq<Command>)
    ensures Vectors(a + b) == Vectors(a) + Vectors(b)
    decreases |a|
  {
    if a == [] {
      assert a + b == b;
    } else {
      assert (a + b)[1..] == a[1..] + b && (a + b)[0] == a[0];
      VectorsConcat(a[1..], b);
      Assoc(VectorOf(a[0]), Vectors(a[1..]), Vectors(b));
    }
  }

  lemma {:induction false} SendsAddressNothing(action: Action, cs: seq<Command>)
    requires forall c :: c in cs ==> c.Send?
    ensures Addressed(action, cs) == [] && Vectors(cs) == []
  {
    if cs != [] {
      SendsAddressNothing(action, cs[1..]);
      assert cs[0] in cs;
      assert AddressOf(action, cs[0]) == [] && VectorOf(cs[0]) == [];
    }
  }

  lemma OneCommand(action: Action, c: Command)
    ensures Addressed(action, [c]) == if (c.EraseRow? && action.Erase?) || (c.ProgramRow? && action.Program?)
                                         || (c.VerifyRow? && action.Verify?) then [c.address] else []
    ensures Vectors([c]) == if c.SetVector? then [c.iv] else []
  {
    assert [c][1..] == [];
  }

  lemma LineAddresses(action: Action, line: Line)
    ensures Addressed(action, LineCommands(action, line)) == if line.DataRow? then [line.row.address] else []
    ensures Vectors(LineCommands(action, line)) == if line.Vector? then [line.iv] else []
  {
    if line.DataRow? {
      var row := line.row;
      var rest := row.data[Sent(|row.data|, 0)..];
      var last := match action case Erase => EraseRow(row.address)
                               case Program => ProgramRow(row.address, rest)
                               case Verify => VerifyRow(row.address, rest);
      var sends := if action.Erase? then [] else Sends(row.data, 0);
      SendsFit(row.data, 0);
      SendsAddressNothing(action, sends);
      AddressedConcat(action, sends, [last]);
      VectorsConcat(sends, [last]);
      OneCommand(action, last);
      assert LineCommands(action, line) == sends + [last];
    } else if line.Vector? {
      OneCommand(action, SetVector(line.iv));
    }
  }

  /** Each row of the file gets its one command of the action, and each vector is set, in the order of the file. */
  lemma {:induction false} FileInOrder(action: Action, lines: seq<Line>)
    ensures Addressed(action, AllCommands(action, lines)) == Addresses(lines)
    ensures Vectors(AllCommands(action, lines)) == FileVectors(lines)
  {
    if lines != [] {
      FileInOrder(action, lines[1..]);
      AddressedConcat(action, LineCommands(action, lines[0]), AllCommands(action, lines[1..]));
      VectorsConcat(LineCommands(action, lines[0]), AllCommands(action, lines[1..]));
      LineAddresses(action, lines[0]);
    }
  }
}
