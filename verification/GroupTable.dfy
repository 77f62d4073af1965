/**
  The table of a charging group: searching, adding and removing chargers, and
  the rotation that puts the master in the first row.  The table is a buffer of 40 rows of which
  the first `size` are in use; rows past that keep what they last held.
 */
module GroupTable {
  import opened Chargers

  const ABSENT: nat := 255
  const NO_IP: nat := 0

  const Blank: string := "\0\0\0\0\0\0\0\0"

  // ----- values

  function Find(rows: seq<Charger>, size: nat, id: string): (r: nat)
    requires size <= |rows| <= MAX_GROUP_SIZE
    ensures r == ABSENT <==> forall j :: 0 <= j < size ==> rows[j].name != id
    ensures r != ABSENT ==> r < size && rows[r].name == id && forall j :: 0 <= j < r ==> rows[j].name != id
  {
    FindFrom(rows, size, id, 0)
  }

  function FindFrom(rows: seq<Charger>, size: nat, id: string, from: nat): (r: nat)
    requires from <= size <= |rows| <= MAX_GROUP_SIZE
    ensures r == ABSENT <==> forall j :: from <= j < size ==> rows[j].name != id
    ensures r != ABSENT ==> from <= r < size && rows[r].name == id && forall j :: from <= j < r ==> rows[j].name != id
    decreases size - from
  {
    if from == size then ABSENT
    else if rows[from].name == id then from
    else FindFrom(rows, size, id, from + 1)
  }

  predicate Distinct(rows: seq<Charger>, size: nat)
    requires size <= |rows|
  {
    forall i, j :: 0 <= i < j < size ==> rows[i].name != rows[j].name
  }

  /** A row as a newly added charger finds it: phase, order, flags and side currents are left over. */
  function Fresh(c: Charger, id: string, ip: nat): Charger {
    c.(name := id, ip := ip, hpt := Unknown, current := 0, conected := false, delta := 0,
       deltaTimer := 0, circuito := 0, consigna := 0)
  }

  predicate CanAdd(rows: seq<Charger>, size: nat, id: string)
    requires size <= |rows| <= MAX_GROUP_SIZE
  {
    size < MAX_GROUP_SIZE && Find(rows, size, id) == ABSENT
  }

  function Added(rows: seq<Charger>, size: nat, id: string, ip: nat): (r: seq<Charger>)
    requires size <= |rows| == MAX_GROUP_SIZE
    ensures |r| == |rows|
    ensures !CanAdd(rows, size, id) ==> r == rows
    ensures CanAdd(rows, size, id) ==>
      size < |r| && r[size].name == id && r[..size] == rows[..size] && r[size + 1..] == rows[size + 1..]
    ensures CanAdd(rows, size, id) && Distinct(rows, size) ==> Distinct(r, size + 1)
  {
    if CanAdd(rows, size, id) then rows[size := Fresh(rows[size], id, ip)] else rows
  }

  /** A charger is taken exactly if there are fewer than 40 and none has its name. */
  lemma CanAddIff(rows: seq<Charger>, size: nat, id: string)
    requires size <= |rows| <= 40
    ensures CanAdd(rows, size, id) <==> size < 40 && forall i :: 0 <= i < size ==> rows[i].name != id
  {
  }

  /** The new row carries its name and address, nothing of what it measured before, and is not connected. */
  lemma AddedRow(rows: seq<Charger>, size: nat, id: string, ip: nat)
    requires size <= |rows| == MAX_GROUP_SIZE && CanAdd(rows, size, id)
    ensures var c, was := Added(rows, size, id, ip)[size], rows[size];
      && c.name == id && c.ip == ip && !c.conected && c.circuito == 0
      && c.hpt == Unknown && c.current == c.consigna == c.delta == c.deltaTimer == 0
      && c.fase == was.fase && c.order == was.order && c.trifasico == was.trifasico
      && c.chargeReq == was.chargeReq && c.currentB == was.currentB && c.currentC == was.currentC
  {
  }

  /** Row i after row j has been removed: later rows move up by one, the last used row is blanked. */
  function RemovedAt(rows: seq<Charger>, size: nat, j: nat, i: nat): Charger
    requires j < size <= |rows| && i < |rows|
  {
    if i < j || size <= i then rows[i]
    else if i < size - 1 then rows[i + 1]
    else rows[size - 1].(ip := NO_IP, name := Blank)
  }

  function Removed(rows: seq<Charger>, size: nat, j: nat): (r: seq<Charger>)
    requires j < size <= |rows|
    ensures |r| == |rows| && forall i :: 0 <= i < |rows| ==> r[i] == RemovedAt(rows, size, j, i)
  {
    seq(|rows|, i requires 0 <= i < |rows| => RemovedAt(rows, size, j, i))
  }

  /** The rows of the others stay in order, the row that falls free has no name, nothing past it changes. */
  lemma RemovedRows(rows: seq<Charger>, size: nat, j: nat)
    requires j < size <= |rows|
    ensures var r := Removed(rows, size, j);
      && r[..size - 1] == rows[..j] + rows[j + 1..size]
      && r[size - 1].name == "\0\0\0\0\0\0\0\0"
      && r[size..] == rows[size..]
  {
    var r := Removed(rows, size, j);
    forall i | 0 <= i < size - 1 ensures r[i] == (rows[..j] + rows[j + 1..size])[i] {
      assert r[i] == RemovedAt(rows, size, j, i);
    }
    assert r[size - 1] == RemovedAt(rows, size, j, size - 1);
  }

  lemma RemovedDistinct(rows: seq<Charger>, size: nat, j: nat)
    requires j < size <= |rows| && Distinct(rows, size)
    ensures Distinct(Removed(rows, size, j), size - 1)
  {
  }

  /** What the three copies of the rotation loop put back into the row of the old master. */
  datatype Restore = Placement | Measures | Whole

  function Restored(c: Charger, was: Charger, how: Restore): Charger {
    match how
    case Placement => c.(fase := was.fase, circuito := was.circuito)
    case Measures => c.(fase := was.fase, circuito := was.circuito, current := was.current, currentB := was.currentB,
                        currentC := was.currentC, consigna := was.consigna, delta := was.delta,
                        deltaTimer := was.deltaTimer, hpt := was.hpt)
    case Whole => was
  }

  /** The fields that every copy of the loop preserves. */
  function Place(c: Charger): (string, nat, nat) { (c.name, c.fase, c.circuito) }

  /** State, currents, setpoint and spare of a row are those of another. */
  predicate SameMeasures(c: Charger, was: Charger) {
    && c.hpt == was.hpt && c.current == was.current && c.currentB == was.currentB && c.currentC == was.currentC
    && c.consigna == was.consigna && c.delta == was.delta && c.deltaTimer == was.deltaTimer
  }

  /** `r` is `s` turned so that row k comes first, in the fields that `how` preserves. */
  predicate TurnedBy(s: seq<Charger>, r: seq<Charger>, n: nat, k: nat, how: Restore) {
    && n <= |s| == |r| && k <= n
    && (forall i :: 0 <= i < n - k ==> r[i] == s[i + k])
    && (forall i :: n - k <= i < n ==> Place(r[i]) == Place(s[i + k - n]))
    && (forall i :: n - k <= i < n && how.Measures? ==> SameMeasures(r[i], s[i + k - n]))
    && (forall i :: n - k <= i < n && how.Whole? ==> r[i] == s[i + k - n])
  }

  lemma {:induction false} FindFirst(rows: seq<Charger>, size: nat)
    requires 0 < size <= |rows| <= MAX_GROUP_SIZE
    ensures Find(rows, size, rows[0].name) == 0
  {
    var j := Find(rows, size, rows[0].name);
    assert rows[0].name == rows[0].name;
  }

  // ----- operations on the buffer

  method CheckInGroup(id: string, group: array<Charger>, size: nat) returns (r: nat)
    requires size <= group.Length <= MAX_GROUP_SIZE
    ensures r == Find(group[..], size, id)
  {
    for j := 0 to size
      invariant Find(group[..], size, id) == FindFrom(group[..], size, id, j)
    {
      if group[j].name == id { return j; }
    }
    return ABSENT;
  }

  method AddToGroup(id: string, ip: nat, group: array<Charger>, size: nat) returns (ok: bool, size': nat)
    requires size <= group.Length == MAX_GROUP_SIZE
    modifies group
    ensures ok == CanAdd(old(group[..]), size, id)
    ensures group[..] == Added(old(group[..]), size, id, ip)
    ensures size' == if ok then size + 1 else size
  {
    ok, size' := false, size;
    if size < MAX_GROUP_SIZE {
      var j := CheckInGroup(id, group, size);
      if j == ABSENT {
        group[size] := Fresh(group[size], id, ip);
        ok, size' := true, size + 1;
      }
    }
  }

  /** The rows after row j move up by one; the last used row keeps its old contents. */
  method ShiftUp(group: array<Charger>, size: nat, j: nat)
    requires j < size <= group.Length
    modifies group
    ensures forall k :: 0 <= k < group.Length ==> group[k] == old(group[if j <= k < size - 1 then k + 1 else k])
  {
    for i := j to size - 1
      invariant forall k :: j <= k < i ==> group[k] == old(group[k + 1])
      invariant forall k :: 0 <= k < group.Length && !(j <= k < i) ==> group[k] == old(group[k])
    {
      group[i] := group[i + 1];
    }
  }

  lemma ShiftedIsRemoved(was: seq<Charger>, now: seq<Charger>, size: nat, j: nat)
    requires j < size <= |was| == |now|
    requires forall k :: 0 <= k < |was| && k != size - 1 ==> now[k] == was[if j <= k < size - 1 then k + 1 else k]
    requires now[size - 1] == was[size - 1].(ip := NO_IP, name := Blank)
    ensures now == Removed(was, size, j)
  {
    forall k | 0 <= k < |was| ensures now[k] == RemovedAt(was, size, j, k) { }
  }

  method RemoveFromGroup(id: string, group: array<Charger>, size: nat) returns (ok: bool, size': nat)
    requires size <= group.Length == MAX_GROUP_SIZE
    modifies group
    ensures ok == (Find(old(group[..]), size, id) != ABSENT)
    ensures ok ==> size' == size - 1 && group[..] == Removed(old(group[..]), size, Find(old(group[..]), size, id))
    ensures !ok ==> size' == size && group[..] == old(group[..])
  {
    ghost var was := group[..];
    var j := CheckInGroup(id, group, size);
    if j == ABSENT { return false, size; }
    ShiftUp(group, size, j);
    group[size - 1] := group[size - 1].(ip := NO_IP, name := Blank);
    ShiftedIsRemoved(was, group[..], size, j);
    return true, size - 1;
  }

  /** The table after its first row has been removed and added back, and part of it restored. */
  function TurnedOnce(rows: seq<Charger>, size: nat, how: Restore): (r: seq<Charger>)
    requires 2 <= size <= |rows| == MAX_GROUP_SIZE
    ensures |r| == |rows|
  {
    var added := Added(Removed(rows, size, 0), size - 1, rows[0].name, rows[0].ip);
    added[size - 1 := Restored(added[size - 1], rows[0], how)]
  }

  lemma TurnedOnceTurns(rows: seq<Charger>, size: nat, how: Restore)
    requires 2 <= size <= |rows| == MAX_GROUP_SIZE && Distinct(rows, size)
    ensures CanAdd(Removed(rows, size, 0), size - 1, rows[0].name)
    ensures TurnedBy(rows, TurnedOnce(rows, size, how), size, 1, how)
    ensures forall i :: size <= i < |rows| ==> TurnedOnce(rows, size, how)[i] == rows[i]
  {
    var less := Removed(rows, size, 0);
    forall i | 0 <= i < size - 1 ensures less[i] == rows[i + 1] && less[i].name != rows[0].name {
      assert less[i] == RemovedAt(rows, size, 0, i);
    }
  }

  lemma TurnedDistinct(s: seq<Charger>, r: seq<Charger>, n: nat, how: Restore)
    requires TurnedBy(s, r, n, 1, how) && Distinct(s, n) && n >= 2
    ensures Distinct(r, n)
  {
    forall i, j | 0 <= i < j < n ensures r[i].name != r[j].name {
      assert r[i] == s[i + 1];
      if j < n - 1 { assert r[j] == s[j + 1]; } else { assert Place(r[j]) == Place(s[0]); }
    }
  }

  /** Removing the first row and adding it back leaves the table turned by one. */
  method TurnOnce(group: array<Charger>, size: nat, how: Restore)
    requires 2 <= size <= group.Length == MAX_GROUP_SIZE && Distinct(group[..], size)
    modifies group
    ensures group[..] == TurnedOnce(old(group[..]), size, how)
  {
    ghost var was := group[..];
    var oldMaster := group[0];
    FindFirst(was, size);
    TurnedOnceTurns(was, size, how);
    var removed, less := RemoveFromGroup(oldMaster.name, group, size);
    var added, more := AddToGroup(oldMaster.name, oldMaster.ip, group, less);
    group[more - 1] := Restored(group[more - 1], oldMaster, how);
  }

  lemma TurnCompose(s: seq<Charger>, mid: seq<Charger>, r: seq<Charger>, n: nat, k: nat, how: Restore)
    requires k < n && TurnedBy(s, mid, n, k, how) && TurnedBy(mid, r, n, 1, how)
    ensures TurnedBy(s, r, n, k + 1, how)
  {
    forall i | 0 <= i < n - k - 1 ensures r[i] == s[i + k + 1] { assert r[i] == mid[i + 1]; }
    forall i | n - k - 1 <= i < n
      ensures Place(r[i]) == Place(s[i + k + 1 - n])
      ensures how.Measures? ==> SameMeasures(r[i], s[i + k + 1 - n])
      ensures how.Whole? ==> r[i] == s[i + k + 1 - n]
    {
      if i < n - 1 { assert r[i] == mid[i + 1]; } else { assert mid[0] == s[k]; }
    }
  }

  /** The table is `was` turned by k, names still distinct, rows past the group untouched. */
  predicate Turning(was: seq<Charger>, now: seq<Charger>, size: nat, k: nat, how: Restore) {
    && TurnedBy(was, now, size, k, how) && Distinct(now, size)
    && forall i :: size <= i < |was| ==> now[i] == was[i]
  }

  lemma TurnFurther(was: seq<Charger>, mid: seq<Charger>, size: nat, k: nat, how: Restore)
    requires 2 <= size <= |was| == MAX_GROUP_SIZE && k < size && Turning(was, mid, size, k, how)
    ensures Turning(was, TurnedOnce(mid, size, how), size, k + 1, how)
  {
    TurnedOnceTurns(mid, size, how);
    TurnedDistinct(mid, TurnedOnce(mid, size, how), size, how);
    TurnCompose(was, mid, TurnedOnce(mid, size, how), size, k, how);
  }

  /** The loop stops exactly at the row that was looked for. */
  lemma TurnedFirst(was: seq<Charger>, now: seq<Charger>, size: nat, k: nat, target: nat, how: Restore)
    requires k <= target < size <= |was| && Turning(was, now, size, k, how)
    requires Distinct(was, size) && now[0].name == was[target].name
    ensures k == target
  {
    assert now[0] == was[k];
  }

  /** The loop that puts this device first: an exact rotation of the group. */
  method PutFirst(me: string, group: array<Charger>, size: nat, how: Restore)
    requires size <= group.Length == MAX_GROUP_SIZE && Distinct(group[..], size)
    requires Find(group[..], size, me) != ABSENT
    modifies group
    ensures group[0].name == me
    ensures Turning(old(group[..]), group[..], size, Find(old(group[..]), size, me), how)
  {
    ghost var target := Find(group[..], size, me);
    RotateTo(me, group, size, how, target);
  }

  method RotateTo(me: string, group: array<Charger>, size: nat, how: Restore, ghost target: nat)
    requires target < size <= group.Length == MAX_GROUP_SIZE && Distinct(group[..], size) && group[target].name == me
    modifies group
    ensures group[0].name == me && Turning(old(group[..]), group[..], size, target, how)
  {
    ghost var was, k := group[..], 0;
    while group[0].name != me
      invariant k <= target && Turning(was, group[..], size, k, how)
      decreases target - k
    {
      assert group[..][0] == was[k];
      ghost var mid := group[..];
      TurnOnce(group, size, how);
      TurnFurther(was, mid, size, k, how);
      k := k + 1;
    }
    TurnedFirst(was, group[..], size, k, target, how);
  }
}
